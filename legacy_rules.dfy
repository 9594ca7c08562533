/**
 * The parts of a shot that app.py and app_OBSOLETE.py write identically:
 * the once-per-team format change of `add_record`, and the undo and redo
 * of a stored hit that `edit_record` and `delete_record` perform on the
 * opponent's cups and on the redemption counters.
 */
module LegacyRules {
  import opened MatchState
  import opened Catalog
  import CupLists

  // ---------------------------------------------------------------------
  // Format change: first change wins

  /** Whether a submitted format re-racks the opponent: it is given, differs from the opponent's format, and the shooter's team has not changed format yet. */
  predicate FormatApplies(s: State, team: Team, format: string)
  {
    format != "" && format != s.Of(team.Other()).formatTarget && !s.Of(team).formatChanged
  }

  /** The format block of `add_record`: the opponent gets the new format and its full rack, and the shooter's team is locked. */
  function FormatChosen(s: State, team: Team, format: string): State
  {
    var opp := team.Other();
    if FormatApplies(s, team, format) then
      var a := s.With(opp, s.Of(opp).(formatTarget := format));
      var b := a.With(team, a.Of(team).(formatChanged := true));
      b.InitCups(opp, format)
    else s
  }

  /** The format written into the shot's record: the stored one when a different format was refused. */
  function RecordedFormat(s: State, team: Team, format: string): string
  {
    if format != "" && format != s.Of(team.Other()).formatTarget && s.Of(team).formatChanged
    then s.Of(team.Other()).formatTarget
    else format
  }

  // ---------------------------------------------------------------------
  // Undo and redo of a stored hit

  /** The stored hit's cups go back on the opponent's table, each only if missing. */
  function Restored(s: State, team: Team, cups: seq<string>): State
  {
    var opp := team.Other();
    s.With(opp, s.Of(opp).(active := CupLists.AppendMissing(s.Of(opp).active, cups)))
  }

  /** A redeeming shooter gets back the shot and loses the hits it had scored. */
  function HitsWithdrawn(s: State, team: Team, n: int): State
  {
    if s.Redeeming(team) then s.(hits := s.hits - n, shotsLeft := s.shotsLeft + 1) else s
  }

  /** The new hit's cups leave the opponent's table, every copy of each. */
  function Removed(s: State, team: Team, cups: seq<string>): State
  {
    var opp := team.Other();
    s.With(opp, s.Of(opp).(active := CupLists.RemoveAll(s.Of(opp).active, cups)))
  }

  /** A redeeming shooter spends the shot and scores the hits again. */
  function HitsReplayed(s: State, team: Team, n: int): State
  {
    if s.Redeeming(team) then s.(hits := s.hits + n, shotsLeft := s.shotsLeft - 1) else s
  }

  /** Undo of a stored hit by `team`. */
  function Undone(s: State, team: Team, cups: seq<string>): State
  {
    HitsWithdrawn(Restored(s, team, cups), team, |cups|)
  }

  /** Redo of a hit by `team`. */
  function Redone(s: State, team: Team, cups: seq<string>): State
  {
    HitsReplayed(Removed(s, team, cups), team, |cups|)
  }

  /** The cup work of `edit_record` before the state update: undo the old hit, then apply the new one, on an unfinished match only. */
  function Rewound(s: State, team: Team, oldHit: bool, oldCups: seq<string>, newHit: bool, newCups: seq<string>): State
  {
    var a := if s.status != Finished && oldHit then Undone(s, team, oldCups) else s;
    if a.status != Finished && newHit then Redone(a, team, newCups) else a
  }

  // ---------------------------------------------------------------------
  // Operations on the match row

  /** The format block of `add_record`; returns the format the record stores. */
  method ChangeFormat(m: ActiveMatch, team: Team, format: string) returns (recorded: string)
    modifies m
    ensures m.Snap() == FormatChosen(old(m.Snap()), team, format)
    ensures recorded == RecordedFormat(old(m.Snap()), team, format)
  {
    recorded := format;
    var opp := team.Other();
    var target := m.Snap().Of(opp).formatTarget;
    if format != "" && format != target {
      var alreadyChanged := m.Snap().Of(team).formatChanged;
      if !alreadyChanged {
        m.SetFormatTarget(opp, format);
        m.SetFormatChanged(team, true);
        m.SetCups(opp, CupsFor(format));
      } else {
        recorded := target;
      }
    }
  }

  /** Cups of a stored hit are put back on the opponent's table (the restore loop of `edit_record` and `delete_record`). */
  method RestoreCups(m: ActiveMatch, team: Team, cups: seq<string>)
    modifies m
    ensures m.Snap() == Restored(old(m.Snap()), team, cups)
  {
    var opp := team.Other();
    var current := CupLists.AppendEach(m.Snap().Of(opp).active, cups);
    m.SetCups(opp, current);
  }

  /** The redemption correction after a restore. */
  method WithdrawHits(m: ActiveMatch, team: Team, n: int)
    modifies m
    ensures m.Snap() == HitsWithdrawn(old(m.Snap()), team, n)
  {
    if m.status == Redemption(team) {
      m.redemptionHits := m.redemptionHits - n;
      m.redemptionShotsLeft := m.redemptionShotsLeft + 1;
    }
  }

  /** Phases 1 and 3 of `edit_record`: undo of the old hit and redo of the new one. */
  method RewindShot(m: ActiveMatch, team: Team, oldHit: bool, oldCups: seq<string>, newHit: bool, newCups: seq<string>)
    modifies m
    ensures m.Snap() == Rewound(old(m.Snap()), team, oldHit, oldCups, newHit, newCups)
  {
    if m.status != Finished && oldHit {
      RestoreCups(m, team, oldCups);
      WithdrawHits(m, team, |oldCups|);
    }
    if m.status != Finished && newHit {
      RemoveCups(m, team, newCups);
      ReplayHits(m, team, |newCups|);
    }
  }

  /** Cups of the new hit leave the opponent's table (the removal loop of `edit_record`). */
  method RemoveCups(m: ActiveMatch, team: Team, cups: seq<string>)
    modifies m
    ensures m.Snap() == Removed(old(m.Snap()), team, cups)
  {
    var opp := team.Other();
    m.SetCups(opp, CupLists.RemoveAll(m.Snap().Of(opp).active, cups));
  }

  /** The redemption correction after a redo. */
  method ReplayHits(m: ActiveMatch, team: Team, n: int)
    modifies m
    ensures m.Snap() == HitsReplayed(old(m.Snap()), team, n)
  {
    if m.status == Redemption(team) {
      m.redemptionHits := m.redemptionHits + n;
      m.redemptionShotsLeft := m.redemptionShotsLeft - 1;
    }
  }

  // ---------------------------------------------------------------------
  // Properties

  /**
   * A submitted format re-racks the opponent exactly when it differs from
   * the opponent's format and the shooter's team has not changed format
   * yet; a refused format leaves the match alone and the record gets the
   * stored format.
   */
  lemma FormatChangeOnce(s: State, team: Team, format: string)
    ensures var opp := team.Other(); var r := FormatChosen(s, team, format);
      && (FormatApplies(s, team, format) ==>
            (r.Of(opp).formatTarget == format && r.Of(opp).active == CupsFor(format)
             && r.Of(opp).pending == s.Of(opp).pending && r.Of(team).formatChanged
             && r.Of(team).active == s.Of(team).active && r.status == s.status
             && RecordedFormat(s, team, format) == format))
      && (!FormatApplies(s, team, format) ==> r == s)
      && (format != "" && format != s.Of(opp).formatTarget && s.Of(team).formatChanged ==>
            RecordedFormat(s, team, format) == s.Of(opp).formatTarget)
  {
  }

  /** After a team changed format, its next different submission is refused: the opponent stays on the first format. */
  lemma FormatSecondIgnored(s: State, team: Team, first: string, second: string)
    requires FormatApplies(s, team, first)
    requires second != first
    ensures var a := FormatChosen(s, team, first);
      && FormatChosen(a, team, second) == a
      && a.Of(team.Other()).formatTarget == first
      && (second != "" ==> RecordedFormat(a, team, second) == first)
  {
  }

  /**
   * Undo then redo of the same hit, on an unfinished match whose opponent
   * no longer holds the hit cups, gives back exactly the match it started
   * from: cups, pending lists and redemption counters.
   */
  lemma UndoRedoRoundTrip(s: State, team: Team, cups: seq<string>)
    requires s.status != Finished
    requires forall c :: c in cups ==> c !in s.Of(team.Other()).active
    ensures Redone(Undone(s, team, cups), team, cups) == s
    ensures Rewound(s, team, true, cups, true, cups) == s
  {
    var opp := team.Other();
    var u := Undone(s, team, cups);
    assert u.status == s.status && u.Of(team) == s.Of(team);
    assert u.Of(opp).active == CupLists.AppendMissing(s.Of(opp).active, cups);
    CupLists.UndoThenRedo(s.Of(opp).active, cups);
    var r := Redone(u, team, cups);
    assert r.Of(opp) == s.Of(opp) && r.Of(team) == s.Of(team);
    assert r.hits == s.hits && r.shotsLeft == s.shotsLeft;
  }

  /** Undo puts every cup of the hit back on the opponent's table and touches nothing of the shooter's team. */
  lemma UndoRestoresCups(s: State, team: Team, cups: seq<string>)
    ensures var opp := team.Other(); var r := Undone(s, team, cups);
      && (forall c :: c in r.Of(opp).active <==> c in s.Of(opp).active || c in cups)
      && r.Of(opp).active[..|s.Of(opp).active|] == s.Of(opp).active
      && r.Of(opp).pending == s.Of(opp).pending
      && r.Of(team) == s.Of(team)
      && r.status == s.status
      && (s.Redeeming(team) ==> r.hits == s.hits - |cups| && r.shotsLeft == s.shotsLeft + 1)
      && (!s.Redeeming(team) ==> r.hits == s.hits && r.shotsLeft == s.shotsLeft)
  {
  }

  /** Redo takes every copy of each new cup off the opponent's table. */
  lemma RedoRemovesCups(s: State, team: Team, cups: seq<string>)
    ensures var opp := team.Other(); var r := Redone(s, team, cups);
      && (forall c :: c in r.Of(opp).active <==> c in s.Of(opp).active && c !in cups)
      && r.Of(opp).pending == s.Of(opp).pending
      && r.Of(team) == s.Of(team)
      && r.status == s.status
      && (s.Redeeming(team) ==> r.hits == s.hits + |cups| && r.shotsLeft == s.shotsLeft - 1)
      && (!s.Redeeming(team) ==> r.hits == s.hits && r.shotsLeft == s.shotsLeft)
  {
  }

  /** Edits of a finished match's shots leave the match alone. */
  lemma RewindIgnoresFinished(s: State, team: Team, oldHit: bool, oldCups: seq<string>, newHit: bool, newCups: seq<string>)
    requires s.status == Finished
    ensures Rewound(s, team, oldHit, oldCups, newHit, newCups) == s
  {
  }
}
