/**
 * The shot handlers of the obsolete application (app_OBSOLETE.py), which
 * run on the rules of the database module (databases.py).
 *
 * A hit by the redeeming team pushes every clicked cup, re-hits first and
 * duplicates included, into the opponent's pending list; a hit in normal
 * play pushes the newly clicked cups, unless it would take the opponent
 * below zero, which ends the match for the shooter on the spot.
 */
module Obsolete {
  import opened Wrappers
  import opened MatchState
  import opened Catalog
  import CupLists
  import Databases
  import LegacyRules

  // ---------------------------------------------------------------------
  // Specification functions

  /** The `rematch` route: the same match starts again on the pyramid, with nothing pending and no winner. */
  function Rematched(s: State, now: int): State
  {
    s.(status := Running, startTime := now, endTime := None, winner := None, shotsLeft := 0, hits := 0,
       t1 := RematchSide(s.t1), t2 := RematchSide(s.t2))
  }

  function RematchSide(side: Side): Side
  {
    side.(cupsTarget := 6, formatTarget := Pyramid, pendingDamage := 0, formatChanged := false,
          pending := [], active := CupsFor(Pyramid))
  }

  /** The cups a normal-play hit claims: the new cups, or the re-hits when no new cup was clicked. */
  function Effective(candidates: seq<string>, rehits: seq<string>): nat
  {
    if |candidates| == 0 && |rehits| > 0 then |rehits| else |candidates|
  }

  /** A normal-play hit that would take the opponent's live count below zero. */
  predicate Overkill(a: State, team: Team, candidates: seq<string>, rehits: seq<string>)
  {
    var opp := a.Of(team.Other());
    |opp.active| - |opp.pending| - Effective(candidates, rehits) < 0
  }

  /** Pending list and redemption counters after the shot, before the state update. */
  function ShotCounted(a: State, team: Team, result: Shot, candidates: seq<string>, rehits: seq<string>): State
  {
    var opp := team.Other();
    if a.Redeeming(team) then
      if result == Centro then
        var cups := rehits + candidates;
        a.(hits := a.hits + |cups|, shotsLeft := a.shotsLeft - 1)
          .With(opp, a.Of(opp).(pending := a.Of(opp).pending + cups))
      else a.(shotsLeft := a.shotsLeft - 1)
    else if result == Centro && !a.status.Redemption? then
      var pending := a.Of(opp).pending + candidates;
      a.With(opp, a.Of(opp).(pending := pending, pendingDamage := |pending|))
    else a
  }

  /** The match part of `add_record` after the format block. */
  function ShotTaken(s: State, team: Team, result: Shot, candidates: seq<string>, rehits: seq<string>, now: int): State
  {
    var a := Databases.DamageApplied(s, team);
    if result == Centro && !a.status.Redemption? && Overkill(a, team, candidates, rehits) then
      Databases.Finish(a, team, now)
    else Databases.Updated(ShotCounted(a, team, result, candidates, rehits), now)
  }

  /** `add_record`: the format block, then the shot. */
  function Recorded(s: State, team: Team, format: string, result: Shot, candidates: seq<string>, rehitText: string, now: int): State
  {
    ShotTaken(LegacyRules.FormatChosen(s, team, format), team, result, candidates, CupLists.Rehits(rehitText), now)
  }

  /** `edit_record`: undo of the old hit, redo of the new one, then the state update. */
  function Edited(s: State, team: Team, oldHit: bool, oldCups: seq<string>, newHit: bool, newCups: seq<string>, now: int): State
  {
    Databases.Updated(LegacyRules.Rewound(s, team, oldHit, oldCups, newHit, newCups), now)
  }

  /** `delete_record`: the cups go back, the state is updated, and only then the redemption counters are corrected. */
  function Deleted(s: State, team: Team, wasHit: bool, cups: seq<string>, now: int): State
  {
    if s.status != Finished && wasHit then
      LegacyRules.HitsWithdrawn(Databases.Updated(LegacyRules.Restored(s, team, cups), now), team, |cups|)
    else s
  }

  // ---------------------------------------------------------------------
  // The operations on the match row

  method Rematch(m: ActiveMatch, now: int)
    modifies m
    ensures m.Snap() == Rematched(old(m.Snap()), now)
  {
    m.status := Running;
    m.startTime := now;
    m.endTime := None;
    m.winningTeam := None;
    m.SetCupsTarget(T1, 6);
    m.SetCupsTarget(T2, 6);
    m.SetFormatTarget(T1, Pyramid);
    m.SetFormatTarget(T2, Pyramid);
    m.SetPendingDamage(T1, 0);
    m.SetPendingDamage(T2, 0);
    m.redemptionShotsLeft := 0;
    m.redemptionHits := 0;
    m.SetFormatChanged(T1, false);
    m.SetFormatChanged(T2, false);
    m.SetPending(T1, []);
    m.SetPending(T2, []);
    Databases.InitCupState(m, T1, Pyramid);
    Databases.InitCupState(m, T2, Pyramid);
  }

  /** `for c in cups: current_pending.append(c)`. */
  method AppendAll(pending: seq<string>, cups: seq<string>) returns (r: seq<string>)
    ensures r == pending + cups
  {
    r := pending;
    var i := 0;
    while i < |cups|
      invariant 0 <= i <= |cups|
      invariant r == pending + cups[..i]
    {
      r := r + [cups[i]];
      i := i + 1;
    }
    assert cups[..|cups|] == cups;
  }

  /** The pending list and redemption counters of `add_record`, once an overkill has been ruled out. */
  method CountShot(m: ActiveMatch, team: Team, result: Shot, candidates: seq<string>, rehits: seq<string>)
    modifies m
    requires !(result == Centro && !m.status.Redemption? && Overkill(m.Snap(), team, candidates, rehits))
    ensures m.Snap() == ShotCounted(old(m.Snap()), team, result, candidates, rehits)
  {
    var opp := team.Other();
    if result == Centro {
      var cups := rehits + candidates;
      if m.status.Redemption? {
        if m.status.team == team {
          var pending := AppendAll(m.Snap().Of(opp).pending, cups);
          m.SetPending(opp, pending);
          m.redemptionHits := m.redemptionHits + |cups|;
          m.redemptionShotsLeft := m.redemptionShotsLeft - 1;
        }
      } else {
        var pending := AppendAll(m.Snap().Of(opp).pending, candidates);
        m.SetPending(opp, pending);
        m.SetPendingDamage(opp, |pending|);
      }
    }
    if m.status == Redemption(team) && result != Centro {
      m.redemptionShotsLeft := m.redemptionShotsLeft - 1;
    }
  }

  /** The shot part of `add_record`: pending damage, the overkill check, the counters and the state update. */
  method TakeShot(m: ActiveMatch, team: Team, result: Shot, candidates: seq<string>, rehits: seq<string>, now: int)
    modifies m
    ensures m.Snap() == ShotTaken(old(m.Snap()), team, result, candidates, rehits, now)
  {
    Databases.ApplyPendingDamage(m, team);
    if result == Centro && !m.status.Redemption? {
      var opp := team.Other();
      var effective := |candidates|;
      if effective == 0 && |rehits| > 0 {
        effective := |rehits|;
      }
      var balance := |m.Snap().Of(opp).active| - |m.Snap().Of(opp).pending| - effective;
      if balance < 0 {
        Databases.FinishMatch(m, team, now);
        return;
      }
    }
    CountShot(m, team, result, candidates, rehits);
    Databases.UpdateGameState(m, now);
  }

  /** `add_record` on the match row; returns the format the record stores. */
  method AddRecord(m: ActiveMatch, team: Team, format: string, result: Shot, candidates: seq<string>, rehitText: string, now: int)
    returns (recordedFormat: string)
    modifies m
    ensures m.Snap() == Recorded(old(m.Snap()), team, format, result, candidates, rehitText, now)
    ensures recordedFormat == LegacyRules.RecordedFormat(old(m.Snap()), team, format)
  {
    recordedFormat := LegacyRules.ChangeFormat(m, team, format);
    TakeShot(m, team, result, candidates, CupLists.Rehits(rehitText), now);
  }

  /** `edit_record` on the match row. */
  method EditRecord(m: ActiveMatch, team: Team, oldHit: bool, oldCups: seq<string>, newHit: bool, newCups: seq<string>, now: int)
    modifies m
    ensures m.Snap() == Edited(old(m.Snap()), team, oldHit, oldCups, newHit, newCups, now)
  {
    LegacyRules.RewindShot(m, team, oldHit, oldCups, newHit, newCups);
    Databases.UpdateGameState(m, now);
  }

  /** `delete_record` on the match row. */
  method DeleteRecord(m: ActiveMatch, team: Team, wasHit: bool, cups: seq<string>, now: int)
    modifies m
    ensures m.Snap() == Deleted(old(m.Snap()), team, wasHit, cups, now)
  {
    if m.status != Finished && wasHit {
      LegacyRules.RestoreCups(m, team, cups);
      Databases.UpdateGameState(m, now);
      LegacyRules.WithdrawHits(m, team, |cups|);
    }
  }

  // ---------------------------------------------------------------------
  // Properties

  /**
   * A hit by the redeeming team pushes every clicked cup, re-hits first
   * and duplicates kept, onto the opponent's pending list, scores them all
   * and spends exactly one shot.
   */
  lemma RedeemingHitPushesAll(a: State, team: Team, candidates: seq<string>, rehits: seq<string>)
    requires a.Redeeming(team)
    ensures var opp := team.Other(); var r := ShotCounted(a, team, Centro, candidates, rehits);
      && r.Of(opp).pending == a.Of(opp).pending + rehits + candidates
      && r.Of(opp).active == a.Of(opp).active
      && r.hits == a.hits + |rehits| + |candidates|
      && r.shotsLeft == a.shotsLeft - 1
      && r.Of(team) == a.Of(team) && r.status == a.status
      && r.Live(opp) == a.Live(opp) - |rehits| - |candidates|
  {
  }

  /** Every shot of the redeeming team spends exactly one shot, hit or not; no other shot touches the counters. */
  lemma RedemptionShotSpent(a: State, team: Team, result: Shot, candidates: seq<string>, rehits: seq<string>)
    ensures var r := ShotCounted(a, team, result, candidates, rehits);
      && (a.Redeeming(team) ==> r.shotsLeft == a.shotsLeft - 1)
      && (!a.Redeeming(team) ==> r.shotsLeft == a.shotsLeft && r.hits == a.hits)
      && r.status == a.status
  {
  }

  /** During the opponent's redemption a hit by the other team changes nothing. */
  lemma NonRedeemingHitIgnored(a: State, team: Team, result: Shot, candidates: seq<string>, rehits: seq<string>)
    requires a.status == Redemption(team.Other())
    ensures ShotCounted(a, team, result, candidates, rehits) == a
  {
  }

  /**
   * In normal play a hit that would take the opponent below zero ends the
   * match for the shooter; any other hit appends every new cup, even one
   * already pending, and the damage counter follows the list.
   */
  lemma NormalHit(s: State, team: Team, candidates: seq<string>, rehits: seq<string>, now: int)
    requires !Databases.DamageApplied(s, team).status.Redemption?
    ensures var a := Databases.DamageApplied(s, team); var opp := team.Other();
      && (Overkill(a, team, candidates, rehits) ==>
            (ShotTaken(s, team, Centro, candidates, rehits, now).status == Finished
             && ShotTaken(s, team, Centro, candidates, rehits, now).winner == Some(team)))
      && (var c := ShotCounted(a, team, Centro, candidates, rehits);
            c.Of(opp).pending == a.Of(opp).pending + candidates
            && c.Of(opp).pendingDamage == |a.Of(opp).pending| + |candidates|
            && c.Live(opp) == a.Live(opp) - |candidates|)
  {
  }

  /**
   * The overkill test guards the opponent's live count: a normal-play hit
   * that passes it is counted and updated, and never takes that count below
   * zero, because the cups it claims are at least the new cups it pends.
   */
  lemma NoOverkillKeepsCups(s: State, team: Team, candidates: seq<string>, rehits: seq<string>, now: int)
    requires !Databases.DamageApplied(s, team).status.Redemption?
    requires !Overkill(Databases.DamageApplied(s, team), team, candidates, rehits)
    ensures var a := Databases.DamageApplied(s, team); var c := ShotCounted(a, team, Centro, candidates, rehits);
      && ShotTaken(s, team, Centro, candidates, rehits, now) == Databases.Updated(c, now)
      && c.Live(team.Other()) >= 0
  {
    assert Effective(candidates, rehits) >= |candidates|;
  }

  /** A rematch restarts on the pyramid with nothing pending, no winner and all counters cleared. */
  lemma RematchRestarts(s: State, now: int)
    ensures var r := Rematched(s, now);
      && r.status == Running && r.winner == None && r.endTime == None && r.startTime == now
      && r.shotsLeft == 0 && r.hits == 0
      && r.t1.active == CupsFor(Pyramid) && r.t2.active == CupsFor(Pyramid)
      && r.t1.pending == [] && r.t2.pending == [] && r.t1.pendingDamage == 0 && r.t2.pendingDamage == 0
      && r.t1.cupsTarget == 6 && r.t2.cupsTarget == 6
      && r.t1.formatTarget == Pyramid && r.t2.formatTarget == Pyramid
      && !r.t1.formatChanged && !r.t2.formatChanged
      && r.Live(T1) == 6 && r.Live(T2) == 6
  {
    CatalogShape();
  }

  /**
   * Deleting a hit of the redeeming team while shots remain puts the cups
   * back and returns the shot: the redemption continues with the hits taken
   * away and one more shot.
   */
  lemma DeleteReturnsShot(s: State, team: Team, cups: seq<string>, now: int)
    requires s.status == Redemption(team) && s.shotsLeft > 0
    requires s.Live(team.Other()) >= -1
    ensures var r := Deleted(s, team, true, cups, now);
      && r.status == Redemption(team)
      && r.hits == s.hits - |cups| && r.shotsLeft == s.shotsLeft + 1
      && (forall c :: c in r.Of(team.Other()).active <==> c in s.Of(team.Other()).active || c in cups)
  {
    var a := LegacyRules.Restored(s, team, cups);
    assert a.Live(team.Other()) >= s.Live(team.Other());
  }

  /** Editing a finished match's shot changes nothing. */
  lemma EditIgnoresFinished(s: State, team: Team, oldHit: bool, oldCups: seq<string>, newHit: bool, newCups: seq<string>, now: int)
    requires s.status == Finished
    ensures Edited(s, team, oldHit, oldCups, newHit, newCups, now) == s
    ensures Deleted(s, team, oldHit, oldCups, now) == s
  {
  }
}
