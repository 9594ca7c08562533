/**
 * The counter-based revision of the rules (app.py).
 *
 * Cup targets are plain list lengths, pending hits ignored; a hit in
 * redemption is only counted, never pushed into a list, and redemption is
 * judged on the opponent's count minus the redemption hits once the shots
 * are spent. Pending damage is committed without any guard, and the match
 * row of this revision has no winner column at all, so finishing records no
 * winner and `State.winner` is never written here. `init_cup_state` and
 * `get_match_info` read exactly as in the database module and are taken
 * from there.
 */
module App {
  import opened Wrappers
  import opened MatchState
  import opened Catalog
  import CupLists
  import Databases
  import LegacyRules

  // ---------------------------------------------------------------------
  // Specification functions

  /** `start_overtime`: one central cup each and cleared counters; pending lists, damage counters and format flags stay. */
  function OvertimeStarted(s: State): State
  {
    var a := s.(status := Running, hits := 0, shotsLeft := 0,
                t1 := s.t1.(formatTarget := SingleCentral), t2 := s.t2.(formatTarget := SingleCentral));
    a.InitCups(T1, SingleCentral).InitCups(T2, SingleCentral)
  }

  /**
   * `finish_match(match, winner)`: both teams are re-racked on the pyramid.
   * The `winner` argument is accepted and never stored.
   */
  function Finish(s: State, winner: Team, now: int): State
  {
    var a := s.(status := Finished, endTime := Some(now), hits := 0,
                t1 := s.t1.(formatTarget := Pyramid, formatChanged := false),
                t2 := s.t2.(formatTarget := Pyramid, formatChanged := false));
    a.InitCups(T1, Pyramid).InitCups(T2, Pyramid)
  }

  /** `apply_pending_damage`: with anything pending, every copy of each pending label leaves the target's cups, unconditionally. */
  function DamageApplied(s: State, target: Team): State
  {
    if s.Of(target).pending == [] then s else s.With(target, Commit(s.Of(target)))
  }

  /** Step 1 of `update_game_state`: each cup target becomes the length of the team's list. */
  function Counted(s: State): State
  {
    s.(t1 := s.t1.(cupsTarget := |s.t1.active|), t2 := s.t2.(cupsTarget := |s.t2.active|))
  }

  /** `update_game_state`: at most one step of the match, on the counted state. */
  function Updated(s: State, now: int): State
  {
    if s.status == Finished then s
    else
      var c := Counted(s);
      if s.status == Running then RunningStep(c, |s.t1.active|, |s.t2.active|, now)
      else
        var r := s.status.team;
        RedemptionStep(c, r, |s.Of(r.Other()).active| - s.hits, now)
  }

  /** Normal play, team 1 first: a negative count loses, a count of 0 must redeem. */
  function RunningStep(c: State, count1: int, count2: int, now: int): State
  {
    if count1 <= 0 then
      if count1 < 0 then Finish(c, T2, now)
      else c.(status := Redemption(T1), shotsLeft := RedemptionShots(count2), hits := 0)
    else if count2 <= 0 then
      if count2 < 0 then Finish(c, T1, now)
      else c.(status := Redemption(T2), shotsLeft := RedemptionShots(count1), hits := 0)
    else c
  }

  /** Redemption of team `r`, decided only once its shots are spent, on `virtual` = opponent's count - hits. */
  function RedemptionStep(c: State, r: Team, virtual: int, now: int): State
  {
    if c.shotsLeft <= 0 then
      if virtual == 0 then OvertimeStarted(c)
      else if virtual == -1 then c.(status := Redemption(r.Other()), shotsLeft := 2, hits := 0)
      else if virtual <= -2 then Finish(c, r, now)
      else Finish(c, r.Other(), now)
    else c
  }

  /** The `rematch` route: counters, formats and flags are reset; cup lists are kept and `State.winner`, which no column backs here, is not written. */
  function Rematched(s: State, now: int): State
  {
    s.(status := Running, startTime := now, endTime := None, shotsLeft := 0, hits := 0,
       t1 := RematchSide(s.t1), t2 := RematchSide(s.t2))
  }

  function RematchSide(side: Side): Side
  {
    side.(cupsTarget := 6, formatTarget := Pyramid, pendingDamage := 0, formatChanged := false)
  }

  /** Steps 2 and 3 of `add_record`: the shot on the counters and the opponent's pending list, before the state update. */
  function ShotCounted(a: State, team: Team, result: Shot, hitList: seq<string>): State
  {
    var opp := team.Other();
    if a.Redeeming(team) then
      if result == Centro then a.(hits := a.hits + |hitList|, shotsLeft := a.shotsLeft - 1)
      else a.(shotsLeft := a.shotsLeft - 1)
    else if result == Centro && !a.status.Redemption? then
      var pending := CupLists.AppendMissing(a.Of(opp).pending, hitList);
      a.With(opp, a.Of(opp).(pending := pending, pendingDamage := |pending|))
    else a
  }

  /** `add_record` on the match: format block, own pending damage, the shot, then the state update. */
  function Recorded(s: State, team: Team, format: string, result: Shot, hitList: seq<string>, now: int): State
  {
    var a := DamageApplied(LegacyRules.FormatChosen(s, team, format), team);
    Updated(ShotCounted(a, team, result, hitList), now)
  }

  /** `edit_record`: undo of the old hit, redo of the new one, then the state update. */
  function Edited(s: State, team: Team, oldHit: bool, oldCups: seq<string>, newHit: bool, newCups: seq<string>, now: int): State
  {
    if s.status == Finished then s
    else Updated(LegacyRules.Rewound(s, team, oldHit, oldCups, newHit, newCups), now)
  }

  /** `delete_record`: cups back, state update, then the redemption correction on the updated status. */
  function Deleted(s: State, team: Team, wasHit: bool, cups: seq<string>, now: int): State
  {
    if s.status != Finished && wasHit then
      LegacyRules.HitsWithdrawn(Updated(LegacyRules.Restored(s, team, cups), now), team, |cups|)
    else s
  }

  // ---------------------------------------------------------------------
  // The operations on the match row

  method ApplyPendingDamage(m: ActiveMatch, target: Team)
    modifies m
    ensures m.Snap() == DamageApplied(old(m.Snap()), target)
  {
    var current := m.Snap().Of(target).active;
    var pending := m.Snap().Of(target).pending;
    if pending == [] {
      return;
    }
    m.SetCups(target, CupLists.RemoveAll(current, pending));
    m.SetPending(target, []);
    m.SetPendingDamage(target, 0);
  }

  method StartOvertime(m: ActiveMatch)
    modifies m
    ensures m.Snap() == OvertimeStarted(old(m.Snap()))
  {
    m.status := Running;
    m.SetFormatTarget(T1, SingleCentral);
    m.SetFormatTarget(T2, SingleCentral);
    Databases.InitCupState(m, T1, SingleCentral);
    Databases.InitCupState(m, T2, SingleCentral);
    m.redemptionHits := 0;
    m.redemptionShotsLeft := 0;
  }

  method FinishMatch(m: ActiveMatch, winner: Team, now: int)
    modifies m
    ensures m.Snap() == Finish(old(m.Snap()), winner, now)
  {
    m.status := Finished;
    m.endTime := Some(now);
    m.SetFormatTarget(T1, Pyramid);
    m.SetFormatTarget(T2, Pyramid);
    Databases.InitCupState(m, T1, Pyramid);
    Databases.InitCupState(m, T2, Pyramid);
    m.redemptionHits := 0;
    m.SetFormatChanged(T1, false);
    m.SetFormatChanged(T2, false);
  }

  method UpdateGameState(m: ActiveMatch, now: int)
    modifies m
    ensures m.Snap() == Updated(old(m.Snap()), now)
  {
    if m.status == Finished {
      return;
    }
    m.SetCupsTarget(T1, |m.t1.active|);
    m.SetCupsTarget(T2, |m.t2.active|);
    ghost var c := m.Snap();
    assert c == Counted(old(m.Snap()));
    if m.status == Running {
      if m.t1.cupsTarget <= 0 {
        if m.t1.cupsTarget < 0 {
          // `finish_match(match, winner='t2')`: unreachable, a list length is never negative
          assert false;
        } else {
          m.status := Redemption(T1);
          var remaining := m.t2.cupsTarget;
          m.redemptionShotsLeft := if remaining == 1 then 2 else remaining;
          m.redemptionHits := 0;
        }
      } else if m.t2.cupsTarget <= 0 {
        if m.t2.cupsTarget < 0 {
          // `finish_match(match, winner='t1')`: unreachable, a list length is never negative
          assert false;
        } else {
          m.status := Redemption(T2);
          var remaining := m.t1.cupsTarget;
          m.redemptionShotsLeft := if remaining == 1 then 2 else remaining;
          m.redemptionHits := 0;
        }
      }
    } else {
      var redeeming := m.status.team;
      var opponent := redeeming.Other();
      var opponentCount := if redeeming == T1 then m.t2.cupsTarget else m.t1.cupsTarget;
      var virtual := opponentCount - m.redemptionHits;
      if m.redemptionShotsLeft <= 0 {
        if virtual == 0 {
          StartOvertime(m);
        } else if virtual == -1 {
          m.status := Redemption(opponent);
          m.redemptionShotsLeft := 2;
          m.redemptionHits := 0;
        } else if virtual <= -2 {
          FinishMatch(m, redeeming, now);
        } else {
          FinishMatch(m, opponent, now);
        }
      }
    }
  }

  method Rematch(m: ActiveMatch, now: int)
    modifies m
    ensures m.Snap() == Rematched(old(m.Snap()), now)
  {
    m.status := Running;
    m.startTime := now;
    m.endTime := None;
    m.SetCupsTarget(T1, 6);
    m.SetCupsTarget(T2, 6);
    m.SetFormatTarget(T1, Pyramid);
    m.SetFormatTarget(T2, Pyramid);
    m.SetPendingDamage(T1, 0);
    m.SetPendingDamage(T2, 0);
    m.redemptionShotsLeft := 0;
    m.redemptionHits := 0;
    m.SetFormatChanged(T1, false);
    m.SetFormatChanged(T2, false);
  }

  /** The pending list and redemption counters of `add_record`. */
  method CountShot(m: ActiveMatch, team: Team, result: Shot, hitList: seq<string>)
    modifies m
    ensures m.Snap() == ShotCounted(old(m.Snap()), team, result, hitList)
  {
    if result == Centro {
      if m.status.Redemption? {
        if m.status.team == team {
          m.redemptionHits := m.redemptionHits + |hitList|;
          m.redemptionShotsLeft := m.redemptionShotsLeft - 1;
        }
      } else {
        var opp := team.Other();
        var currentPending := CupLists.AppendEach(m.Snap().Of(opp).pending, hitList);
        m.SetPending(opp, currentPending);
        m.SetPendingDamage(opp, |currentPending|);
      }
    }
    if m.status == Redemption(team) && result != Centro {
      m.redemptionShotsLeft := m.redemptionShotsLeft - 1;
    }
  }

  /** `add_record` on the match row; returns the format the record stores. */
  method AddRecord(m: ActiveMatch, team: Team, format: string, result: Shot, hitList: seq<string>, now: int)
    returns (recordedFormat: string)
    modifies m
    ensures m.Snap() == Recorded(old(m.Snap()), team, format, result, hitList, now)
    ensures recordedFormat == LegacyRules.RecordedFormat(old(m.Snap()), team, format)
  {
    recordedFormat := LegacyRules.ChangeFormat(m, team, format);
    ApplyPendingDamage(m, team);
    CountShot(m, team, result, hitList);
    UpdateGameState(m, now);
  }

  /** `edit_record` on the match row. */
  method EditRecord(m: ActiveMatch, team: Team, oldHit: bool, oldCups: seq<string>, newHit: bool, newCups: seq<string>, now: int)
    modifies m
    ensures m.Snap() == Edited(old(m.Snap()), team, oldHit, oldCups, newHit, newCups, now)
  {
    if m.status == Finished {
      return;
    }
    LegacyRules.RewindShot(m, team, oldHit, oldCups, newHit, newCups);
    UpdateGameState(m, now);
  }

  /** `delete_record` on the match row. */
  method DeleteRecord(m: ActiveMatch, team: Team, wasHit: bool, cups: seq<string>, now: int)
    modifies m
    ensures m.Snap() == Deleted(old(m.Snap()), team, wasHit, cups, now)
  {
    if m.status != Finished && wasHit {
      LegacyRules.RestoreCups(m, team, cups);
      UpdateGameState(m, now);
      LegacyRules.WithdrawHits(m, team, |cups|);
    }
  }

  // ---------------------------------------------------------------------
  // Properties

  /** The counts ignore pending hits, and a finished match is left alone. */
  lemma CountsIgnorePending(s: State, now: int)
    ensures s.status == Finished ==> Updated(s, now) == s
    ensures s.status != Finished ==>
      Updated(s, now).t1.cupsTarget == |s.t1.active| && Updated(s, now).t2.cupsTarget == |s.t2.active|
  {
  }

  /**
   * Normal play, team 1 first: an empty list opens a redemption with two
   * shots against a single cup and one per opposing cup otherwise; with
   * cups on both sides nothing but the counts changes.
   */
  lemma RunningOutcomes(s: State, now: int)
    requires s.status == Running
    ensures var r := Updated(s, now);
      && (|s.t1.active| == 0 ==>
            (r.status == Redemption(T1) && r.hits == 0 && r.shotsLeft == RedemptionShots(|s.t2.active|)))
      && (|s.t1.active| > 0 && |s.t2.active| == 0 ==>
            (r.status == Redemption(T2) && r.hits == 0 && r.shotsLeft == RedemptionShots(|s.t1.active|)))
      && (|s.t1.active| > 0 && |s.t2.active| > 0 ==> r == Counted(s))
      && r.Of(T1).active == s.Of(T1).active && r.Of(T2).active == s.Of(T2).active
  {
  }

  /** The overkill branch of normal play is dead: a list length is never negative, so the match never ends straight from normal play. */
  lemma RunningNeverFinishes(s: State, now: int)
    requires s.status == Running
    ensures Updated(s, now).status != Finished
    ensures Updated(s, now).winner == s.winner
  {
  }

  /**
   * Once the redeeming team's shots are spent, `virtual` decides and every
   * integer falls in exactly one case: 0 starts overtime, -1 flips the
   * redemption with lists untouched, anything else finishes the match.
   */
  lemma RedemptionOutcomes(s: State, now: int)
    requires s.status.Redemption? && s.shotsLeft <= 0
    ensures var red := s.status.team; var opp := red.Other();
      var virtual := |s.Of(opp).active| - s.hits; var r := Updated(s, now);
      && (virtual == 0 ==>
            (r.status == Running && r.t1.active == ["Singolo"] && r.t2.active == ["Singolo"]
             && r.t1.formatTarget == SingleCentral && r.t2.formatTarget == SingleCentral
             && r.hits == 0 && r.shotsLeft == 0
             && r.t1.pending == s.t1.pending && r.t2.pending == s.t2.pending
             && r.t1.formatChanged == s.t1.formatChanged && r.t2.formatChanged == s.t2.formatChanged))
      && (virtual == -1 ==>
            (r.status == Redemption(opp) && r.shotsLeft == 2 && r.hits == 0
             && r.t1.active == s.t1.active && r.t2.active == s.t2.active
             && r.t1.pending == s.t1.pending && r.t2.pending == s.t2.pending))
      && (virtual <= -2 || virtual > 0 ==>
            (r.status == Finished && r.endTime == Some(now)
             && r.t1.active == CupsFor(Pyramid) && r.t2.active == CupsFor(Pyramid)))
  {
    CatalogShape();
  }

  /** With shots left, redemption only records the counts, however far the hits have gone. */
  lemma RedemptionWaits(s: State, now: int)
    requires s.status.Redemption? && s.shotsLeft > 0
    ensures Updated(s, now) == Counted(s)
  {
  }

  /** Finishing never records who won (the row has no winner column): `State.winner` keeps whatever it held, for either argument. */
  lemma FinishForgetsWinner(s: State, now: int)
    ensures Finish(s, T1, now) == Finish(s, T2, now)
    ensures Finish(s, T1, now).winner == s.winner
    ensures Finish(s, T1, now).status == Finished && Finish(s, T1, now).t1.pending == s.t1.pending
    ensures |Finish(s, T1, now).t1.active| == 6 && |Finish(s, T1, now).t2.active| == 6
  {
    CatalogShape();
  }

  /** The commit has no guard: it may leave a team with no cups at all. */
  lemma DamageUnguarded(s: State, target: Team)
    requires s.Of(target).pending != []
    requires forall c :: c in s.Of(target).active ==> c in s.Of(target).pending
    ensures DamageApplied(s, target).Of(target).active == []
    ensures DamageApplied(s, target).Of(target).pending == []
    ensures DamageApplied(s, target).Of(target.Other()) == s.Of(target.Other())
  {
    CupLists.RemoveAllCovered(s.Of(target).active, s.Of(target).pending);
  }

  /** A hit by the redeeming team changes only the two counters: no list moves. */
  lemma RedemptionHitCountsOnly(a: State, team: Team, hitList: seq<string>)
    requires a.Redeeming(team)
    ensures var r := ShotCounted(a, team, Centro, hitList);
      r == a.(hits := a.hits + |hitList|, shotsLeft := a.shotsLeft - 1)
  {
  }

  /** Every shot of the redeeming team spends exactly one shot; shots of the other team touch no counter. */
  lemma RedemptionShotSpent(a: State, team: Team, result: Shot, hitList: seq<string>)
    ensures var r := ShotCounted(a, team, result, hitList);
      && (a.Redeeming(team) ==> r.shotsLeft == a.shotsLeft - 1)
      && (!a.Redeeming(team) ==> r.shotsLeft == a.shotsLeft && r.hits == a.hits)
      && r.status == a.status
  {
  }

  /**
   * A hit in normal play adds to the opponent's pending list each hit cup
   * not already there, and no label twice; the damage counter is the
   * list's length.
   */
  lemma NormalHitPending(a: State, team: Team, hitList: seq<string>)
    requires a.status == Running
    ensures var opp := team.Other(); var p := ShotCounted(a, team, Centro, hitList).Of(opp);
      && p.pending[..|a.Of(opp).pending|] == a.Of(opp).pending
      && (forall c :: c in p.pending <==> c in a.Of(opp).pending || c in hitList)
      && (forall i :: |a.Of(opp).pending| <= i < |p.pending| ==> p.pending[i] !in p.pending[..i])
      && p.pendingDamage == |p.pending|
      && p.active == a.Of(opp).active
  {
    var opp := team.Other();
    forall i | |a.Of(opp).pending| <= i < |CupLists.AppendMissing(a.Of(opp).pending, hitList)|
      ensures CupLists.AppendMissing(a.Of(opp).pending, hitList)[i] !in CupLists.AppendMissing(a.Of(opp).pending, hitList)[..i]
    {
      CupLists.AppendMissingFresh(a.Of(opp).pending, hitList, i);
    }
  }

  /** A rematch keeps both cup lists, leaves `State.winner` unwritten, and restarts the counters. */
  lemma RematchKeepsLists(s: State, now: int)
    ensures var r := Rematched(s, now);
      && r.status == Running && r.startTime == now && r.endTime == None
      && r.winner == s.winner
      && r.t1.active == s.t1.active && r.t2.active == s.t2.active
      && r.t1.pending == s.t1.pending && r.t2.pending == s.t2.pending
      && r.hits == 0 && r.shotsLeft == 0 && r.t1.pendingDamage == 0 && r.t2.pendingDamage == 0
      && r.t1.formatTarget == Pyramid && r.t2.formatTarget == Pyramid
      && !r.t1.formatChanged && !r.t2.formatChanged
  {
  }

  /**
   * `delete_record` updates the match before correcting the counters: when
   * the redeeming team's shots are already spent, deleting one of its hits
   * first lets the update decide the redemption on the restored cups, and
   * a finished match gets no correction.
   */
  lemma DeleteUpdatesFirst(s: State, team: Team, cups: seq<string>, now: int)
    requires s.status == Redemption(team) && s.shotsLeft <= 0
    requires |LegacyRules.Restored(s, team, cups).Of(team.Other()).active| - s.hits > 0
    ensures Deleted(s, team, true, cups, now).status == Finished
    ensures Deleted(s, team, true, cups, now).hits == 0
  {
  }

  /** With shots left, deleting a redeeming hit puts its cups back and returns the shot. */
  lemma DeleteReturnsShot(s: State, team: Team, cups: seq<string>, now: int)
    requires s.status == Redemption(team) && s.shotsLeft > 0
    ensures var r := Deleted(s, team, true, cups, now);
      && r.status == Redemption(team)
      && r.hits == s.hits - |cups| && r.shotsLeft == s.shotsLeft + 1
      && (forall c :: c in r.Of(team.Other()).active <==> c in s.Of(team.Other()).active || c in cups)
  {
  }
}
