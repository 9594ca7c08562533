/**
 * The match rules of the database module (databases.py), which the
 * obsolete application (app_OBSOLETE.py) drives.
 *
 * Differences from the current rules: a commit of pending hits is refused
 * (only the damage counter is cleared) when it would leave no distinct
 * cup standing; an overkill in normal play (live count -1 or less) ends
 * the match at once; redemption has no check on the redeeming team's own
 * count; and finishing a match already re-racks both teams on the pyramid.
 * This revision has no overtime mode column, so `mode` is never touched.
 */
module Databases {
  import opened Wrappers
  import opened MatchState
  import opened Catalog
  import CupLists

  // ---------------------------------------------------------------------
  // Specification functions

  /** `start_overtime`: one central cup each, nothing pending, counters cleared, formats locked. */
  function OvertimeStarted(s: State): State
  {
    s.(status := Running, hits := 0, shotsLeft := 0, t1 := OvertimeSide(s.t1), t2 := OvertimeSide(s.t2))
  }

  function OvertimeSide(side: Side): Side
  {
    side.(formatTarget := SingleCentral, active := ["Singolo"], pending := [], pendingDamage := 0, formatChanged := true)
  }

  /** `finish_match`: the winner is recorded, then both teams are re-racked on the pyramid for the next match. */
  function Finish(s: State, winner: Team, now: int): State
  {
    s.(status := Finished, endTime := Some(now), winner := Some(winner), hits := 0,
       t1 := ResetSide(s.t1), t2 := ResetSide(s.t2))
  }

  function ResetSide(side: Side): Side
  {
    side.(formatTarget := Pyramid, active := CupsFor(Pyramid), formatChanged := false)
  }

  /**
   * `apply_pending_damage`: the target's pending hits are taken off its
   * cups, unless the pending list has at least as many distinct labels as
   * the cups, in which case only the damage counter is cleared.
   */
  function DamageApplied(s: State, target: Team): State
  {
    var side := s.Of(target);
    if side.pending == [] then s
    else if |CupLists.Distinct(side.active)| - |CupLists.Distinct(side.pending)| <= 0 then
      s.With(target, side.(pendingDamage := 0))
    else s.With(target, Commit(side))
  }

  /** The ribaltone: the other team must now redeem, from an empty table. */
  function Reversal(s: State, redeeming: Team): State
  {
    var opp := redeeming.Other();
    s.(status := Redemption(opp), shotsLeft := 2, hits := 0)
      .With(opp, s.Of(opp).(active := [], pending := []))
  }

  /** `update_game_state`: records both live counts and takes at most one step of the match. */
  function Updated(s: State, now: int): State
  {
    if s.status == Finished then s
    else if s.status == Running then RunningStep(s.Targeted(), s.Live(T1), s.Live(T2), now)
    else
      var r := s.status.team;
      RedemptionStep(s.Targeted(), r, s.Live(r.Other()), now)
  }

  /** Normal play, team 1 checked first: a live count of -1 or less loses at once, exactly 0 must redeem. */
  function RunningStep(c: State, live1: int, live2: int, now: int): State
  {
    if live1 <= 0 then
      if live1 <= -1 then Finish(c, T2, now)
      else c.(status := Redemption(T1), shotsLeft := RedemptionShots(live2), hits := 0)
    else if live2 <= 0 then
      if live2 <= -1 then Finish(c, T1, now)
      else c.(status := Redemption(T2), shotsLeft := RedemptionShots(live1), hits := 0)
    else c
  }

  /** Redemption of team `r` against the opponent's live count `target`. */
  function RedemptionStep(c: State, r: Team, target: int, now: int): State
  {
    if target < -1 then Finish(c, r, now)
    else if c.shotsLeft <= 0 then
      if target == 0 then OvertimeStarted(c)
      else if target == -1 then Reversal(c, r)
      else Finish(c, r.Other(), now)
    else c
  }

  // ---------------------------------------------------------------------
  // The operations on the match row

  method InitCupState(m: ActiveMatch, team: Team, format: string)
    modifies m
    ensures m.Snap() == old(m.Snap()).InitCups(team, format)
  {
    m.SetCups(team, CupsFor(format));
  }

  method ApplyPendingDamage(m: ActiveMatch, target: Team)
    modifies m
    ensures m.Snap() == DamageApplied(old(m.Snap()), target)
  {
    var current := m.Snap().Of(target).active;
    var pending := m.Snap().Of(target).pending;
    if pending == [] {
      return;
    }
    var remaining := |CupLists.Distinct(current)| - |CupLists.Distinct(pending)|;
    if remaining <= 0 {
      m.SetPendingDamage(target, 0);
      return;
    }
    m.SetCups(target, CupLists.RemoveAll(current, pending));
    m.SetPending(target, []);
    m.SetPendingDamage(target, 0);
  }

  method StartOvertime(m: ActiveMatch)
    modifies m
    ensures m.Snap() == OvertimeStarted(old(m.Snap()))
  {
    m.status := Running;
    m.SetFormatTarget(T1, SingleCentral);
    m.SetFormatTarget(T2, SingleCentral);
    m.SetCups(T1, ["Singolo"]);
    m.SetCups(T2, ["Singolo"]);
    m.SetPending(T1, []);
    m.SetPending(T2, []);
    m.SetPendingDamage(T1, 0);
    m.SetPendingDamage(T2, 0);
    m.redemptionHits := 0;
    m.redemptionShotsLeft := 0;
    m.SetFormatChanged(T1, true);
    m.SetFormatChanged(T2, true);
  }

  method FinishMatch(m: ActiveMatch, winner: Team, now: int)
    modifies m
    ensures m.Snap() == Finish(old(m.Snap()), winner, now)
  {
    m.status := Finished;
    m.endTime := Some(now);
    m.winningTeam := Some(winner);
    m.SetFormatTarget(T1, Pyramid);
    m.SetFormatTarget(T2, Pyramid);
    InitCupState(m, T1, Pyramid);
    InitCupState(m, T2, Pyramid);
    m.redemptionHits := 0;
    m.SetFormatChanged(T1, false);
    m.SetFormatChanged(T2, false);
  }

  method UpdateGameState(m: ActiveMatch, now: int)
    modifies m
    ensures m.Snap() == Updated(old(m.Snap()), now)
  {
    if m.status == Finished {
      return;
    }
    var live1 := |m.t1.active| - |m.t1.pending|;
    var live2 := |m.t2.active| - |m.t2.pending|;
    m.SetCupsTarget(T1, live1);
    m.SetCupsTarget(T2, live2);
    ghost var c := m.Snap();
    assert c == old(m.Snap()).Targeted();
    if m.status == Running {
      if live1 <= 0 {
        if live1 <= -1 {
          FinishMatch(m, T2, now);
        } else {
          m.status := Redemption(T1);
          m.redemptionShotsLeft := if live2 == 1 then 2 else live2;
          m.redemptionHits := 0;
        }
      } else if live2 <= 0 {
        if live2 <= -1 {
          FinishMatch(m, T1, now);
        } else {
          m.status := Redemption(T2);
          m.redemptionShotsLeft := if live1 == 1 then 2 else live1;
          m.redemptionHits := 0;
        }
      }
    } else {
      var redeeming := m.status.team;
      var opponent := redeeming.Other();
      var target := if redeeming == T1 then live2 else live1;
      if target < -1 {
        FinishMatch(m, redeeming, now);
        return;
      }
      if m.redemptionShotsLeft <= 0 {
        if target == 0 {
          StartOvertime(m);
        } else if target == -1 {
          m.status := Redemption(opponent);
          m.redemptionShotsLeft := 2;
          m.redemptionHits := 0;
          m.SetCups(opponent, []);
          m.SetPending(opponent, []);
          assert m.Snap() == Reversal(c, redeeming);
        } else {
          FinishMatch(m, opponent, now);
        }
      }
    }
  }

  /**
   * `get_match_info`: the first match (finished or not) with the player in
   * a team-1 seat; failing that, the first with the player in a team-2 seat.
   */
  method GetMatchInfo(matches: seq<ActiveMatch>, player: string) returns (r: Option<(nat, Team)>)
    ensures r.Some? ==> r.value.0 < |matches| && matches[r.value.0].Plays(player, r.value.1)
    ensures r.Some? ==> forall j :: 0 <= j < r.value.0 ==> !matches[j].Plays(player, r.value.1)
    ensures r.Some? && r.value.1 == T2 ==> forall j :: 0 <= j < |matches| ==> !matches[j].Plays(player, T1)
    ensures r.None? ==> forall j :: 0 <= j < |matches| ==> !matches[j].Plays(player, T1) && !matches[j].Plays(player, T2)
  {
    var i := 0;
    while i < |matches|
      invariant 0 <= i <= |matches|
      invariant forall j :: 0 <= j < i ==> !matches[j].Plays(player, T1)
    {
      if matches[i].Plays(player, T1) {
        return Some((i, T1));
      }
      i := i + 1;
    }
    i := 0;
    while i < |matches|
      invariant 0 <= i <= |matches|
      invariant forall j :: 0 <= j < i ==> !matches[j].Plays(player, T2)
    {
      if matches[i].Plays(player, T2) {
        return Some((i, T2));
      }
      i := i + 1;
    }
    return None;
  }

  // ---------------------------------------------------------------------
  // Properties of the rules

  /** With nothing pending the commit does nothing. */
  lemma DamageNothingPending(s: State, target: Team)
    requires s.Of(target).pending == []
    ensures DamageApplied(s, target) == s
  {
  }

  /**
   * With as many distinct pending labels as distinct cups, only the damage
   * counter is cleared; otherwise every copy of every pending label leaves
   * the cups, at least one cup stays, and the pending list empties.
   */
  lemma DamageCommitGuarded(s: State, target: Team)
    requires s.Of(target).pending != []
    ensures var side := s.Of(target); var r := DamageApplied(s, target);
      && r.Of(target.Other()) == s.Of(target.Other())
      && r.status == s.status && r.shotsLeft == s.shotsLeft && r.hits == s.hits
      && r.Of(target).pendingDamage == 0
      && (|CupLists.Distinct(side.active)| <= |CupLists.Distinct(side.pending)| ==>
            r.Of(target).active == side.active && r.Of(target).pending == side.pending)
      && (|CupLists.Distinct(side.active)| > |CupLists.Distinct(side.pending)| ==>
            (r.Of(target).pending == []
             && (forall c :: c in r.Of(target).active <==> c in side.active && c !in side.pending)
             && r.Of(target).active != []))
  {
    var side := s.Of(target);
    if |CupLists.Distinct(side.active)| > |CupLists.Distinct(side.pending)| {
      CupLists.RemoveAllLeavesSome(side.active, side.pending);
    }
  }

  /** A finished match is never touched by the state update. */
  lemma UpdateIgnoresFinished(s: State, now: int)
    requires s.status == Finished
    ensures Updated(s, now) == s
  {
  }

  /** On an unfinished match both cup targets become the live counts, pending hits subtracted. */
  lemma UpdateRecordsLiveCounts(s: State, now: int)
    requires s.status != Finished
    ensures Updated(s, now).t1.cupsTarget == |s.t1.active| - |s.t1.pending|
    ensures Updated(s, now).t2.cupsTarget == |s.t2.active| - |s.t2.pending|
  {
  }

  /**
   * Normal play, team 1 first: a live count of -1 or less hands the match
   * to the opponent, exactly 0 opens a redemption with two shots against a
   * single cup and one shot per opposing cup otherwise.
   */
  lemma RunningOutcomes(s: State, now: int)
    requires s.status == Running
    ensures var r := Updated(s, now);
      && (s.Live(T1) <= -1 ==> r.status == Finished && r.winner == Some(T2) && r.endTime == Some(now))
      && (s.Live(T1) == 0 ==>
            (r.status == Redemption(T1) && r.hits == 0 && r.shotsLeft == (if s.Live(T2) == 1 then 2 else s.Live(T2))))
      && (s.Live(T1) > 0 && s.Live(T2) <= -1 ==> r.status == Finished && r.winner == Some(T1))
      && (s.Live(T1) > 0 && s.Live(T2) == 0 ==>
            (r.status == Redemption(T2) && r.hits == 0 && r.shotsLeft == (if s.Live(T1) == 1 then 2 else s.Live(T1))))
      && (s.Live(T1) > 0 && s.Live(T2) > 0 ==> r == s.Targeted())
  {
  }

  /** In redemption a target below -1 ends the match for the redeeming team, however many shots remain. */
  lemma RedemptionOverkill(s: State, now: int)
    requires s.status.Redemption?
    requires s.Live(s.status.team.Other()) < -1
    ensures var r := Updated(s, now);
      r.status == Finished && r.winner == Some(s.status.team) && r.endTime == Some(now)
  {
  }

  /**
   * Once the shots are spent the target decides: 0 starts overtime, -1
   * flips the redemption onto the opponent with an emptied table, more than
   * 0 hands the win to the opponent.
   */
  lemma RedemptionLastShot(s: State, now: int)
    requires s.status.Redemption? && s.shotsLeft <= 0
    requires s.Live(s.status.team.Other()) >= -1
    ensures var red := s.status.team; var opp := red.Other(); var r := Updated(s, now);
      && (s.Live(opp) == 0 ==>
            (r.status == Running && r.t1.active == CupsFor(SingleCentral) && r.t2.active == CupsFor(SingleCentral)
             && r.t1.pending == [] && r.t2.pending == [] && r.t1.formatChanged && r.t2.formatChanged
             && r.hits == 0 && r.shotsLeft == 0))
      && (s.Live(opp) == -1 ==>
            (r.status == Redemption(opp) && r.shotsLeft == 2 && r.hits == 0
             && r.Of(opp).active == [] && r.Of(opp).pending == [] && r.Of(red) == s.Targeted().Of(red)))
      && (s.Live(opp) > 0 ==> r.status == Finished && r.winner == Some(opp))
  {
    CatalogShape();
  }

  /** While shots remain and the target is not below -1, redemption only records the live counts. */
  lemma RedemptionWaits(s: State, now: int)
    requires s.status.Redemption? && s.shotsLeft > 0
    requires s.Live(s.status.team.Other()) >= -1
    ensures Updated(s, now) == s.Targeted()
  {
  }

  /** Finishing records the winner and re-racks both teams on the pyramid; pending lists stay as they were. */
  lemma FinishResets(s: State, winner: Team, now: int)
    ensures var r := Finish(s, winner, now);
      && r.status == Finished && r.winner == Some(winner) && r.endTime == Some(now) && r.hits == 0
      && r.t1.formatTarget == Pyramid && r.t2.formatTarget == Pyramid
      && r.t1.active == CupsFor(Pyramid) && r.t2.active == CupsFor(Pyramid)
      && !r.t1.formatChanged && !r.t2.formatChanged
      && r.t1.pending == s.t1.pending && r.t2.pending == s.t2.pending
      && |r.t1.active| == 6 && |r.t2.active| == 6
  {
    CatalogShape();
  }
}
