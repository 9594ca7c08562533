/**
 * The match rules of the current web application (app/main/routes.py).
 *
 * Each rule is a function on the value `State` and a method that performs
 * it column by column on an `ActiveMatch`, proved to leave the match in
 * the state the function describes.
 *
 * In this revision a hit is pushed to the opponent's pending list with the
 * shot's full potency (overkill placeholders fill any shortfall), damage
 * against the team that is winning a redemption is held back, and a
 * format change is never locked.
 */
module Routes {
  import opened Wrappers
  import opened MatchState
  import opened Catalog
  import CupLists
  import Strings

  // ---------------------------------------------------------------------
  // Specification functions

  /** `start_overtime`: one central cup each, nothing pending, counters cleared. */
  function OvertimeStarted(s: State): State
  {
    s.(status := Running, mode := Overtime, hits := 0, shotsLeft := 0, t1 := OvertimeSide(s.t1), t2 := OvertimeSide(s.t2))
  }

  function OvertimeSide(side: Side): Side
  {
    side.(formatTarget := SingleCentral, active := ["Singolo"], pending := [], pendingDamage := 0, formatChanged := true)
  }

  /** `finish_match`: the match ends with a winner; the cups are kept as they are. */
  function Finish(s: State, winner: Team, now: int): State
  {
    s.(status := Finished, endTime := Some(now), winner := Some(winner))
  }

  /** The `rematch` route: the same match starts again on the pyramid. */
  function Rematched(s: State, now: int): State
  {
    s.(status := Running, mode := Teams, startTime := now, endTime := None, winner := None,
       shotsLeft := 0, hits := 0, t1 := RematchSide(s.t1), t2 := RematchSide(s.t2))
  }

  function RematchSide(side: Side): Side
  {
    side.(formatTarget := Pyramid, formatChanged := false, pending := [], pendingDamage := 0, active := CupsFor(Pyramid))
  }

  /** `apply_pending_damage`: the target's pending hits are taken off its cups, unless it is winning a redemption. */
  function DamageApplied(s: State, target: Team): State
  {
    if s.status.Redemption? && target != s.status.team then s
    else if s.Of(target).pending == [] then s
    else s.With(target, Commit(s.Of(target)))
  }

  /** The ribaltone: the redeeming team overtook by exactly one cup, so the other team must now redeem, from an empty table. */
  function Reversal(s: State, redeeming: Team): State
  {
    var opp := redeeming.Other();
    s.(status := Redemption(opp), shotsLeft := 2, hits := 0)
      .With(opp, s.Of(opp).(active := [], pending := []))
  }

  /** `update_game_state`: records both live counts and takes at most one step of the match. */
  function Updated(s: State, now: int): State
  {
    if s.status == Finished then s
    else if s.status == Running then RunningStep(s.Targeted(), s.Live(T1), s.Live(T2))
    else
      var r := s.status.team;
      RedemptionStep(s.Targeted(), r, s.Live(r), s.Live(r.Other()), now)
  }

  /** Normal play: a team with no live cups left must redeem, team 1 checked first. */
  function RunningStep(c: State, live1: int, live2: int): State
  {
    if live1 <= 0 then c.(status := Redemption(T1), shotsLeft := RedemptionShots(live2), hits := 0)
    else if live2 <= 0 then c.(status := Redemption(T2), shotsLeft := RedemptionShots(live1), hits := 0)
    else c
  }

  /**
   * Redemption of team `r`: an overkill on either side ends the match at
   * once; otherwise, once the shots are spent, the opponent's live count
   * decides between overtime, defeat and the ribaltone.
   */
  function RedemptionStep(c: State, r: Team, own: int, target: int, now: int): State
  {
    if own <= -1 then Finish(c, r.Other(), now)
    else if target < -1 then Finish(c, r, now)
    else if c.shotsLeft <= 0 then
      if target == 0 then OvertimeStarted(c)
      else if target > 0 then Finish(c, r.Other(), now)
      else Reversal(c, r)
    else c
  }

  /** The format part of `add_record`: a submitted format differing from the opponent's replaces it and re-racks the opponent. */
  function FormatChosen(s: State, team: Team, format: string): State
  {
    var opp := team.Other();
    if format != "" && format != s.Of(opp).formatTarget then
      var a := s.With(opp, s.Of(opp).(formatTarget := format)).InitCups(opp, format);
      a.With(team, a.Of(team).(formatChanged := true))
    else s
  }

  /** The multiplier named on the form: `Doppio` to `Sestuplo` count 2 to 6, anything else 1. */
  function Potency(multiplier: string): (n: int)
    ensures 1 <= n <= 6
    ensures multiplier == "" ==> n == 1
  {
    if multiplier == "Doppio" then 2
    else if multiplier == "Triplo" then 3
    else if multiplier == "Quadruplo" then 4
    else if multiplier == "Quintuplo" then 5
    else if multiplier == "Sestuplo" then 6
    else 1
  }

  /** The label of the `i`-th overkill placeholder of a shot taken at time `stamp`. */
  function Placeholder(stamp: string, i: nat): string
  {
    "Overkill_" + stamp + "_" + Strings.NatToString(i)
  }

  /** Placeholders never collide with a real cup. */
  lemma PlaceholderIsNoCup(stamp: string, i: nat)
    ensures !IsCatalogLabel(Placeholder(stamp, i))
  {
    if IsCatalogLabel(Placeholder(stamp, i)) {
      CatalogLabelsAvoidO(Placeholder(stamp, i));
      assert false;
    }
  }

  /**
   * The red-cup loop of `add_record`: each red cup not yet pending is
   * appended while fewer than `room` cups have been added.
   */
  function AddRed(cur: seq<string>, reds: seq<string>, room: int): (r: seq<string>)
    ensures |cur| <= |r| <= |cur| + (if room > 0 then room else 0)
    ensures r[..|cur|] == cur
    decreases |reds|
  {
    if reds == [] then cur
    else if room > 0 && reds[0] !in cur then
      var r := AddRed(cur + [reds[0]], reds[1..], room - 1);
      assert r[..|cur|] == r[..|cur| + 1][..|cur|];
      r
    else AddRed(cur, reds[1..], room)
  }

  /** Every cup the red-cup loop appends is one of the red cups and new to the list. */
  lemma {:induction false} AddRedFresh(cur: seq<string>, reds: seq<string>, room: int, i: int)
    requires |cur| <= i < |AddRed(cur, reds, room)|
    ensures AddRed(cur, reds, room)[i] in reds
    ensures AddRed(cur, reds, room)[i] !in AddRed(cur, reds, room)[..i]
    decreases |reds|
  {
    var r := AddRed(cur, reds, room);
    assert reds == [reds[0]] + reds[1..];
    if room > 0 && reds[0] !in cur {
      var next := cur + [reds[0]];
      assert r == AddRed(next, reds[1..], room - 1);
      assert r[..|next|] == next;
      if i == |cur| {
        assert r[i] == reds[0];
        assert r[..i] == cur;
      } else {
        AddRedFresh(next, reds[1..], room - 1, i);
      }
    } else {
      assert r == AddRed(cur, reds[1..], room);
      AddRedFresh(cur, reds[1..], room, i);
    }
  }

  /** `n` overkill placeholders, numbered from 0. */
  function Placeholders(stamp: string, n: int): (r: seq<string>)
    ensures |r| == (if n > 0 then n else 0)
    ensures forall i :: 0 <= i < |r| ==> r[i] == Placeholder(stamp, i)
  {
    if n <= 0 then [] else Placeholders(stamp, n - 1) + [Placeholder(stamp, n - 1)]
  }

  /**
   * `r` is `pending` followed first by `k - |pending|` fresh red cups
   * (candidates that were not re-hits, each new to the list), then by
   * placeholders numbered from 0.
   */
  predicate PushedShape(pending: seq<string>, r: seq<string>, k: int, candidates: seq<string>, rehits: seq<string>, stamp: string)
  {
    && |pending| <= k <= |r|
    && r[..|pending|] == pending
    && (forall i :: |pending| <= i < k ==> r[i] in candidates && r[i] !in rehits && r[i] !in r[..i])
    && (forall i :: k <= i < |r| ==> r[i] == Placeholder(stamp, i - k))
  }

  /** The opponent's pending list after a hit of potency `potency`. */
  function DamageList(pending: seq<string>, candidates: seq<string>, rehits: seq<string>, potency: int, stamp: string): seq<string>
  {
    var red := AddRed(pending, CupLists.RemoveAll(candidates, rehits), potency);
    red + Placeholders(stamp, potency - (|red| - |pending|))
  }

  /**
   * A hit grows the pending list by exactly its potency: red cups first,
   * placeholders for the shortfall, and the old entries untouched.
   */
  lemma DamageListShape(pending: seq<string>, candidates: seq<string>, rehits: seq<string>, potency: int, stamp: string)
    ensures var r := DamageList(pending, candidates, rehits, potency, stamp);
      && (potency >= 0 ==> |r| == |pending| + potency)
      && (potency < 0 ==> r == pending)
      && exists k :: PushedShape(pending, r, k, candidates, rehits, stamp)
  {
    var reds := CupLists.RemoveAll(candidates, rehits);
    var red := AddRed(pending, reds, potency);
    var r := DamageList(pending, candidates, rehits, potency, stamp);
    assert r[..|red|] == red;
    assert r[..|pending|] == red[..|pending|];
    forall i | |pending| <= i < |red|
      ensures r[i] in candidates && r[i] !in rehits && r[i] !in r[..i]
    {
      AddRedFresh(pending, reds, potency, i);
      assert r[i] == red[i];
      assert r[..i] == red[..i];
    }
    assert PushedShape(pending, r, |red|, candidates, rehits, stamp);
  }

  /** `all_clicked[:shots_potency]`: the cups recorded as aimed at, re-hit pending cups first. */
  function AimedCups(candidates: seq<string>, rehits: seq<string>, potency: nat): (r: seq<string>)
    ensures |r| <= potency
    ensures forall c :: c in r ==> c in rehits || c in candidates
  {
    var all := rehits + CupLists.RemoveAll(candidates, rehits);
    if |all| <= potency then all else all[..potency]
  }

  /** The shot part of `add_record`, before the game state is updated. */
  function ShotTaken(s: State, team: Team, hit: bool, candidates: seq<string>, rehits: seq<string>, multiplier: string, stamp: string): State
  {
    var a := DamageApplied(s, team);
    var b := if hit then HitPushed(a, team, candidates, rehits, multiplier, stamp) else a;
    if b.Redeeming(team) then b.(shotsLeft := b.shotsLeft - 1) else b
  }

  /** A hit adds its potency to the opponent's pending list, and to the redemption hits of a redeeming shooter. */
  function HitPushed(a: State, team: Team, candidates: seq<string>, rehits: seq<string>, multiplier: string, stamp: string): State
  {
    var opp := team.Other();
    var p := Potency(multiplier);
    var pending := DamageList(a.Of(opp).pending, candidates, rehits, p, stamp);
    var a1 := if a.Redeeming(team) then a.(hits := a.hits + p) else a;
    a1.With(opp, a1.Of(opp).(pending := pending, pendingDamage := |pending|))
  }

  /** `add_record`: format change, then (when a result was sent) the shot and the state update. */
  function Recorded(s: State, team: Team, format: string, result: Option<Shot>, candidates: seq<string>,
                    rehitText: string, multiplier: string, stamp: string, now: int): State
  {
    var f := FormatChosen(s, team, format);
    if result.None? then f
    else Updated(ShotTaken(f, team, result.value == Centro, candidates, CupLists.Rehits(rehitText), multiplier, stamp), now)
  }

  /** `force_update`: while running, the opponent's pending hits are committed and the state updated. */
  function Forced(s: State, team: Team, now: int): State
  {
    if s.status == Running then Updated(DamageApplied(s, team.Other()), now) else s
  }

  // ---------------------------------------------------------------------
  // The operations on the match row

  method InitCupState(m: ActiveMatch, team: Team, format: string)
    modifies m
    ensures m.Snap() == old(m.Snap()).InitCups(team, format)
  {
    m.SetCups(team, CupsFor(format));
  }

  method StartOvertime(m: ActiveMatch)
    modifies m
    ensures m.Snap() == OvertimeStarted(old(m.Snap()))
  {
    m.status := Running;
    m.mode := Overtime;
    m.t1 := m.t1.(formatTarget := SingleCentral, active := ["Singolo"], pending := [], pendingDamage := 0);
    m.t2 := m.t2.(formatTarget := SingleCentral, active := ["Singolo"], pending := [], pendingDamage := 0);
    m.redemptionHits := 0;
    m.redemptionShotsLeft := 0;
    m.t1 := m.t1.(formatChanged := true);
    m.t2 := m.t2.(formatChanged := true);
  }

  method FinishMatch(m: ActiveMatch, winner: Team, now: int)
    modifies m
    ensures m.Snap() == Finish(old(m.Snap()), winner, now)
  {
    m.status := Finished;
    m.endTime := Some(now);
    m.winningTeam := Some(winner);
  }

  method Rematch(m: ActiveMatch, now: int)
    modifies m
    ensures m.Snap() == Rematched(old(m.Snap()), now)
  {
    m.status := Running;
    m.mode := Teams;
    m.startTime := now;
    m.endTime := None;
    m.winningTeam := None;
    m.redemptionShotsLeft := 0;
    m.redemptionHits := 0;
    m.t1 := m.t1.(formatTarget := Pyramid, formatChanged := false, pending := [], pendingDamage := 0);
    m.t2 := m.t2.(formatTarget := Pyramid, formatChanged := false, pending := [], pendingDamage := 0);
    InitCupState(m, T1, Pyramid);
    InitCupState(m, T2, Pyramid);
  }

  method ApplyPendingDamage(m: ActiveMatch, target: Team)
    modifies m
    ensures m.Snap() == DamageApplied(old(m.Snap()), target)
  {
    if m.status.Redemption? && target != m.status.team {
      return;
    }
    var current := m.Snap().Of(target).active;
    var pending := m.Snap().Of(target).pending;
    if pending == [] {
      return;
    }
    m.SetCups(target, CupLists.RemoveAll(current, pending));
    m.SetPending(target, []);
    m.SetPendingDamage(target, 0);
  }

  method UpdateGameState(m: ActiveMatch, now: int)
    modifies m
    ensures m.Snap() == Updated(old(m.Snap()), now)
  {
    if m.status == Finished {
      return;
    }
    var live1 := |m.t1.active| - |m.t1.pending|;
    var live2 := |m.t2.active| - |m.t2.pending|;
    m.t1 := m.t1.(cupsTarget := live1);
    m.t2 := m.t2.(cupsTarget := live2);
    ghost var c := m.Snap();
    assert c == old(m.Snap()).Targeted();
    if m.status == Running {
      if live1 <= 0 {
        m.status := Redemption(T1);
        m.redemptionShotsLeft := if live2 == 1 then 2 else live2;
        m.redemptionHits := 0;
      } else if live2 <= 0 {
        m.status := Redemption(T2);
        m.redemptionShotsLeft := if live1 == 1 then 2 else live1;
        m.redemptionHits := 0;
      }
      assert m.Snap() == RunningStep(c, live1, live2);
    } else {
      var redeeming := m.status.team;
      var opponent := redeeming.Other();
      var own := if redeeming == T1 then live1 else live2;
      var target := if redeeming == T1 then live2 else live1;
      if own <= -1 {
        FinishMatch(m, opponent, now);
        return;
      }
      if target < -1 {
        FinishMatch(m, redeeming, now);
        return;
      }
      if m.redemptionShotsLeft <= 0 {
        if target == 0 {
          StartOvertime(m);
        } else if target > 0 {
          FinishMatch(m, opponent, now);
        } else {
          m.status := Redemption(opponent);
          m.redemptionShotsLeft := 2;
          m.redemptionHits := 0;
          m.SetCups(opponent, []);
          m.SetPending(opponent, []);
          assert m.Snap() == Reversal(c, redeeming);
        }
      }
    }
  }

  /** The pending-list loop of `add_record` for a hit. */
  method PushDamage(pending: seq<string>, candidates: seq<string>, rehits: seq<string>, potency: int, stamp: string)
    returns (r: seq<string>)
    ensures r == DamageList(pending, candidates, rehits, potency, stamp)
  {
    var onlyRed := CupLists.RemoveAll(candidates, rehits);
    r := PushRed(pending, onlyRed, potency);
    var missing := potency - (|r| - |pending|);
    if missing > 0 {
      r := PushPlaceholders(r, missing, stamp);
    }
  }

  /** The red-cup loop of the damage push: each red cup new to the list is appended while the potency lasts. */
  method PushRed(pending: seq<string>, onlyRed: seq<string>, potency: int) returns (r: seq<string>)
    ensures r == AddRed(pending, onlyRed, potency)
  {
    r := pending;
    var i := 0;
    while i < |onlyRed|
      invariant 0 <= i <= |onlyRed|
      invariant |pending| <= |r|
      invariant AddRed(r, onlyRed[i..], potency - (|r| - |pending|)) == AddRed(pending, onlyRed, potency)
    {
      assert onlyRed[i..][1..] == onlyRed[i + 1..];
      if |r| - |pending| < potency {
        if onlyRed[i] !in r {
          r := r + [onlyRed[i]];
        }
      }
      i := i + 1;
    }
  }

  /** The placeholder loop of the damage push: `missing` numbered placeholders close the list. */
  method PushPlaceholders(red: seq<string>, missing: int, stamp: string) returns (r: seq<string>)
    ensures r == red + Placeholders(stamp, missing)
  {
    r := red;
    var k := 0;
    while k < missing
      invariant 0 <= k <= (if missing > 0 then missing else 0)
      invariant r == red + Placeholders(stamp, k)
    {
      r := r + [Placeholder(stamp, k)];
      k := k + 1;
    }
    assert missing <= 0 ==> Placeholders(stamp, missing) == [];
  }

  /** The format block of `add_record`. */
  method ChangeFormat(m: ActiveMatch, team: Team, format: string)
    modifies m
    ensures m.Snap() == FormatChosen(old(m.Snap()), team, format)
  {
    var opp := team.Other();
    if format != "" && format != m.Snap().Of(opp).formatTarget {
      m.SetFormatTarget(opp, format);
      InitCupState(m, opp, format);
      m.SetFormatChanged(team, true);
    }
  }

  /** The `Centro` block of `add_record`. */
  method RegisterHit(m: ActiveMatch, team: Team, candidates: seq<string>, rehits: seq<string>, multiplier: string, stamp: string)
    modifies m
    ensures m.Snap() == HitPushed(old(m.Snap()), team, candidates, rehits, multiplier, stamp)
  {
    var opp := team.Other();
    var potency := Potency(multiplier);
    var pending := PushDamage(m.Snap().Of(opp).pending, candidates, rehits, potency, stamp);
    if m.status == Redemption(team) {
      m.redemptionHits := m.redemptionHits + potency;
    }
    m.SetPending(opp, pending);
    m.SetPendingDamage(opp, |pending|);
  }

  method AddRecord(m: ActiveMatch, team: Team, format: string, result: Option<Shot>, candidates: seq<string>,
                   rehitText: string, multiplier: string, stamp: string, now: int)
    modifies m
    ensures m.Snap() == Recorded(old(m.Snap()), team, format, result, candidates, rehitText, multiplier, stamp, now)
  {
    ChangeFormat(m, team, format);
    if result.None? {
      return;
    }
    ghost var f := m.Snap();
    TakeShot(m, team, result.value == Centro, candidates, CupLists.Rehits(rehitText), multiplier, stamp);
    assert m.Snap() == ShotTaken(f, team, result.value == Centro, candidates, CupLists.Rehits(rehitText), multiplier, stamp);
    UpdateGameState(m, now);
  }

  /** The shot part of `add_record`: pending hits committed, the hit pushed, a redemption shot spent. */
  method TakeShot(m: ActiveMatch, team: Team, hit: bool, candidates: seq<string>, rehits: seq<string>, multiplier: string, stamp: string)
    modifies m
    ensures m.Snap() == ShotTaken(old(m.Snap()), team, hit, candidates, rehits, multiplier, stamp)
  {
    ApplyPendingDamage(m, team);
    if hit {
      RegisterHit(m, team, candidates, rehits, multiplier, stamp);
    }
    if m.status == Redemption(team) {
      m.redemptionShotsLeft := m.redemptionShotsLeft - 1;
    }
  }

  method ForceUpdate(m: ActiveMatch, team: Team, now: int)
    modifies m
    ensures m.Snap() == Forced(old(m.Snap()), team, now)
  {
    if m.status == Running {
      ApplyPendingDamage(m, team.Other());
      UpdateGameState(m, now);
    }
  }

  /**
   * `get_match_info`: among the unfinished matches, in order, the first in
   * which the player sits on either team; team 1 is checked first.
   */
  method GetMatchInfo(matches: seq<ActiveMatch>, player: string) returns (r: Option<(nat, Team)>)
    ensures r.Some? ==> r.value.0 < |matches| && matches[r.value.0].status != Finished
                        && matches[r.value.0].Plays(player, r.value.1)
    ensures r.Some? && r.value.1 == T2 ==> !matches[r.value.0].Plays(player, T1)
    ensures r.Some? ==> forall j :: 0 <= j < r.value.0 && matches[j].status != Finished ==>
                          !matches[j].Plays(player, T1) && !matches[j].Plays(player, T2)
    ensures r.None? ==> forall j :: 0 <= j < |matches| && matches[j].status != Finished ==>
                          !matches[j].Plays(player, T1) && !matches[j].Plays(player, T2)
  {
    var i := 0;
    while i < |matches|
      invariant 0 <= i <= |matches|
      invariant forall j :: 0 <= j < i && matches[j].status != Finished ==>
                  !matches[j].Plays(player, T1) && !matches[j].Plays(player, T2)
    {
      var m := matches[i];
      if m.status != Finished {
        if m.Plays(player, T1) {
          return Some((i, T1));
        }
        if m.Plays(player, T2) {
          return Some((i, T2));
        }
      }
      i := i + 1;
    }
    return None;
  }

  // ---------------------------------------------------------------------
  // Grouping and scoring of finished matches

  /** `[p for p in [a] if p]`: a name that is set and non-empty. */
  function Present(p: Option<string>): seq<string>
  {
    if p.Some? && p.value != "" then [p.value] else []
  }

  /** `sorted` on a list of at most two strings. */
  function SortedPair(xs: seq<string>): (r: seq<string>)
    requires |xs| <= 2
    ensures multiset(r) == multiset(xs)
    ensures |r| == 2 ==> !Strings.Less(r[1], r[0])
  {
    if |xs| == 2 && Strings.Less(xs[1], xs[0]) then
      Strings.LessTotal(xs[0], xs[1]);
      assert xs == [xs[0]] + [xs[1]];
      [xs[1], xs[0]]
    else xs
  }

  /** One side of `get_match_key`: the team's present names, sorted and joined by " & ". */
  function TeamKey(p1: Option<string>, p2: Option<string>): string
  {
    Strings.Join(SortedPair(Present(p1) + Present(p2)), " & ")
  }

  /** `get_match_key`: the two team keys, sorted and joined by " VS ". */
  function MatchKey(t1p1: Option<string>, t1p2: Option<string>, t2p1: Option<string>, t2p2: Option<string>): string
  {
    Strings.Join(SortedPair([TeamKey(t1p1, t1p2), TeamKey(t2p1, t2p2)]), " VS ")
  }

  lemma SortedPairOrderFree(x: seq<string>, y: seq<string>)
    requires |x| <= 1 && |y| <= 1
    ensures SortedPair(x + y) == SortedPair(y + x)
  {
    if |x| == 1 && |y| == 1 {
      Strings.LessTotal(x[0], y[0]);
    }
  }

  /** A team's key does not depend on which seat each player took. */
  lemma TeamKeySeatFree(p1: Option<string>, p2: Option<string>)
    ensures TeamKey(p1, p2) == TeamKey(p2, p1)
  {
    SortedPairOrderFree(Present(p1), Present(p2));
  }

  /** The key of a pairing does not depend on which side a team played nor on seat order within a team. */
  lemma MatchKeySymmetric(t1p1: Option<string>, t1p2: Option<string>, t2p1: Option<string>, t2p2: Option<string>)
    ensures MatchKey(t1p1, t1p2, t2p1, t2p2) == MatchKey(t2p1, t2p2, t1p1, t1p2)
    ensures MatchKey(t1p1, t1p2, t2p1, t2p2) == MatchKey(t1p2, t1p1, t2p2, t2p1)
  {
    var k1 := TeamKey(t1p1, t1p2);
    var k2 := TeamKey(t2p1, t2p2);
    PairSwapFree(k1, k2);
    TeamKeySeatFree(t1p1, t1p2);
    TeamKeySeatFree(t2p1, t2p2);
  }

  lemma PairSwapFree(k1: string, k2: string)
    ensures SortedPair([k1, k2]) == SortedPair([k2, k1])
  {
    SortedPairOrderFree([k1], [k2]);
    assert [k1] + [k2] == [k1, k2] && [k2] + [k1] == [k2, k1];
  }

  /** `[c for c in pieces if c.strip()]`. */
  function NonBlankPieces(pieces: seq<string>): (r: seq<string>)
    ensures |r| <= |pieces|
  {
    if pieces == [] then []
    else (if Strings.NonBlank(pieces[0]) then [pieces[0]] else []) + NonBlankPieces(pieces[1..])
  }

  /** Points of one stored hit in `get_score_points`: one per listed cup, and at least one. */
  function Points(hitColumn: Option<string>): (n: int)
    ensures n >= 1
  {
    if hitColumn.Some? && hitColumn.value != "" then
      var k := |NonBlankPieces(Strings.Split(hitColumn.value, ','))|;
      if k > 1 then k else 1
    else 1
  }

  /** The `bicchiere_colpito` text `add_record` stores: the aimed cups joined by ", ", or "N/A". */
  function HitColumn(hit: bool, aimed: seq<string>): string
  {
    if hit && aimed != [] then Strings.Join(aimed, ", ") else "N/A"
  }

  /** Splitting ", "-joined labels at the commas gives the labels, each after the first with a leading blank. */
  lemma {:induction false} SplitJoined(xs: seq<string>)
    requires |xs| >= 1
    requires forall c :: c in xs ==> ',' !in c
    ensures |Strings.Split(Strings.Join(xs, ", "), ',')| == |xs|
    ensures Strings.Split(Strings.Join(xs, ", "), ',')[0] == xs[0]
    ensures forall i :: 1 <= i < |xs| ==> Strings.Split(Strings.Join(xs, ", "), ',')[i] == " " + xs[i]
    decreases |xs|
  {
    if |xs| == 1 {
      Strings.SplitPlain(xs[0], ',');
    } else {
      var rest := Strings.Join(xs[1..], ", ");
      assert Strings.Join(xs, ", ") == xs[0] + [','] + (" " + rest);
      Strings.SplitAfterPiece(xs[0], ',', " " + rest);
      Strings.SplitBlankFirst(rest, ',');
      SplitJoined(xs[1..]);
      var tail := Strings.Split(rest, ',');
      var r := Strings.Split(Strings.Join(xs, ", "), ',');
      assert r == [xs[0]] + ([" " + tail[0]] + tail[1..]);
      forall i | 1 <= i < |xs|
        ensures r[i] == " " + xs[i]
      {
        assert xs[1..][i - 1] == xs[i];
      }
    }
  }

  lemma {:induction false} NonBlankPiecesAll(pieces: seq<string>)
    requires forall p :: p in pieces ==> Strings.NonBlank(p)
    ensures NonBlankPieces(pieces) == pieces
    decreases |pieces|
  {
    if pieces != [] {
      NonBlankPiecesAll(pieces[1..]);
      assert [pieces[0]] + pieces[1..] == pieces;
    }
  }

  /**
   * A stored hit is worth exactly the number of cups written into it (at
   * least one), provided no cup label contains a comma or is blank.
   */
  lemma RecordedPoints(aimed: seq<string>)
    requires forall c :: c in aimed ==> ',' !in c && Strings.NonBlank(c)
    ensures Points(Some(HitColumn(true, aimed))) == if |aimed| > 1 then |aimed| else 1
  {
    if aimed != [] {
      SplitJoined(aimed);
      var pieces := Strings.Split(Strings.Join(aimed, ", "), ',');
      forall p | p in pieces
        ensures Strings.NonBlank(p)
      {
        var i :| 0 <= i < |pieces| && pieces[i] == p;
        var k :| 0 <= k < |aimed[i]| && !Strings.IsSpace(aimed[i][k]);
        if i > 0 {
          assert p[k + 1] == aimed[i][k];
        }
      }
      NonBlankPiecesAll(pieces);
    } else {
      Strings.SplitPlain("N/A", ',');
      assert Strings.NonBlank("N/A") by {
        assert !Strings.IsSpace("N/A"[0]);
      }
    }
  }

  /** A hit never scores more than its potency, whatever cups were clicked. */
  lemma PointsWithinPotency(candidates: seq<string>, rehits: seq<string>, multiplier: string)
    requires forall c :: c in candidates + rehits ==> ',' !in c && Strings.NonBlank(c)
    ensures Points(Some(HitColumn(true, AimedCups(candidates, rehits, Potency(multiplier))))) <= Potency(multiplier)
  {
    RecordedPoints(AimedCups(candidates, rehits, Potency(multiplier)));
  }

  // ---------------------------------------------------------------------
  // Properties of the rules

  /** A finished match is never touched by the state update. */
  lemma UpdateIgnoresFinished(s: State, now: int)
    requires s.status == Finished
    ensures Updated(s, now) == s
  {
  }

  /** On an unfinished match both cup targets end up equal to the live counts, whatever step follows. */
  lemma UpdateRecordsLiveCounts(s: State, now: int)
    requires s.status != Finished
    ensures Updated(s, now).t1.cupsTarget == s.Live(T1)
    ensures Updated(s, now).t2.cupsTarget == s.Live(T2)
  {
  }

  /** Normal play: the first team (team 1 first) with no live cups enters redemption; the cups stay as they are. */
  lemma RunningEntersRedemption(s: State, now: int)
    requires s.status == Running
    ensures var r := Updated(s, now);
      && r.t1.active == s.t1.active && r.t2.active == s.t2.active
      && r.t1.pending == s.t1.pending && r.t2.pending == s.t2.pending
      && (s.Live(T1) <= 0 ==>
            r.status == Redemption(T1) && r.hits == 0
            && r.shotsLeft == (if s.Live(T2) == 1 then 2 else s.Live(T2)))
      && (s.Live(T1) > 0 && s.Live(T2) <= 0 ==>
            r.status == Redemption(T2) && r.hits == 0
            && r.shotsLeft == (if s.Live(T1) == 1 then 2 else s.Live(T1)))
      && (s.Live(T1) > 0 && s.Live(T2) > 0 ==> r == s.Targeted() && r.status == Running)
  {
  }

  /** In redemption an overkill ends the match before the remaining shots are looked at. */
  lemma RedemptionOverkillFirst(s: State, now: int)
    requires s.status.Redemption?
    ensures var red := s.status.team; var r := Updated(s, now);
      && (s.Live(red) <= -1 ==> r.status == Finished && r.winner == Some(red.Other()) && r.endTime == Some(now))
      && (s.Live(red) > -1 && s.Live(red.Other()) < -1 ==> r.status == Finished && r.winner == Some(red))
  {
  }

  /**
   * Once the redeeming team's shots are spent, the opponent's live count
   * decides: 0 starts overtime, more than 0 loses, exactly -1 hands the
   * redemption to the opponent on an emptied table.
   */
  lemma RedemptionLastShot(s: State, now: int)
    requires s.status.Redemption?
    requires s.Live(s.status.team) > -1 && s.Live(s.status.team.Other()) >= -1
    requires s.shotsLeft <= 0
    ensures var red := s.status.team; var opp := red.Other(); var r := Updated(s, now);
      && (s.Live(opp) == 0 ==>
            (r.status == Running && r.mode == Overtime
             && r.t1.active == CupsFor(SingleCentral) && r.t2.active == CupsFor(SingleCentral)
             && r.t1.pending == [] && r.t2.pending == []))
      && (s.Live(opp) > 0 ==> r.status == Finished && r.winner == Some(opp))
      && (s.Live(opp) == -1 ==>
            (r.status == Redemption(opp) && r.shotsLeft == 2 && r.hits == 0
             && r.Of(opp).active == [] && r.Of(opp).pending == []
             && r.Of(red) == s.Targeted().Of(red)))
      && r.status != Redemption(red)
  {
    CatalogShape();
  }

  /** While shots remain and nobody overkilled, redemption only records the live counts. */
  lemma RedemptionWaits(s: State, now: int)
    requires s.status.Redemption?
    requires s.Live(s.status.team) > -1 && s.Live(s.status.team.Other()) >= -1
    requires s.shotsLeft > 0
    ensures Updated(s, now) == s.Targeted()
  {
  }

  /** Damage against the team that is winning a redemption is held back. */
  lemma DamageHeldBack(s: State, target: Team)
    requires s.status.Redemption? && target != s.status.team
    ensures DamageApplied(s, target) == s
  {
  }

  /** Otherwise every copy of every pending label leaves the target's cups, and nothing else changes. */
  lemma DamageCommitted(s: State, target: Team)
    requires !(s.status.Redemption? && target != s.status.team)
    ensures var r := DamageApplied(s, target);
      && r.Of(target).pending == []
      && (forall c :: c in r.Of(target).active <==> c in s.Of(target).active && c !in s.Of(target).pending)
      && |r.Of(target).active| <= |s.Of(target).active|
      && r.Of(target.Other()) == s.Of(target.Other())
      && r.status == s.status && r.shotsLeft == s.shotsLeft && r.hits == s.hits
      && (s.Of(target).pending == [] ==> r == s)
      && (s.Of(target).pending != [] ==>
            && r.Of(target).pendingDamage == 0
            && r.Of(target).formatTarget == s.Of(target).formatTarget
            && r.Of(target).cupsTarget == s.Of(target).cupsTarget
            && r.Of(target).formatChanged == s.Of(target).formatChanged)
  {
  }

  /**
   * A hit lowers the opponent's live count by exactly the shot's potency:
   * the opponent's cups are untouched and its pending list grows by the
   * potency, keeping the earlier entries.
   */
  lemma {:induction false} HitLowersOpponentLive(s: State, team: Team, candidates: seq<string>, rehits: seq<string>,
                                                 multiplier: string, stamp: string)
    ensures var opp := team.Other(); var r := ShotTaken(s, team, true, candidates, rehits, multiplier, stamp);
      && r.Of(opp).active == s.Of(opp).active
      && |r.Of(opp).pending| == |s.Of(opp).pending| + Potency(multiplier)
      && r.Of(opp).pending[..|s.Of(opp).pending|] == s.Of(opp).pending
      && r.Of(opp).pendingDamage == |r.Of(opp).pending|
      && r.Live(opp) == s.Live(opp) - Potency(multiplier)
      && r.Of(team) == DamageApplied(s, team).Of(team)
  {
    var opp := team.Other();
    var a := DamageApplied(s, team);
    assert a.Of(opp) == s.Of(opp);
    DamageListShape(a.Of(opp).pending, candidates, rehits, Potency(multiplier), stamp);
  }

  /** A miss or a rim shot leaves the opponent's cups and pending hits alone. */
  lemma MissSparesOpponent(s: State, team: Team, candidates: seq<string>, rehits: seq<string>, multiplier: string, stamp: string)
    ensures ShotTaken(s, team, false, candidates, rehits, multiplier, stamp).Of(team.Other()) == s.Of(team.Other())
  {
  }

  /** Every shot of the redeeming team uses one shot and adds its potency to the redemption hits on a hit; other shots leave both counters. */
  lemma RedemptionCounters(s: State, team: Team, hit: bool, candidates: seq<string>, rehits: seq<string>,
                           multiplier: string, stamp: string)
    ensures var r := ShotTaken(s, team, hit, candidates, rehits, multiplier, stamp);
      && r.status == s.status
      && (s.Redeeming(team) ==>
            r.shotsLeft == s.shotsLeft - 1 && r.hits == s.hits + (if hit then Potency(multiplier) else 0))
      && (!s.Redeeming(team) ==> r.shotsLeft == s.shotsLeft && r.hits == s.hits)
  {
  }

  /**
   * Overtime restarts play in overtime mode on "Singolo Centrale", racking
   * exactly the catalogue's single central cup on both sides, with nothing
   * pending, the redemption counters at zero and both format flags set.
   */
  lemma OvertimeFromCatalog(s: State)
    ensures var r := OvertimeStarted(s);
      && r.status == Running && r.mode == Overtime
      && r.t1.formatTarget == SingleCentral && r.t2.formatTarget == SingleCentral
      && r.t1.active == CupsFor(r.t1.formatTarget) && r.t2.active == CupsFor(r.t2.formatTarget)
      && r.t1.pending == [] && r.t2.pending == [] && r.t1.pendingDamage == 0 && r.t2.pendingDamage == 0
      && r.hits == 0 && r.shotsLeft == 0
      && r.t1.formatChanged && r.t2.formatChanged
      && r.t1.Live() == 1 && r.t2.Live() == 1
  {
    CatalogShape();
  }

  /** Finishing records the winner and the end time and changes nothing else: cups, counters, mode and start time stay. */
  lemma FinishKeepsCups(s: State, winner: Team, now: int)
    ensures var r := Finish(s, winner, now);
      && r == s.(status := Finished, winner := Some(winner), endTime := Some(now))
      && r.t1 == s.t1 && r.t2 == s.t2
  {
  }

  /** A rematch restarts in normal mode with six live pyramid cups per team and no winner. */
  lemma RematchRestarts(s: State, now: int)
    ensures var r := Rematched(s, now);
      && r.status == Running && r.mode == Teams && r.winner == None && r.endTime == None && r.startTime == now
      && r.shotsLeft == 0 && r.hits == 0
      && r.t1.active == CupsFor(Pyramid) && r.t2.active == CupsFor(Pyramid)
      && r.t1.pending == [] && r.t2.pending == [] && r.t1.pendingDamage == 0 && r.t2.pendingDamage == 0
      && !r.t1.formatChanged && !r.t2.formatChanged
      && r.Live(T1) == 6 && r.Live(T2) == 6
  {
    CatalogShape();
  }

  /**
   * A submitted format different from the opponent's re-racks the opponent
   * with it, whatever was chosen before: the change flag is set but never
   * consulted.
   */
  lemma FormatNeverLocked(s: State, team: Team, format: string)
    ensures var opp := team.Other(); var r := FormatChosen(s, team, format);
      && (format != "" ==> r.Of(opp).formatTarget == format)
      && (format != "" && format != s.Of(opp).formatTarget ==>
            r.Of(opp).active == CupsFor(format) && r.Of(opp).pending == s.Of(opp).pending && r.Of(team).formatChanged)
      && (format == "" || format == s.Of(opp).formatTarget ==> r == s)
  {
  }

  /** `force_update` commits the opponent's pending hits only while the match is running. */
  lemma ForcedCommitsOpponent(s: State, team: Team, now: int)
    ensures var opp := team.Other(); var r := Forced(s, team, now);
      && (s.status != Running ==> r == s)
      && (s.status == Running ==>
            r.Of(opp).pending == [] && r.Of(opp).active == CupLists.RemoveAll(s.Of(opp).active, s.Of(opp).pending)
            && r.Of(team).active == s.Of(team).active && r.Of(team).pending == s.Of(team).pending)
  {
    var opp := team.Other();
    if s.status == Running && s.Of(opp).pending == [] {
      CupLists.RemoveAllAbsent(s.Of(opp).active, []);
    }
  }

  /** From a new match, one `Sestuplo` hit on the whole pyramid sends team 2 into redemption with six shots. */
  lemma SestuploOpening(t0: int, stamp: string, now: int)
    ensures var r := Recorded(NewMatch(t0), T1, "", Some(Centro), CupsFor(Pyramid), "", "Sestuplo", stamp, now);
      && r.status == Redemption(T2) && r.shotsLeft == 6 && r.hits == 0
      && r.t1 == NewMatch(t0).t1
      && r.t2.active == CupsFor(Pyramid) && |r.t2.pending| == 6
  {
    var s := NewMatch(t0);
    CatalogShape();
    HitLowersOpponentLive(s, T1, CupsFor(Pyramid), CupLists.Rehits(""), "Sestuplo", stamp);
  }
}
