/**
 * The integer counters of the player statistics
 * (app/main/stats_calculations.py): `is_true`, the longest runs of
 * `get_max_streaks` and of the special metrics, the clutch counters, the
 * shot partition and match/win counts of the last day, the shots per match,
 * the multi-hit labels and the hit tallies per number of opposing cups.
 *
 * Every column arrives as a list of cells, one per recorded shot, in
 * recording order; the percentages computed from these counters are not
 * part of this model.
 */
module Stats {
  import opened Wrappers
  import opened Strings
  import Catalog
  import CupLists

  // ---------------------------------------------------------------------
  // Cells and Python truth

  /** A cell of a column: a string, a boolean, an integer or `None`. */
  datatype Value = Str(s: string) | Bool(b: bool) | Int(i: int) | Null

  /** The number a boolean or integer cell stands for (`True == 1`, `False == 0`). */
  function Numeric(v: Value): Option<int>
  {
    match v
    case Bool(b) => Some(if b then 1 else 0)
    case Int(i) => Some(i)
    case _ => None
  }

  /** Python `==` between two cells. */
  predicate PyEq(a: Value, b: Value)
  {
    match (a, b)
    case (Str(x), Str(y)) => x == y
    case (Null, Null) => true
    case _ => Numeric(a).Some? && Numeric(a) == Numeric(b)
  }

  const TrueValues: seq<Value> := [Str("Sì"), Str("Si"), Str("True"), Bool(true), Int(1)]

  /** `is_true(value)`: the cell is one of the true markers. */
  predicate IsTrue(v: Value)
  {
    match v
    case Str(s) => s == "Sì" || s == "Si" || s == "True"
    case Bool(b) => b
    case Int(i) => i == 1
    case Null => false
  }

  /**
   * `is_true` is Python's `value in ['Sì', 'Si', 'True', True, 1]`, where
   * `in` compares with `==` and so also accepts `1` for `True` and `True`
   * for `1`.
   */
  lemma IsTrueMembership(v: Value)
    ensures IsTrue(v) <==> exists k :: 0 <= k < |TrueValues| && PyEq(v, TrueValues[k])
  {
    if IsTrue(v) {
      match v
      case Str(s) =>
        if s == "Sì" { assert PyEq(v, TrueValues[0]); }
        else if s == "Si" { assert PyEq(v, TrueValues[1]); }
        else { assert PyEq(v, TrueValues[2]); }
      case Bool(_) => assert PyEq(v, TrueValues[3]);
      case Int(_) => assert PyEq(v, TrueValues[4]);
    }
  }

  /** `str(value)`. */
  function PyStr(v: Value): string
  {
    match v
    case Str(s) => s
    case Bool(b) => if b then "True" else "False"
    case Int(i) => if i < 0 then "-" + NatToString(-i) else NatToString(i)
    case Null => "None"
  }

  /** Python truthiness of a cell. */
  predicate Truthy(v: Value)
  {
    match v
    case Str(s) => s != ""
    case Bool(b) => b
    case Int(i) => i != 0
    case Null => false
  }

  /** `max(dates) if dates else None`, with the empty string standing for `None`: both are false in the tests that follow. */
  function LastDate(dates: seq<string>): (r: string)
    ensures dates != [] ==> r in dates && forall d :: d in dates ==> d == r || Less(d, r)
  {
    if dates == [] then "" else MaxOf(dates)
  }

  // ---------------------------------------------------------------------
  // Longest runs

  function Max(a: nat, b: nat): nat
  {
    if a < b then b else a
  }

  /** Every flag in `[i, j)` is set. */
  predicate AllSet(bs: seq<bool>, i: int, j: int)
    requires 0 <= i <= j <= |bs|
  {
    forall k :: i <= k < j ==> bs[k]
  }

  /** Length of the run of set flags that ends the sequence. */
  function Trailing(bs: seq<bool>): (r: nat)
    ensures r <= |bs|
  {
    if bs == [] || !bs[|bs| - 1] then 0 else Trailing(bs[..|bs| - 1]) + 1
  }

  /** Length of the longest run of set flags, scanning left to right. */
  function Longest(bs: seq<bool>): (r: nat)
    ensures Trailing(bs) <= r <= |bs|
  {
    if bs == [] then 0 else Max(Longest(bs[..|bs| - 1]), Trailing(bs))
  }

  /** One more flag: a set flag extends the trailing run, a clear one ends it. */
  lemma RunStep(bs: seq<bool>, b: bool)
    ensures Trailing(bs + [b]) == if b then Trailing(bs) + 1 else 0
    ensures Longest(bs + [b]) == if b then Max(Longest(bs), Trailing(bs) + 1) else Longest(bs)
  {
    assert (bs + [b])[..|bs|] == bs;
  }

  /** The trailing run is all set, and the flag just before it is clear. */
  lemma {:induction false} TrailingRun(bs: seq<bool>)
    ensures AllSet(bs, |bs| - Trailing(bs), |bs|)
    ensures Trailing(bs) < |bs| ==> !bs[|bs| - Trailing(bs) - 1]
  {
    if bs != [] && bs[|bs| - 1] {
      TrailingRun(bs[..|bs| - 1]);
    }
  }

  /** A window of set flags reaching the end is no longer than the trailing run. */
  lemma {:induction false} TrailingCovers(bs: seq<bool>, i: int)
    requires 0 <= i <= |bs| && AllSet(bs, i, |bs|)
    ensures |bs| - i <= Trailing(bs)
  {
    var n := |bs|;
    if i < n {
      var p := bs[..n - 1];
      assert AllSet(p, i, n - 1);
      TrailingCovers(p, i);
    }
  }

  /** `Longest` is the length of some window of set flags. */
  lemma {:induction false} LongestWindow(bs: seq<bool>) returns (i: int, j: int)
    ensures 0 <= i <= j <= |bs| && j - i == Longest(bs) && AllSet(bs, i, j)
  {
    var n := |bs|;
    if n == 0 {
      i, j := 0, 0;
    } else {
      var p := bs[..n - 1];
      if Longest(p) >= Trailing(bs) {
        i, j := LongestWindow(p);
        assert AllSet(bs, i, j);
      } else {
        TrailingRun(bs);
        i, j := n - Trailing(bs), n;
      }
    }
  }

  /** No window of set flags is longer than `Longest`. */
  lemma {:induction false} LongestBound(bs: seq<bool>, i: int, j: int)
    requires 0 <= i <= j <= |bs| && AllSet(bs, i, j)
    ensures j - i <= Longest(bs)
  {
    var n := |bs|;
    if j == n {
      TrailingCovers(bs, i);
    } else {
      var p := bs[..n - 1];
      assert AllSet(p, i, j);
      LongestBound(p, i, j);
    }
  }

  // ---------------------------------------------------------------------
  // get_max_streaks

  /** The flag `get_max_streaks` scans: a true outcome on an accepted date; an empty filter accepts every date. */
  function Marks(outcomes: seq<Value>, dates: seq<string>, filter: string): (r: seq<bool>)
    requires filter != "" ==> |outcomes| <= |dates|
    ensures |r| == |outcomes|
    ensures forall k :: 0 <= k < |outcomes| ==> r[k] == ((filter == "" || dates[k] == filter) && IsTrue(outcomes[k]))
  {
    if outcomes == [] then []
    else
      var n := |outcomes| - 1;
      Marks(outcomes[..n], dates, filter) + [(filter == "" || dates[n] == filter) && IsTrue(outcomes[n])]
  }

  lemma MarksStep(outcomes: seq<Value>, dates: seq<string>, filter: string, i: nat)
    requires i < |outcomes|
    requires filter != "" ==> |outcomes| <= |dates|
    ensures Marks(outcomes[..i + 1], dates, filter)
         == Marks(outcomes[..i], dates, filter) + [(filter == "" || dates[i] == filter) && IsTrue(outcomes[i])]
  {
    assert outcomes[..i + 1][..i] == outcomes[..i];
  }

  /**
   * `get_max_streaks(outcome_list, date_filter)`: the longest run of true
   * outcomes, an outcome on another date breaking the run like a false one.
   */
  method MaxStreak(outcomes: seq<Value>, dates: seq<string>, filter: string) returns (best: nat)
    requires filter != "" ==> |outcomes| <= |dates|
    ensures best == Longest(Marks(outcomes, dates, filter))
  {
    best := 0;
    var current: nat := 0;
    var i := 0;
    while i < |outcomes|
      invariant 0 <= i <= |outcomes|
      invariant current == Trailing(Marks(outcomes[..i], dates, filter))
      invariant best == Longest(Marks(outcomes[..i], dates, filter))
    {
      ghost var m := Marks(outcomes[..i], dates, filter);
      ghost var b := (filter == "" || dates[i] == filter) && IsTrue(outcomes[i]);
      MarksStep(outcomes, dates, filter, i);
      RunStep(m, b);
      if filter != "" && dates[i] != filter {
        current := 0;
      } else if IsTrue(outcomes[i]) {
        current := current + 1;
        if current > best {
          best := current;
        }
      } else {
        current := 0;
      }
      assert current == Trailing(m + [b]);
      assert best == Longest(m + [b]);
      i := i + 1;
    }
    assert outcomes[..i] == outcomes;
  }

  /** A date filter can only shorten the longest streak, and no streak is longer than the list. */
  lemma StreakFilterNoLonger(outcomes: seq<Value>, dates: seq<string>, filter: string)
    requires filter != "" ==> |outcomes| <= |dates|
    ensures Longest(Marks(outcomes, dates, filter)) <= Longest(Marks(outcomes, dates, ""))
    ensures Longest(Marks(outcomes, dates, "")) <= |outcomes|
  {
    var f := Marks(outcomes, dates, filter);
    var all := Marks(outcomes, dates, "");
    var i, j := LongestWindow(f);
    assert AllSet(all, i, j);
    LongestBound(all, i, j);
  }

  // ---------------------------------------------------------------------
  // Streaks of calculate_special_metrics

  /** Hit flags of a `centro` column. */
  function Hits(xs: seq<Value>): (r: seq<bool>)
    ensures |r| == |xs| && forall k :: 0 <= k < |xs| ==> r[k] == IsTrue(xs[k])
  {
    if xs == [] then [] else Hits(xs[..|xs| - 1]) + [IsTrue(xs[|xs| - 1])]
  }

  /** Non-hit flags of a `centro` column. */
  function Fails(xs: seq<Value>): (r: seq<bool>)
    ensures |r| == |xs| && forall k :: 0 <= k < |xs| ==> r[k] == !IsTrue(xs[k])
  {
    if xs == [] then [] else Fails(xs[..|xs| - 1]) + [!IsTrue(xs[|xs| - 1])]
  }

  /** The shots recorded on day `d`, in order; none when `d` is empty. */
  function OnDate(xs: seq<Value>, dates: seq<string>, d: string): (r: seq<Value>)
    requires |xs| <= |dates|
    ensures |r| <= |xs|
  {
    if xs == [] then []
    else
      var n := |xs| - 1;
      OnDate(xs[..n], dates, d) + (if d != "" && dates[n] == d then [xs[n]] else [])
  }

  /** A shot added at the end adds one flag at the end of each flag list. */
  lemma FlagsAppend(xs: seq<Value>, v: Value)
    ensures Hits(xs + [v]) == Hits(xs) + [IsTrue(v)]
    ensures Fails(xs + [v]) == Fails(xs) + [!IsTrue(v)]
  {
    assert (xs + [v])[..|xs|] == xs;
  }

  /** One more shot extends the day's shots when it is on day `d`. */
  lemma OnDateStep(xs: seq<Value>, dates: seq<string>, d: string, i: nat)
    requires i < |xs| <= |dates|
    ensures xs[..i + 1] == xs[..i] + [xs[i]]
    ensures d != "" && dates[i] == d ==> OnDate(xs[..i + 1], dates, d) == OnDate(xs[..i], dates, d) + [xs[i]]
    ensures !(d != "" && dates[i] == d) ==> OnDate(xs[..i + 1], dates, d) == OnDate(xs[..i], dates, d)
  {
    assert xs[..i + 1][..i] == xs[..i];
    assert OnDate(xs[..i], dates, d) + [] == OnDate(xs[..i], dates, d);
  }

  /** The four counters of a streak pair describe the hit flags `h` and the non-hit flags `f` scanned so far. */
  predicate Tracks(maxC: nat, currC: nat, maxM: nat, currM: nat, h: seq<bool>, f: seq<bool>)
  {
    currC == Trailing(h) && Max(maxC, currC) == Longest(h) && currM == Trailing(f) && Max(maxM, currM) == Longest(f)
  }

  /** One shot on a pair of streak counters: a hit extends the hit run and closes the non-hit run, and the other way round. */
  method TrackShot(maxC: nat, currC: nat, maxM: nat, currM: nat, isHit: bool, ghost h: seq<bool>, ghost f: seq<bool>)
    returns (maxC': nat, currC': nat, maxM': nat, currM': nat)
    requires Tracks(maxC, currC, maxM, currM, h, f)
    ensures Tracks(maxC', currC', maxM', currM', h + [isHit], f + [!isHit])
  {
    RunStep(h, isHit);
    RunStep(f, !isHit);
    if isHit {
      currC' := currC + 1;
      maxM' := Max(maxM, currM);
      currM' := 0;
      maxC' := maxC;
    } else {
      maxC' := Max(maxC, currC);
      currC' := 0;
      currM' := currM + 1;
      maxM' := maxM;
    }
  }

  /**
   * The streak loop of `calculate_special_metrics`: longest hit and non-hit
   * runs over all shots, and over the last day's shots taken in order
   * (shots of other days are skipped, not treated as breaks).
   */
  method SpecialStreaks(centro: seq<Value>, dates: seq<string>)
    returns (hitHist: nat, failHist: nat, hitDaily: nat, failDaily: nat)
    requires |centro| <= |dates|
    ensures hitHist == Longest(Hits(centro)) && failHist == Longest(Fails(centro))
    ensures var day := OnDate(centro, dates, LastDate(dates));
      hitDaily == Longest(Hits(day)) && failDaily == Longest(Fails(day))
  {
    var last := LastDate(dates);
    var maxC, currC, maxM, currM := 0, 0, 0, 0;
    var maxCd, currCd, maxMd, currMd := 0, 0, 0, 0;
    var i := 0;
    while i < |centro|
      invariant 0 <= i <= |centro|
      invariant Tracks(maxC, currC, maxM, currM, Hits(centro[..i]), Fails(centro[..i]))
      invariant Tracks(maxCd, currCd, maxMd, currMd,
                       Hits(OnDate(centro[..i], dates, last)), Fails(OnDate(centro[..i], dates, last)))
    {
      ghost var day := OnDate(centro[..i], dates, last);
      OnDateStep(centro, dates, last, i);
      FlagsAppend(centro[..i], centro[i]);
      var isHit := IsTrue(centro[i]);
      maxC, currC, maxM, currM := TrackShot(maxC, currC, maxM, currM, isHit, Hits(centro[..i]), Fails(centro[..i]));
      if last != "" && dates[i] == last {
        FlagsAppend(day, centro[i]);
        maxCd, currCd, maxMd, currMd := TrackShot(maxCd, currCd, maxMd, currMd, isHit, Hits(day), Fails(day));
      }
      i := i + 1;
    }
    assert centro[..i] == centro;
    hitHist, failHist := Max(maxC, currC), Max(maxM, currM);
    hitDaily, failDaily := Max(maxCd, currCd), Max(maxMd, currMd);
  }

  /**
   * A hit run and a non-hit run never overlap, so together they are no
   * longer than the list of shots; each is bounded by the shots it scans.
   */
  lemma HitAndFailRunsDisjoint(xs: seq<Value>)
    ensures Longest(Hits(xs)) + Longest(Fails(xs)) <= |xs|
  {
    var h, f := Hits(xs), Fails(xs);
    var i1, j1 := LongestWindow(h);
    var i2, j2 := LongestWindow(f);
    if i1 < j1 && i2 < j2 {
      assert h[i1] == !f[i1] && h[i2] == !f[i2];
    }
  }

  /** The daily streaks are bounded by the number of shots of the last day, itself at most the number of shots. */
  lemma DailyStreaksWithinDay(centro: seq<Value>, dates: seq<string>)
    requires |centro| <= |dates|
    ensures var day := OnDate(centro, dates, LastDate(dates));
      Longest(Hits(day)) + Longest(Fails(day)) <= |day| <= |centro|
  {
    HitAndFailRunsDisjoint(OnDate(centro, dates, LastDate(dates)));
  }

  // ---------------------------------------------------------------------
  // Clutch counters

  /** Rescue shots among the first `n` pairs of (`tiro_salvezza`, `centro`). */
  function Attempts(salvezza: seq<Value>, centro: seq<Value>, n: nat): nat
    requires n <= |salvezza| && n <= |centro|
  {
    if n == 0 then 0 else Attempts(salvezza, centro, n - 1) + (if IsTrue(salvezza[n - 1]) then 1 else 0)
  }

  /** Rescue shots that were hits, among the first `n` pairs. */
  function Made(salvezza: seq<Value>, centro: seq<Value>, n: nat): nat
    requires n <= |salvezza| && n <= |centro|
  {
    if n == 0 then 0
    else Made(salvezza, centro, n - 1) + (if IsTrue(salvezza[n - 1]) && IsTrue(centro[n - 1]) then 1 else 0)
  }

  /**
   * The clutch loop over `zip(tiro_salvezza, centro)`: it stops at the
   * shorter column, and an absent `tiro_salvezza` column counts as empty.
   */
  method Clutch(salvezza: seq<Value>, centro: seq<Value>) returns (attempts: nat, made: nat)
    ensures var n := if |salvezza| < |centro| then |salvezza| else |centro|;
      attempts == Attempts(salvezza, centro, n) && made == Made(salvezza, centro, n)
  {
    var n := if |salvezza| < |centro| then |salvezza| else |centro|;
    attempts, made := 0, 0;
    var i := 0;
    while i < n
      invariant 0 <= i <= n
      invariant attempts == Attempts(salvezza, centro, i) && made == Made(salvezza, centro, i)
    {
      if IsTrue(salvezza[i]) {
        attempts := attempts + 1;
        if IsTrue(centro[i]) {
          made := made + 1;
        }
      }
      i := i + 1;
    }
  }

  /** Made rescue shots never outnumber attempts, and attempts never outnumber the pairs scanned. */
  lemma {:induction false} ClutchWithinAttempts(salvezza: seq<Value>, centro: seq<Value>, n: nat)
    requires n <= |salvezza| && n <= |centro|
    ensures Made(salvezza, centro, n) <= Attempts(salvezza, centro, n) <= n
  {
    if n > 0 {
      ClutchWithinAttempts(salvezza, centro, n - 1);
    }
  }

  // ---------------------------------------------------------------------
  // calculate_daily_percentages: the counters of the last day

  /** How the day classifies a shot: a true `centro` first, then a true `bordo`, anything else a miss. */
  function Kind(centro: Value, bordo: Value): Catalog.Shot
  {
    if IsTrue(centro) then Catalog.Centro else if IsTrue(bordo) then Catalog.Bordo else Catalog.Miss
  }

  /** Shots on day `d` among the first `n`. */
  function DayCount(dates: seq<string>, d: string, n: nat): nat
    requires n <= |dates|
  {
    if n == 0 then 0 else DayCount(dates, d, n - 1) + (if dates[n - 1] == d then 1 else 0)
  }

  /** Shots of kind `k` on day `d` among the first `n`. */
  function KindCount(dates: seq<string>, centri: seq<Value>, bordi: seq<Value>, d: string, k: Catalog.Shot, n: nat): nat
    requires n <= |dates| && n <= |centri| && n <= |bordi|
  {
    if n == 0 then 0
    else KindCount(dates, centri, bordi, d, k, n - 1) + (if dates[n - 1] == d && Kind(centri[n - 1], bordi[n - 1]) == k then 1 else 0)
  }

  /** Match ids (`None` included) of the shots on day `d` among the first `n` that have an id entry. */
  function DayIds(dates: seq<string>, ids: seq<Option<int>>, d: string, n: nat): set<Option<int>>
    requires n <= |dates|
  {
    set j | 0 <= j < n && j < |ids| && dates[j] == d :: ids[j]
  }

  /** Match ids already judged for a win: those of day-`d` shots among the first `n` that also have a result entry. */
  function Judged(dates: seq<string>, ids: seq<Option<int>>, results: seq<string>, d: string, n: nat): set<Option<int>>
    requires n <= |dates|
  {
    set j | 0 <= j < n && j < |ids| && j < |results| && dates[j] == d :: ids[j]
  }

  /** Shot `j` is the first of day `d` with its match id. */
  predicate FirstOfMatch(dates: seq<string>, ids: seq<Option<int>>, d: string, j: nat)
    requires j < |dates| && j < |ids|
  {
    forall k :: 0 <= k < j && dates[k] == d ==> ids[k] != ids[j]
  }

  predicate IsWin(result: string)
  {
    result == "Win" || result == "Vittoria"
  }

  /** Matches won on day `d`: judged on the result of the first shot of the day that has one. */
  function WinIds(dates: seq<string>, ids: seq<Option<int>>, results: seq<string>, d: string, n: nat): set<Option<int>>
    requires n <= |dates|
  {
    set j | 0 <= j < n && j < |ids| && j < |results| && dates[j] == d && FirstOfMatch(dates, ids, d, j) && IsWin(results[j]) :: ids[j]
  }

  /** The counters of `calculate_daily_percentages`; `lastDate` is `None` when there are no dates. */
  datatype DayCounts = DayCounts(lastDate: Option<string>, centri: nat, bordi: nat, miss: nat, totali: nat, matches: nat, wins: nat)

  lemma DayIdsStep(dates: seq<string>, ids: seq<Option<int>>, results: seq<string>, d: string, i: nat)
    requires i < |dates|
    ensures i < |ids| && dates[i] == d ==> DayIds(dates, ids, d, i + 1) == DayIds(dates, ids, d, i) + {ids[i]}
    ensures !(i < |ids| && dates[i] == d) ==> DayIds(dates, ids, d, i + 1) == DayIds(dates, ids, d, i)
    ensures i < |ids| && i < |results| && dates[i] == d ==>
      Judged(dates, ids, results, d, i + 1) == Judged(dates, ids, results, d, i) + {ids[i]}
    ensures !(i < |ids| && i < |results| && dates[i] == d) ==>
      Judged(dates, ids, results, d, i + 1) == Judged(dates, ids, results, d, i)
  {
  }

  lemma WinIdsStep(dates: seq<string>, ids: seq<Option<int>>, results: seq<string>, d: string, i: nat)
    requires i < |dates|
    ensures i < |ids| && i < |results| && dates[i] == d ==>
      (FirstOfMatch(dates, ids, d, i) <==> ids[i] !in Judged(dates, ids, results, d, i))
    ensures i < |ids| && i < |results| && dates[i] == d && FirstOfMatch(dates, ids, d, i) && IsWin(results[i]) ==>
      WinIds(dates, ids, results, d, i + 1) == WinIds(dates, ids, results, d, i) + {ids[i]}
    ensures !(i < |ids| && i < |results| && dates[i] == d && FirstOfMatch(dates, ids, d, i) && IsWin(results[i])) ==>
      WinIds(dates, ids, results, d, i + 1) == WinIds(dates, ids, results, d, i)
  {
    if i < |ids| && i < |results| && dates[i] == d && !FirstOfMatch(dates, ids, d, i) {
      var k :| 0 <= k < i && dates[k] == d && ids[k] == ids[i];
      assert ids[i] in Judged(dates, ids, results, d, i);
    }
  }

  /** A win is judged on an id that the judged set did not hold yet, so the win set only ever gains fresh ids. */
  lemma WinsJudged(dates: seq<string>, ids: seq<Option<int>>, results: seq<string>, d: string, i: nat)
    requires i <= |dates|
    ensures WinIds(dates, ids, results, d, i) <= Judged(dates, ids, results, d, i)
  {
  }

  /** The match sets and the win count after the first `i` shots of day `d`. */
  predicate MatchesSoFar(dates: seq<string>, ids: seq<Option<int>>, results: seq<string>, d: string, i: nat,
                         dailyIds: set<Option<int>>, processed: set<Option<int>>, wins: nat)
    requires i <= |dates|
  {
    && dailyIds == DayIds(dates, ids, d, i)
    && processed == Judged(dates, ids, results, d, i)
    && wins == |WinIds(dates, ids, results, d, i)|
  }

  /** The match-id part of one step of the last-day loop. */
  method NoteMatch(dates: seq<string>, ids: seq<Option<int>>, results: seq<string>, d: string, i: nat,
                   dailyIds: set<Option<int>>, processed: set<Option<int>>, wins: nat)
    returns (dailyIds': set<Option<int>>, processed': set<Option<int>>, wins': nat)
    requires i < |dates|
    requires MatchesSoFar(dates, ids, results, d, i, dailyIds, processed, wins)
    ensures MatchesSoFar(dates, ids, results, d, i + 1, dailyIds', processed', wins')
  {
    DayIdsStep(dates, ids, results, d, i);
    WinIdsStep(dates, ids, results, d, i);
    WinsJudged(dates, ids, results, d, i);
    dailyIds', processed', wins' := dailyIds, processed, wins;
    if dates[i] == d && i < |ids| {
      var id := ids[i];
      dailyIds' := dailyIds + {id};
      if id !in processed && i < |results| {
        if IsWin(results[i]) {
          assert id !in WinIds(dates, ids, results, d, i);
          wins' := wins + 1;
        }
        processed' := processed + {id};
      }
    }
  }

  /** The counters of the shots of day `d`, in one pass over the shots. */
  method CountDay(dates: seq<string>, ids: seq<Option<int>>, results: seq<string>, centri: seq<Value>, bordi: seq<Value>, d: string)
    returns (r: DayCounts)
    requires |dates| <= |centri| && |dates| <= |bordi|
    ensures var n := |dates|;
      && r.lastDate == Some(d)
      && r.totali == DayCount(dates, d, n)
      && r.centri == KindCount(dates, centri, bordi, d, Catalog.Centro, n)
      && r.bordi == KindCount(dates, centri, bordi, d, Catalog.Bordo, n)
      && r.miss == KindCount(dates, centri, bordi, d, Catalog.Miss, n)
      && r.matches == |DayIds(dates, ids, d, n)|
      && r.wins == |WinIds(dates, ids, results, d, n)|
  {
    var c, b, m, total, wins := 0, 0, 0, 0, 0;
    var dailyIds: set<Option<int>> := {};
    var processed: set<Option<int>> := {};
    assert WinIds(dates, ids, results, d, 0) == {};
    assert DayIds(dates, ids, d, 0) == {} && Judged(dates, ids, results, d, 0) == {};
    var i := 0;
    while i < |dates|
      invariant 0 <= i <= |dates|
      invariant total == DayCount(dates, d, i)
      invariant c == KindCount(dates, centri, bordi, d, Catalog.Centro, i)
      invariant b == KindCount(dates, centri, bordi, d, Catalog.Bordo, i)
      invariant m == KindCount(dates, centri, bordi, d, Catalog.Miss, i)
      invariant MatchesSoFar(dates, ids, results, d, i, dailyIds, processed, wins)
    {
      if dates[i] == d {
        total := total + 1;
        if IsTrue(centri[i]) {
          c := c + 1;
        } else if IsTrue(bordi[i]) {
          b := b + 1;
        } else {
          m := m + 1;
        }
      }
      dailyIds, processed, wins := NoteMatch(dates, ids, results, d, i, dailyIds, processed, wins);
      i := i + 1;
    }
    r := DayCounts(Some(d), c, b, m, total, |dailyIds|, wins);
  }

  /**
   * The counters of `calculate_daily_percentages`: each shot of the last
   * day is counted once and classified, its match id collected, and a
   * match's win judged once, on its first shot of the day with a result.
   */
  method DailyCounts(dates: seq<string>, ids: seq<Option<int>>, results: seq<string>, centri: seq<Value>, bordi: seq<Value>)
    returns (r: DayCounts)
    requires |dates| <= |centri| && |dates| <= |bordi|
    ensures dates == [] ==> r == DayCounts(None, 0, 0, 0, 0, 0, 0)
    ensures dates != [] ==> var d, n := MaxOf(dates), |dates|;
      && r.lastDate == Some(d)
      && r.totali == DayCount(dates, d, n)
      && r.centri == KindCount(dates, centri, bordi, d, Catalog.Centro, n)
      && r.bordi == KindCount(dates, centri, bordi, d, Catalog.Bordo, n)
      && r.miss == KindCount(dates, centri, bordi, d, Catalog.Miss, n)
      && r.matches == |DayIds(dates, ids, d, n)|
      && r.wins == |WinIds(dates, ids, results, d, n)|
  {
    if dates == [] {
      return DayCounts(None, 0, 0, 0, 0, 0, 0);
    }
    r := CountDay(dates, ids, results, centri, bordi, MaxOf(dates));
  }

  /** Every shot of the day is exactly one of centro, bordo or miss. */
  lemma {:induction false} DayPartition(dates: seq<string>, centri: seq<Value>, bordi: seq<Value>, d: string, n: nat)
    requires n <= |dates| && n <= |centri| && n <= |bordi|
    ensures KindCount(dates, centri, bordi, d, Catalog.Centro, n) + KindCount(dates, centri, bordi, d, Catalog.Bordo, n)
          + KindCount(dates, centri, bordi, d, Catalog.Miss, n) == DayCount(dates, d, n)
  {
    if n > 0 {
      DayPartition(dates, centri, bordi, d, n - 1);
    }
  }

  /** Wins are counted at most once per match, so they never outnumber the matches of the day. */
  lemma WinsWithinMatches(dates: seq<string>, ids: seq<Option<int>>, results: seq<string>, d: string, n: nat)
    requires n <= |dates|
    ensures |WinIds(dates, ids, results, d, n)| <= |DayIds(dates, ids, d, n)|
  {
    CupLists.SubsetNoLarger(WinIds(dates, ids, results, d, n), DayIds(dates, ids, d, n));
  }

  // ---------------------------------------------------------------------
  // calculate_shot_performance_metrics: shots per match

  /** Shots with match id `x` among the first `n`. */
  function Occurrences(ids: seq<Option<int>>, x: int, n: nat): nat
    requires n <= |ids|
  {
    if n == 0 then 0 else Occurrences(ids, x, n - 1) + (if ids[n - 1] == Some(x) then 1 else 0)
  }

  /** Shot `j` is the first with match id `x`, and it has a date entry. */
  predicate DatedAt(ids: seq<Option<int>>, dates: seq<string>, x: int, j: int)
  {
    0 <= j < |ids| && j < |dates| && ids[j] == Some(x) && forall k :: 0 <= k < j ==> ids[k] != Some(x)
  }

  /** A shot count is never more than the shots scanned. */
  lemma {:induction false} OccurrencesBound(ids: seq<Option<int>>, x: int, n: nat)
    requires n <= |ids|
    ensures Occurrences(ids, x, n) <= n
    ensures Occurrences(ids, x, n) > 0 <==> exists j :: 0 <= j < n && ids[j] == Some(x)
  {
    if n > 0 {
      OccurrencesBound(ids, x, n - 1);
    }
  }

  /** `shots_per_match` after the first `n` shots. */
  function CountsOf(ids: seq<Option<int>>, n: nat): map<int, nat>
    requires n <= |ids|
  {
    if n == 0 then map[]
    else
      var m := CountsOf(ids, n - 1);
      var id := ids[n - 1];
      if id.Some? && id.value != 0 then m[id.value := (if id.value in m then m[id.value] else 0) + 1] else m
  }

  /** `match_date_map` after the first `n` shots. */
  function DatesOf(ids: seq<Option<int>>, dates: seq<string>, n: nat): map<int, string>
    requires n <= |ids|
  {
    if n == 0 then map[]
    else
      var m := DatesOf(ids, dates, n - 1);
      var id := ids[n - 1];
      if id.Some? && id.value != 0 && id.value !in CountsOf(ids, n - 1) && n - 1 < |dates| then m[id.value := dates[n - 1]] else m
  }

  /** The count of a match id is the number of its shots. */
  lemma {:induction false} CountsOfOccurrences(ids: seq<Option<int>>, n: nat)
    requires n <= |ids|
    ensures forall x :: x in CountsOf(ids, n) <==> x != 0 && Occurrences(ids, x, n) > 0
    ensures forall x :: x in CountsOf(ids, n) ==> CountsOf(ids, n)[x] == Occurrences(ids, x, n)
  {
    if n > 0 {
      CountsOfOccurrences(ids, n - 1);
    }
  }

  /** A match is dated exactly when its first shot has a date, and by that date. */
  lemma {:induction false} DatesOfFirstShot(ids: seq<Option<int>>, dates: seq<string>, n: nat)
    requires n <= |ids|
    ensures forall x :: x in DatesOf(ids, dates, n) <==> x != 0 && exists j :: j < n && DatedAt(ids, dates, x, j)
    ensures forall x, j :: x != 0 && j < n && DatedAt(ids, dates, x, j) ==>
      x in DatesOf(ids, dates, n) && DatesOf(ids, dates, n)[x] == dates[j]
  {
    if n > 0 {
      DatesOfFirstShot(ids, dates, n - 1);
      CountsOfOccurrences(ids, n - 1);
      var id := ids[n - 1];
      if id.Some? && id.value != 0 {
        var x := id.value;
        OccurrencesBound(ids, x, n - 1);
        if x !in CountsOf(ids, n - 1) {
          assert forall k :: 0 <= k < n - 1 ==> ids[k] != Some(x);
          assert n - 1 < |dates| ==> DatedAt(ids, dates, x, n - 1);
        } else {
          assert forall j :: DatedAt(ids, dates, x, j) ==> j < n - 1;
        }
      }
    }
  }

  /** The counting loop: shots per truthy match id, and each match's date taken from its first shot. */
  method CountShots(ids: seq<Option<int>>, dates: seq<string>) returns (counts: map<int, nat>, matchDate: map<int, string>)
    ensures forall x :: x in counts <==> x != 0 && Some(x) in ids
    ensures forall x :: x in counts ==> counts[x] == Occurrences(ids, x, |ids|)
    ensures forall x :: x in matchDate <==> x != 0 && exists j :: DatedAt(ids, dates, x, j)
    ensures forall x, j :: x != 0 && DatedAt(ids, dates, x, j) ==> x in matchDate && matchDate[x] == dates[j]
  {
    counts, matchDate := map[], map[];
    var i := 0;
    while i < |ids|
      invariant 0 <= i <= |ids|
      invariant counts == CountsOf(ids, i) && matchDate == DatesOf(ids, dates, i)
    {
      var id := ids[i];
      if id.Some? && id.value != 0 {
        var x := id.value;
        if x !in counts {
          counts := counts[x := 0];
          if i < |dates| {
            matchDate := matchDate[x := dates[i]];
          }
        }
        counts := counts[x := counts[x] + 1];
      }
      i := i + 1;
    }
    CountsOfOccurrences(ids, |ids|);
    DatesOfFirstShot(ids, dates, |ids|);
    forall x | true
      ensures Occurrences(ids, x, |ids|) > 0 <==> Some(x) in ids
    {
      OccurrencesBound(ids, x, |ids|);
    }
  }

  /** Some member of a non-empty set (the order Python iterates a dict in plays no part in a maximum). */
  method Pick(s: set<int>) returns (x: int)
    requires s != {}
    ensures x in s
  {
    if forall y :: y !in s {
      // the set is non-empty
      assert false;
    } else {
      x :| x in s;
    }
  }

  /** The largest count among the ids that `keep` admits; 0 when it admits none. */
  method MaxCount(counts: map<int, nat>, keep: set<int>) returns (best: nat)
    ensures forall x :: x in counts && x in keep ==> counts[x] <= best
    ensures best == 0 || exists x :: x in counts && x in keep && counts[x] == best
  {
    best := 0;
    var rest := counts.Keys;
    while rest != {}
      invariant rest <= counts.Keys
      invariant forall x :: x in counts && x in keep && x !in rest ==> counts[x] <= best
      invariant best == 0 || exists x :: x in counts && x in keep && counts[x] == best
      decreases |rest|
    {
      var x := Pick(rest);
      if x in keep && counts[x] > best {
        best := counts[x];
      }
      rest := rest - {x};
    }
  }

  /**
   * The shot counting of `calculate_shot_performance_metrics`: shots per
   * match id (ids `None` and `0` are skipped), each match dated by its
   * first shot, then the largest count overall and among the matches
   * dated on the last day.
   */
  method ShotsPerMatch(ids: seq<Option<int>>, dates: seq<string>)
    returns (counts: map<int, nat>, matchDate: map<int, string>, maxHist: nat, maxDaily: nat)
    ensures forall x :: x in counts <==> x != 0 && Some(x) in ids
    ensures forall x :: x in counts ==> counts[x] == Occurrences(ids, x, |ids|)
    ensures forall x :: x in matchDate <==> x != 0 && exists j :: DatedAt(ids, dates, x, j)
    ensures forall x, j :: x != 0 && DatedAt(ids, dates, x, j) ==> x in matchDate && matchDate[x] == dates[j]
    ensures forall x :: x in counts ==> counts[x] <= maxHist
    ensures maxHist == 0 || exists x :: x in counts && counts[x] == maxHist
    ensures var last := LastDate(dates);
      && (forall x :: x in counts && x in matchDate && last != "" && matchDate[x] == last ==> counts[x] <= maxDaily)
      && (maxDaily == 0 || exists x :: x in counts && x in matchDate && last != "" && matchDate[x] == last && counts[x] == maxDaily)
    ensures maxDaily <= maxHist <= |ids|
  {
    counts, matchDate := CountShots(ids, dates);
    maxHist := MaxCount(counts, counts.Keys);
    var last := LastDate(dates);
    var daily := if last == "" then {} else set x | x in matchDate && matchDate[x] == last;
    maxDaily := MaxCount(counts, daily);
    if maxHist > 0 {
      var x :| x in counts && counts[x] == maxHist;
      OccurrencesBound(ids, x, |ids|);
    }
  }

  // ---------------------------------------------------------------------
  // Multi-hit labels

  /** Cells that are no multi-hit, once stripped and capitalized. */
  const SkipLabels: seq<string> := ["-", "1", "0", "None", "", "False", "Nan", "Singolo"]

  /** Plural label of a multi-hit, by count or by singular name. */
  const PluralNames: map<string, string> := map[
    "2" := "Doppi", "3" := "Tripli", "4" := "Quadrupli", "5" := "Quintupli", "6" := "Sestupli",
    "Doppio" := "Doppi", "Triplo" := "Tripli", "Quadruplo" := "Quadrupli",
    "Quintuplo" := "Quintupli", "Sestuplo" := "Sestupli"]

  /** The plural names of 2 to 6 cups hit at once. */
  const Plurals: seq<string> := ["Doppi", "Tripli", "Quadrupli", "Quintupli", "Sestupli"]

  /** The label a `bicchieri_multipli` cell is counted under, or `None` when it is skipped. */
  function MultiHitLabel(v: Value): Option<string>
  {
    LabelOfText(Capitalize(Strip(PyStr(v))))
  }

  /** The label of a stripped and capitalized cell. */
  function LabelOfText(s: string): Option<string>
  {
    if s in SkipLabels then None
    else if s in PluralNames then Some(PluralNames[s])
    else if IsDecimal(s) && DigitsValue(s) > 1 then Some(s + "-Hits")
    else None
  }

  /** The labels of a column, cell by cell. */
  function Tags(values: seq<Value>): (r: seq<Option<string>>)
    ensures |r| == |values|
    ensures forall j :: 0 <= j < |values| ==> r[j] == MultiHitLabel(values[j])
  {
    seq(|values|, j requires 0 <= j < |values| => MultiHitLabel(values[j]))
  }

  /** Cells among the first `n` tagged with `l`. */
  function TagCount(tags: seq<Option<string>>, l: string, n: nat): (r: nat)
    requires n <= |tags|
    ensures r <= n
  {
    if n == 0 then 0 else TagCount(tags, l, n - 1) + (if tags[n - 1] == Some(l) then 1 else 0)
  }

  lemma {:induction false} TagCountSeen(tags: seq<Option<string>>, l: string, n: nat)
    requires n <= |tags|
    ensures TagCount(tags, l, n) > 0 <==> Some(l) in tags[..n]
  {
    if n > 0 {
      TagCountSeen(tags, l, n - 1);
      assert tags[..n] == tags[..n - 1] + [tags[n - 1]];
    }
  }

  /** The label counters after the first `n` cells. */
  ghost predicate CountsAre(tags: seq<Option<string>>, counts: map<string, nat>, n: nat)
    requires n <= |tags|
  {
    && (forall l :: l in counts <==> TagCount(tags, l, n) > 0)
    && (forall l :: l in counts ==> counts[l] == TagCount(tags, l, n))
  }

  /** One step of the multi-hit loop. */
  method CountTag(tags: seq<Option<string>>, i: nat, tag: Option<string>, counts: map<string, nat>)
    returns (counts': map<string, nat>)
    requires i < |tags| && tag == tags[i]
    requires CountsAre(tags, counts, i)
    ensures CountsAre(tags, counts', i + 1)
  {
    counts' := counts;
    if tag.Some? {
      var l := tag.value;
      counts' := counts[l := (if l in counts then counts[l] else 0) + 1];
    }
  }

  /** The counting loop over the labels of the cells. */
  method CountTags(tags: seq<Option<string>>) returns (counts: map<string, nat>)
    ensures forall l :: l in counts <==> Some(l) in tags
    ensures forall l :: l in counts ==> counts[l] == TagCount(tags, l, |tags|)
  {
    counts := map[];
    var i := 0;
    while i < |tags|
      invariant 0 <= i <= |tags|
      invariant CountsAre(tags, counts, i)
    {
      counts := CountTag(tags, i, tags[i], counts);
      i := i + 1;
    }
    forall l | true
      ensures TagCount(tags, l, |tags|) > 0 <==> Some(l) in tags
    {
      TagCountSeen(tags, l, |tags|);
      assert tags[..|tags|] == tags;
    }
  }

  /** The multi-hit loop of the special metrics: one counter per label, bumped once per labelled cell. */
  method MultiHitCounts(values: seq<Value>) returns (counts: map<string, nat>)
    ensures forall l :: l in counts <==> Some(l) in Tags(values)
    ensures forall l :: l in counts ==> counts[l] == TagCount(Tags(values), l, |values|)
  {
    counts := CountTags(Tags(values));
  }

  /** Digits are left alone by `capitalize()`. */
  lemma CapitalizeDigits(s: string)
    requires IsDecimal(s)
    ensures Capitalize(s) == s
  {
  }

  /** An integer cell and its decimal text are normalized to the same text: the decimal itself. */
  lemma NormalizedCount(n: nat)
    ensures Capitalize(Strip(PyStr(Int(n)))) == NatToString(n)
    ensures Capitalize(Strip(PyStr(Str(NatToString(n))))) == NatToString(n)
  {
    var d := NatToString(n);
    assert PyStr(Int(n)) == d == PyStr(Str(d));
    NatToStringDigits(n);
    assert IsDigit(d[0]) && IsDigit(d[|d| - 1]);
    StripTrimmed(d);
    CapitalizeDigits(d);
  }

  /** Decimal text of more than one digit is no keyword: every keyword is one character long or starts with a letter. */
  lemma LongDecimalNoKeyword(d: string)
    requires IsDecimal(d) && |d| >= 2
    ensures LabelOfText(d) == if DigitsValue(d) > 1 then Some(d + "-Hits") else None
  {
    NotSkipped(d);
    NotPlural(d);
  }

  lemma NotSkipped(d: string)
    requires |d| >= 2 && IsDigit(d[0])
    ensures d !in SkipLabels
  {
    forall k | 0 <= k < |SkipLabels|
      ensures SkipLabels[k] != d
    {
      assert |SkipLabels[k]| < 2 || !IsDigit(SkipLabels[k][0]);
    }
  }

  lemma NotPlural(d: string)
    requires |d| >= 2 && IsDigit(d[0])
    ensures d !in PluralNames
  {
    forall k | k in PluralNames
      ensures k != d
    {
      assert |k| < 2 || !IsDigit(k[0]);
    }
  }

  lemma OneDigitValue(c: char)
    requires IsDigit(c)
    ensures IsDecimal([c]) && DigitsValue([c]) == c as int - '0' as int
  {
    assert [c][..0] == [];
  }

  /** Labels of the counts written as decimals. */
  lemma {:induction false} CountText(n: nat)
    ensures n <= 1 ==> LabelOfText(NatToString(n)) == None
    ensures 2 <= n <= 6 ==> LabelOfText(NatToString(n)) == Some(Plurals[n - 2])
    ensures n > 6 ==> LabelOfText(NatToString(n)) == Some(NatToString(n) + "-Hits")
  {
    var d := NatToString(n);
    NatToStringDigits(n);
    if n >= 10 {
      LongDecimalNoKeyword(d);
    } else if n == 7 {
      assert d == "7";
      OneDigitValue('7');
    } else if n == 8 {
      assert d == "8";
      OneDigitValue('8');
    } else if n == 9 {
      assert d == "9";
      OneDigitValue('9');
    } else {
      assert d == ["0123456789"[n]];
      assert n == 0 || n == 1 || 2 <= n <= 6;
    }
  }

  /**
   * A count written as a number, in an integer cell or as text, is
   * labelled by its plural name from 2 to 6 and as "N-Hits" above 6;
   * 0 and 1 are skipped.
   */
  lemma MultiHitOfCount(n: nat)
    ensures MultiHitLabel(Int(n)) == MultiHitLabel(Str(NatToString(n)))
    ensures n <= 1 ==> MultiHitLabel(Int(n)) == None
    ensures 2 <= n <= 6 ==> MultiHitLabel(Int(n)) == Some(Plurals[n - 2])
    ensures n > 6 ==> MultiHitLabel(Int(n)) == Some(NatToString(n) + "-Hits")
  {
    NormalizedCount(n);
    CountText(n);
  }

  /** Text that has no blank at either end and is already capitalized is normalized to itself. */
  lemma PlainText(s: string)
    requires s == [] || (!IsSpace(s[0]) && !IsSpace(s[|s| - 1]) && Upper(s[0]) == s[0])
    requires forall i :: 1 <= i < |s| ==> Lower(s[i]) == s[i]
    ensures Capitalize(Strip(s)) == s
  {
    StripTrimmed(s);
    CapitalizeFixed(s);
  }

  /**
   * The texts Python gives booleans and None: each normalizes to itself;
   * `False` and `None` are on the skip list, and `True` is neither skipped,
   * nor a plural name, nor a number, so none of them gets a label.
   */
  lemma KeywordTextsUnlabelled()
    ensures Capitalize(Strip("True")) == "True" && LabelOfText("True") == None
    ensures Capitalize(Strip("False")) == "False" && LabelOfText("False") == None
    ensures Capitalize(Strip("None")) == "None" && LabelOfText("None") == None
  {
    TrueNormalized();
    TrueUnlabelled();
    SkippedNormalized("False");
    SkippedNormalized("None");
  }

  lemma TrueNormalized()
    ensures Capitalize(Strip("True")) == "True"
  {
    PlainText("True");
  }

  lemma TrueUnlabelled()
    ensures LabelOfText("True") == None
  {
    assert !IsDigit("True"[0]);
  }

  lemma SkippedNormalized(s: string)
    requires s == "False" || s == "None"
    ensures Capitalize(Strip(s)) == s && LabelOfText(s) == None
  {
    PlainText(s);
  }

  /** A boolean or empty cell is never counted, whatever it holds. */
  lemma LiteralNoMultiHit(v: Value)
    requires v.Bool? || v.Null?
    ensures MultiHitLabel(v) == None
  {
    KeywordTextsUnlabelled();
  }

  // ---------------------------------------------------------------------
  // calculate_success_by_opp_cups: hits per number of opposing cups

  /** Hits made out of shots taken. */
  datatype Tally = Tally(made: nat, taken: nat)

  /** One more shot, made or not. */
  function Bump(t: Tally, hit: bool): Tally
  {
    Tally(if hit then t.made + 1 else t.made, t.taken + 1)
  }

  /** The opposing-cup counts that are tallied. */
  const CupRange: set<int> := {1, 2, 3, 4, 5, 6}

  /** A tally of nothing for each count of opposing cups. */
  const NoTallies: map<int, Tally> := map c | c in CupRange :: Tally(0, 0)

  /** `labels`: the opposing-cup counts from 6 down to 1. */
  const Labels: seq<int> := [6, 5, 4, 3, 2, 1]

  /** The opposing-cup count of a `cups_opp` cell, or `None` when the shot is skipped: no value, a placeholder, or text `int()` rejects. */
  function CupsOf(v: Value): Option<int>
  {
    if v.Null? || PyStr(v) in ["-", "None", "nan"] then None
    else match v
      case Str(s) => ParseInt(s)
      case Bool(b) => Some(if b then 1 else 0)
      case Int(i) => Some(i)
      case Null => None
  }

  /** The shot is tallied: its opposing-cup count is between 1 and 6. */
  predicate Counted(v: Value)
  {
    CupsOf(v).Some? && CupsOf(v).value in CupRange
  }

  /** The key of a tallied shot's format, or `None` when the shot has no format; "Altro" and "LineaVerticale" are the vertical line. */
  function FormatKey(v: Value): Option<string>
  {
    if !Truthy(v) || PyStr(v) in ["-", "None", "nan", ""] then None
    else
      var f := Strip(PyStr(v));
      Some(if f == "Altro" || f == "LineaVerticale" then Catalog.VerticalLine else f)
  }

  /** A tallied shot: its opposing-cup count, whether it hit, and its format key. */
  datatype Attempt = Attempt(cups: int, hit: bool, format: Option<string>)

  /** The validation part of one step of the loop: a shot against 1 to 6 cups is an attempt, any other is skipped. */
  function AttemptOf(cupsCell: Value, hitCell: Value, fmtCell: Value): (r: Option<Attempt>)
    ensures r.Some? ==> r.value.cups in CupRange
  {
    if Counted(cupsCell) then Some(Attempt(CupsOf(cupsCell).value, IsTrue(hitCell), FormatKey(fmtCell))) else None
  }

  /** The attempts of the rows of the three columns. */
  function CupAttempts(cups: seq<Value>, hits: seq<Value>, fmts: seq<Value>): (r: seq<Option<Attempt>>)
    requires |cups| <= |hits| && |cups| <= |fmts|
    ensures |r| == |cups|
  {
    seq(|cups|, j requires 0 <= j < |cups| => AttemptOf(cups[j], hits[j], fmts[j]))
  }

  /** Row `j`'s entry is that row's validated attempt. */
  lemma CupAttemptAt(cups: seq<Value>, hits: seq<Value>, fmts: seq<Value>, j: int)
    requires |cups| <= |hits| && |cups| <= |fmts| && 0 <= j < |cups|
    ensures CupAttempts(cups, hits, fmts)[j] == AttemptOf(cups[j], hits[j], fmts[j])
  {
  }

  /** The tally of the first `n` attempts against `c` cups. */
  function GeneralTally(atts: seq<Option<Attempt>>, c: int, n: nat): Tally
    requires n <= |atts|
  {
    if n == 0 then Tally(0, 0)
    else
      var t := GeneralTally(atts, c, n - 1);
      if atts[n - 1].Some? && atts[n - 1].value.cups == c then Bump(t, atts[n - 1].value.hit) else t
  }

  /** The tally of the first `n` attempts against `c` cups in format `f`. */
  function FormatTally(atts: seq<Option<Attempt>>, f: string, c: int, n: nat): Tally
    requires n <= |atts|
  {
    if n == 0 then Tally(0, 0)
    else
      var t := FormatTally(atts, f, c, n - 1);
      if atts[n - 1].Some? && atts[n - 1].value.cups == c && atts[n - 1].value.format == Some(f)
      then Bump(t, atts[n - 1].value.hit) else t
  }

  /** Formats of the first `n` attempts. */
  function FormatsSeen(atts: seq<Option<Attempt>>, n: nat): set<string>
    requires n <= |atts|
  {
    set j | 0 <= j < n && atts[j].Some? && atts[j].value.format.Some? :: atts[j].value.format.value
  }

  /** `general_stats` after the first `n` attempts. */
  predicate GeneralIs(atts: seq<Option<Attempt>>, general: map<int, Tally>, n: nat)
    requires n <= |atts|
  {
    general.Keys == CupRange && forall c :: c in general ==> general[c] == GeneralTally(atts, c, n)
  }

  /** `format_stats` after the first `n` attempts. */
  predicate FormatsAre(atts: seq<Option<Attempt>>, byFormat: map<string, map<int, Tally>>, n: nat)
    requires n <= |atts|
  {
    && byFormat.Keys == FormatsSeen(atts, n)
    && forall f :: f in byFormat ==>
         byFormat[f].Keys == CupRange && forall c :: c in byFormat[f] ==> byFormat[f][c] == FormatTally(atts, f, c, n)
  }

  /** `general_stats` and `format_stats` after the first `n` attempts. */
  predicate Tallied(atts: seq<Option<Attempt>>, general: map<int, Tally>, byFormat: map<string, map<int, Tally>>, n: nat)
    requires n <= |atts|
  {
    GeneralIs(atts, general, n) && FormatsAre(atts, byFormat, n)
  }

  lemma FormatsSeenStep(atts: seq<Option<Attempt>>, i: nat)
    requires i < |atts|
    ensures FormatsSeen(atts, i + 1)
         == if atts[i].Some? && atts[i].value.format.Some? then FormatsSeen(atts, i) + {atts[i].value.format.value}
            else FormatsSeen(atts, i)
  {
  }

  /** A format not seen yet has nothing tallied. */
  lemma {:induction false} FormatTallyUnseen(atts: seq<Option<Attempt>>, f: string, c: int, n: nat)
    requires n <= |atts|
    requires f !in FormatsSeen(atts, n)
    ensures FormatTally(atts, f, c, n) == Tally(0, 0)
  {
    if n > 0 {
      FormatsSeenStep(atts, n - 1);
      FormatTallyUnseen(atts, f, c, n - 1);
    }
  }

  /** The general part of one step of the loop. */
  method TallyGeneral(ghost atts: seq<Option<Attempt>>, i: nat, a: Option<Attempt>, general: map<int, Tally>)
    returns (general': map<int, Tally>)
    requires i < |atts| && a == atts[i]
    requires a.Some? ==> a.value.cups in CupRange
    requires GeneralIs(atts, general, i)
    ensures GeneralIs(atts, general', i + 1)
  {
    general' := general;
    if a.Some? {
      var c := a.value.cups;
      general' := general[c := Bump(general[c], a.value.hit)];
    }
  }

  /** The per-format part of one step of the loop. */
  method TallyFormat(ghost atts: seq<Option<Attempt>>, i: nat, a: Option<Attempt>, byFormat: map<string, map<int, Tally>>)
    returns (byFormat': map<string, map<int, Tally>>)
    requires i < |atts| && a == atts[i]
    requires a.Some? ==> a.value.cups in CupRange
    requires FormatsAre(atts, byFormat, i)
    ensures FormatsAre(atts, byFormat', i + 1)
  {
    byFormat' := byFormat;
    if a.Some? && a.value.format.Some? {
      var c := a.value.cups;
      var f := a.value.format.value;
      var row := if f in byFormat then byFormat[f] else NoTallies;
      if f !in byFormat {
        forall k | k in CupRange
          ensures FormatTally(atts, f, k, i) == Tally(0, 0)
        {
          FormatTallyUnseen(atts, f, k, i);
        }
      }
      byFormat' := byFormat[f := row[c := Bump(row[c], a.value.hit)]];
      FormatsAreTallied(atts, byFormat, i, row);
    } else {
      FormatsAreSkipped(atts, byFormat, i);
    }
  }

  /** A row with no format leaves every per-format tally as it was. */
  lemma FormatsAreSkipped(atts: seq<Option<Attempt>>, byFormat: map<string, map<int, Tally>>, i: nat)
    requires i < |atts| && !(atts[i].Some? && atts[i].value.format.Some?)
    requires FormatsAre(atts, byFormat, i)
    ensures FormatsAre(atts, byFormat, i + 1)
  {
    FormatsSeenStep(atts, i);
    forall g, k | g in byFormat && k in byFormat[g]
      ensures byFormat[g][k] == FormatTally(atts, g, k, i + 1)
    {
    }
  }

  /** An attempt with a format bumps that format's row, starting from `row`, and no other. */
  lemma FormatsAreTallied(atts: seq<Option<Attempt>>, byFormat: map<string, map<int, Tally>>, i: nat, row: map<int, Tally>)
    requires i < |atts| && atts[i].Some? && atts[i].value.format.Some? && atts[i].value.cups in CupRange
    requires FormatsAre(atts, byFormat, i)
    requires row.Keys == CupRange
    requires forall k :: k in row ==> row[k] == FormatTally(atts, atts[i].value.format.value, k, i)
    ensures var f, c := atts[i].value.format.value, atts[i].value.cups;
      FormatsAre(atts, byFormat[f := row[c := Bump(row[c], atts[i].value.hit)]], i + 1)
  {
    var f, c := atts[i].value.format.value, atts[i].value.cups;
    var row' := row[c := Bump(row[c], atts[i].value.hit)];
    var byFormat' := byFormat[f := row'];
    FormatsSeenStep(atts, i);
    assert byFormat'.Keys == FormatsSeen(atts, i + 1);
    forall g | g in byFormat'
      ensures byFormat'[g].Keys == CupRange
      ensures forall k :: k in byFormat'[g] ==> byFormat'[g][k] == FormatTally(atts, g, k, i + 1)
    {
      if g == f {
        forall k | k in row'
          ensures row'[k] == FormatTally(atts, f, k, i + 1)
        {
        }
      } else {
        forall k | k in byFormat[g]
          ensures byFormat[g][k] == FormatTally(atts, g, k, i + 1)
        {
        }
      }
    }
  }

  /**
   * The loop of `calculate_success_by_opp_cups`: a shot against 1 to 6
   * opposing cups is tallied under its cup count, and again under its
   * format when it has one; every other shot is skipped.
   */
  method SuccessByOppCups(cups: seq<Value>, hits: seq<Value>, fmts: seq<Value>)
    returns (general: map<int, Tally>, byFormat: map<string, map<int, Tally>>)
    requires |cups| <= |hits| && |cups| <= |fmts|
    ensures Tallied(CupAttempts(cups, hits, fmts), general, byFormat, |cups|)
  {
    general, byFormat := NoTallies, map[];
    NothingTallied(cups, hits, fmts);
    var i := 0;
    while i < |cups|
      invariant 0 <= i <= |cups|
      invariant Tallied(CupAttempts(cups, hits, fmts), general, byFormat, i)
    {
      general, byFormat := TallyRow(cups, hits, fmts, i, general, byFormat);
      i := i + 1;
    }
  }

  /** Before the loop every cup count stands at zero and no format is known. */
  lemma NothingTallied(cups: seq<Value>, hits: seq<Value>, fmts: seq<Value>)
    requires |cups| <= |hits| && |cups| <= |fmts|
    ensures Tallied(CupAttempts(cups, hits, fmts), NoTallies, map[], 0)
  {
    var atts := CupAttempts(cups, hits, fmts);
    assert FormatsSeen(atts, 0) == {};
  }

  /** One step of the loop: row `i` is validated and, when counted, tallied. */
  method TallyRow(cups: seq<Value>, hits: seq<Value>, fmts: seq<Value>, i: nat,
                  general: map<int, Tally>, byFormat: map<string, map<int, Tally>>)
    returns (general': map<int, Tally>, byFormat': map<string, map<int, Tally>>)
    requires i < |cups| <= |hits| && |cups| <= |fmts|
    requires Tallied(CupAttempts(cups, hits, fmts), general, byFormat, i)
    ensures Tallied(CupAttempts(cups, hits, fmts), general', byFormat', i + 1)
  {
    ghost var atts := CupAttempts(cups, hits, fmts);
    var a := AttemptOf(cups[i], hits[i], fmts[i]);
    CupAttemptAt(cups, hits, fmts, i);
    general' := TallyGeneral(atts, i, a, general);
    byFormat' := TallyFormat(atts, i, a, byFormat);
  }

  /** A tally never makes more hits than shots taken, overall and per format. */
  lemma {:induction false} MadeWithinTaken(atts: seq<Option<Attempt>>, f: string, c: int, n: nat)
    requires n <= |atts|
    ensures GeneralTally(atts, c, n).made <= GeneralTally(atts, c, n).taken
    ensures FormatTally(atts, f, c, n).made <= FormatTally(atts, f, c, n).taken
  {
    if n > 0 {
      MadeWithinTaken(atts, f, c, n - 1);
    }
  }

  /** A format's tally is part of the general tally: it never holds more shots or more hits. */
  lemma {:induction false} FormatWithinGeneral(atts: seq<Option<Attempt>>, f: string, c: int, n: nat)
    requires n <= |atts|
    ensures FormatTally(atts, f, c, n).taken <= GeneralTally(atts, c, n).taken
    ensures FormatTally(atts, f, c, n).made <= GeneralTally(atts, c, n).made
  {
    if n > 0 {
      FormatWithinGeneral(atts, f, c, n - 1);
    }
  }

  /** Attempts among the first `n` rows. */
  function CountedShots(atts: seq<Option<Attempt>>, n: nat): nat
    requires n <= |atts|
  {
    if n == 0 then 0 else CountedShots(atts, n - 1) + (if atts[n - 1].Some? then 1 else 0)
  }

  /** Every attempt lands under exactly one cup count: the general tallies add up to the attempts. */
  lemma {:induction false} GeneralCoversCounted(atts: seq<Option<Attempt>>, n: nat)
    requires n <= |atts|
    requires forall j :: 0 <= j < |atts| && atts[j].Some? ==> atts[j].value.cups in CupRange
    ensures GeneralTally(atts, 1, n).taken + GeneralTally(atts, 2, n).taken + GeneralTally(atts, 3, n).taken
          + GeneralTally(atts, 4, n).taken + GeneralTally(atts, 5, n).taken + GeneralTally(atts, 6, n).taken
         == CountedShots(atts, n)
  {
    if n > 0 {
      GeneralCoversCounted(atts, n - 1);
    }
  }

  /** Every format that gets a key has an attempt tallied under some cup count, so the `has_data` filter of the output drops no format. */
  lemma {:induction false} SeenFormatHasData(atts: seq<Option<Attempt>>, f: string, n: nat)
    requires n <= |atts|
    requires forall j :: 0 <= j < |atts| && atts[j].Some? ==> atts[j].value.cups in CupRange
    requires f in FormatsSeen(atts, n)
    ensures exists c :: c in CupRange && FormatTally(atts, f, c, n).taken > 0
  {
    FormatsSeenStep(atts, n - 1);
    var i := n - 1;
    if atts[i].Some? && atts[i].value.format == Some(f) {
      var c := atts[i].value.cups;
      assert FormatTally(atts, f, c, n).taken > 0;
    } else {
      SeenFormatHasData(atts, f, n - 1);
      var c :| c in CupRange && FormatTally(atts, f, c, n - 1).taken > 0;
      assert FormatTally(atts, f, c, n).taken > 0;
    }
  }
}
