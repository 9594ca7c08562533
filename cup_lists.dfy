/**
 * The two list operations every revision applies to a team's cup labels:
 * dropping every label that was hit (`[c for c in cups if c not in hit]`)
 * and putting labels back one by one unless already present
 * (`if c not in current: current.append(c)`).
 */
module CupLists {
  import Strings

  /** `[c for c in cups if c not in removed]`: every copy of every removed label goes, the rest stay in order. */
  function RemoveAll(cups: seq<string>, removed: seq<string>): (r: seq<string>)
    ensures |r| <= |cups|
    ensures forall c :: c in r <==> c in cups && c !in removed
  {
    if cups == [] then []
    else (if cups[0] in removed then [] else [cups[0]]) + RemoveAll(cups[1..], removed)
  }

  /** Every copy of a removed label goes; every other label keeps its number of copies. */
  lemma {:induction false} RemoveAllCounts(cups: seq<string>, removed: seq<string>, c: string)
    ensures c in removed ==> multiset(RemoveAll(cups, removed))[c] == 0
    ensures c !in removed ==> multiset(RemoveAll(cups, removed))[c] == multiset(cups)[c]
    decreases |cups|
  {
    if cups != [] {
      RemoveAllCounts(cups[1..], removed, c);
      assert cups == [cups[0]] + cups[1..];
    }
  }

  lemma {:induction false} RemoveAllConcat(a: seq<string>, b: seq<string>, removed: seq<string>)
    ensures RemoveAll(a + b, removed) == RemoveAll(a, removed) + RemoveAll(b, removed)
    decreases |a|
  {
    if a == [] {
      assert a + b == b;
    } else {
      assert (a + b)[0] == a[0];
      assert (a + b)[1..] == a[1..] + b;
      RemoveAllConcat(a[1..], b, removed);
    }
  }

  /** Removing labels that are not in the list changes nothing. */
  lemma {:induction false} RemoveAllAbsent(cups: seq<string>, removed: seq<string>)
    requires forall c :: c in cups ==> c !in removed
    ensures RemoveAll(cups, removed) == cups
    decreases |cups|
  {
    if cups != [] {
      RemoveAllAbsent(cups[1..], removed);
      assert [cups[0]] + cups[1..] == cups;
    }
  }

  /** Removing a superset of a list's labels empties it. */
  lemma RemoveAllCovered(cups: seq<string>, removed: seq<string>)
    requires forall c :: c in cups ==> c in removed
    ensures RemoveAll(cups, removed) == []
  {
  }

  /**
   * Walks `labels` left to right and appends each one that the growing
   * list does not hold yet.
   */
  function AppendMissing(cups: seq<string>, labels: seq<string>): (r: seq<string>)
    ensures |cups| <= |r| <= |cups| + |labels|
    ensures r[..|cups|] == cups
    ensures forall c :: c in r <==> c in cups || c in labels
    decreases |labels|
  {
    if labels == [] then cups
    else
      var next := if labels[0] in cups then cups else cups + [labels[0]];
      var r := AppendMissing(next, labels[1..]);
      assert labels == [labels[0]] + labels[1..];
      assert r[..|cups|] == r[..|next|][..|cups|];
      r
  }

  /** Each appended label comes from `labels` and occurs nowhere before it. */
  lemma {:induction false} AppendMissingFresh(cups: seq<string>, labels: seq<string>, i: int)
    requires |cups| <= i < |AppendMissing(cups, labels)|
    ensures AppendMissing(cups, labels)[i] in labels
    ensures AppendMissing(cups, labels)[i] !in AppendMissing(cups, labels)[..i]
    decreases |labels|
  {
    var r := AppendMissing(cups, labels);
    assert labels == [labels[0]] + labels[1..];
    if labels[0] in cups {
      assert r == AppendMissing(cups, labels[1..]);
      AppendMissingFresh(cups, labels[1..], i);
    } else {
      var next := cups + [labels[0]];
      assert r == AppendMissing(next, labels[1..]);
      assert r[..|next|] == next;
      if i == |cups| {
        assert r[i] == labels[0];
        assert r[..i] == cups;
      } else {
        AppendMissingFresh(next, labels[1..], i);
      }
    }
  }

  /** The loop behind `AppendMissing`, as the source writes it. */
  method AppendEach(cups: seq<string>, labels: seq<string>) returns (r: seq<string>)
    ensures r == AppendMissing(cups, labels)
  {
    r := cups;
    var i := 0;
    while i < |labels|
      invariant 0 <= i <= |labels|
      invariant AppendMissing(r, labels[i..]) == AppendMissing(cups, labels)
    {
      assert labels[i..][1..] == labels[i + 1..];
      if labels[i] !in r {
        r := r + [labels[i]];
      }
      i := i + 1;
    }
  }

  /** Putting labels back and then removing the same labels is the same as only removing them. */
  lemma {:induction false} RemoveAfterAppend(cups: seq<string>, labels: seq<string>)
    ensures RemoveAll(AppendMissing(cups, labels), labels) == RemoveAll(cups, labels)
  {
    var r := AppendMissing(cups, labels);
    var tail := r[|cups|..];
    assert r == cups + tail;
    assert forall c :: c in tail ==> c in labels by {
      forall c | c in tail
        ensures c in labels
      {
        var k :| 0 <= k < |tail| && tail[k] == c;
        assert r[|cups| + k] == c;
        AppendMissingFresh(cups, labels, |cups| + k);
      }
    }
    RemoveAllConcat(cups, tail, labels);
    RemoveAllCovered(tail, labels);
  }

  /**
   * Undo then redo of the same shot: labels that had been removed from a
   * list, put back and removed again, leave exactly the original list.
   */
  lemma UndoThenRedo(cups: seq<string>, labels: seq<string>)
    requires forall c :: c in labels ==> c !in cups
    ensures RemoveAll(AppendMissing(cups, labels), labels) == cups
  {
    RemoveAfterAppend(cups, labels);
    RemoveAllAbsent(cups, labels);
  }

  /** `[x for x in text.split(',') if x]`: the cups that were already pending and got hit again. */
  function Rehits(text: string): seq<string>
  {
    NonEmpty(Strings.Split(text, ','))
  }

  function NonEmpty(pieces: seq<string>): (r: seq<string>)
    ensures forall x :: x in r <==> x in pieces && x != ""
  {
    if pieces == [] then []
    else (if pieces[0] == "" then [] else [pieces[0]]) + NonEmpty(pieces[1..])
  }

  /** `set(cups)`: the distinct labels of a list. */
  function Distinct(cups: seq<string>): set<string>
  {
    set c | c in cups
  }

  /** Removing labels from a list with more distinct labels than the removed list leaves at least one label. */
  lemma {:induction false} RemoveAllLeavesSome(cups: seq<string>, removed: seq<string>)
    requires |Distinct(cups)| > |Distinct(removed)|
    ensures RemoveAll(cups, removed) != []
  {
    var a, p := Distinct(cups), Distinct(removed);
    if a <= p {
      SubsetNoLarger(a, p);
      assert false;
    }
    var c :| c in a && c !in p;
    assert c in RemoveAll(cups, removed);
  }

  /** A subset is never larger than the set containing it. */
  lemma {:induction false} SubsetNoLarger<T>(a: set<T>, b: set<T>)
    requires a <= b
    ensures |a| <= |b|
    decreases |b|
  {
    if b != {} {
      var x :| x in b;
      SubsetNoLarger(a - {x}, b - {x});
    }
  }
}
