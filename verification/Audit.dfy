/** The folding audit log of internal/esxi/executor.go. */
module Audit {
  import opened Text

  /** `stamp` stands for the time and duration; `runs` counts the commands folded into the event. */
  datatype Event = Event(category: string, command: string, exitCode: int, error: string, stamp: int, runs: nat)

  const LIMIT: nat := 500

  /** A successful poll. */
  predicate Poll(e: Event)
  {
    e.error == "" && e.exitCode == 0 && (e.category == "poll-detached-clone" || e.category == "datastores")
  }

  /** The same command with the same outcome. */
  predicate Like(a: Event, b: Event)
  {
    a.category == b.category && a.command == b.command && a.exitCode == b.exitCode && a.error == b.error
  }

  /** An event is folded into an equal one that is the last, or that only successful polls follow. */
  predicate Folds(s: seq<Event>, e: Event, i: nat)
  {
    i < |s| && Like(s[i], e) && forall k :: i < k < |s| ==> Poll(s[k]) && Poll(e) && !Like(s[k], e)
  }

  /** At most one event fits. */
  lemma FoldIsUnique(s: seq<Event>, e: Event, i: nat, j: nat)
    requires Folds(s, e, i) && Folds(s, e, j)
    ensures i == j
  {
  }

  function Moved(s: seq<Event>, e: Event, i: nat): seq<Event>
    requires i < |s|
  {
    s[..i] + s[i + 1..] + [e.(runs := s[i].runs + 1)]
  }

  function Appended(s: seq<Event>, e: Event): seq<Event>
  {
    s + [e.(runs := 1)]
  }

  /** The log after one more event, before the oldest ones go. */
  ghost function Folded(s: seq<Event>, e: Event): seq<Event>
  {
    if i: nat :| Folds(s, e, i) then Moved(s, e, i) else Appended(s, e)
  }

  function Gone(s: seq<Event>): seq<Event>
  {
    if |s| > LIMIT then s[..|s| - LIMIT] else []
  }

  function Last(s: seq<Event>): seq<Event>
  {
    if |s| > LIMIT then s[|s| - LIMIT..] else s
  }

  class Log {
    var events: seq<Event>

    constructor ()
      ensures events == []
    {
      events := [];
    }

    method Add(e: Event)
      requires |events| <= LIMIT
      modifies this
      ensures events == Last(Folded(old(events), e))
      ensures |events| <= LIMIT
    {
      var i := |events| - 1;
      while i >= 0
        invariant -1 <= i < |events|
        invariant forall k :: i < k < |events| ==> Poll(events[k]) && Poll(e) && !Like(events[k], e)
      {
        if Like(events[i], e) {
          assert Folds(events, e, i);
          forall j: nat | Folds(events, e, j) ensures j == i {
            FoldIsUnique(events, e, i, j);
          }
          events := Moved(events, e, i);
          return;
        }
        if !Poll(e) || !Poll(events[i]) {
          break;
        }
        i := i - 1;
      }
      assert forall j: nat :: !Folds(events, e, j);
      events := Appended(events, e);
      if |events| > LIMIT {
        events := events[|events| - LIMIT..];
      }
    }
  }

  // -----------------------------------------------------------------------------------------------
  // The log of a whole history

  /** The log after the whole history, and how many commands have left it with the oldest events. */
  ghost function Logged(h: seq<Event>): seq<Event>
  {
    if h == [] then [] else Last(Folded(Logged(h[..|h| - 1]), h[|h| - 1]))
  }

  ghost function Evicted(h: seq<Event>): nat
  {
    if h == [] then 0 else Evicted(h[..|h| - 1]) + Runs(Gone(Folded(Logged(h[..|h| - 1]), h[|h| - 1])))
  }

  function Runs(s: seq<Event>): nat
  {
    if s == [] then 0 else Runs(s[..|s| - 1]) + s[|s| - 1].runs
  }

  lemma {:induction false} RunsOfBoth(s: seq<Event>, t: seq<Event>)
    ensures Runs(s + t) == Runs(s) + Runs(t)
  {
    if t == [] {
      assert s + t == s;
    } else {
      assert (s + t)[..|s + t| - 1] == s + t[..|t| - 1];
      RunsOfBoth(s, t[..|t| - 1]);
    }
  }

  lemma RunsOfThree(a: seq<Event>, y: Event, b: seq<Event>, x: Event)
    ensures Runs(a + b + [x]) + y.runs == Runs(a + [y] + b) + x.runs
  {
    RunsOfBoth(a + b, [x]);
    RunsOfBoth(a, b);
    RunsOfBoth(a + [y], b);
    RunsOfBoth(a, [y]);
    RunsOfOne(x);
    RunsOfOne(y);
  }

  lemma RunsOfMoved(s: seq<Event>, e: Event, i: nat)
    requires i < |s|
    ensures Runs(Moved(s, e, i)) == Runs(s) + 1
  {
    RunsOfThree(s[..i], s[i], s[i + 1..], e.(runs := s[i].runs + 1));
    SplitAt(s, i);
  }

  lemma SplitAt(s: seq<Event>, i: nat)
    requires i < |s|
    ensures s == s[..i] + [s[i]] + s[i + 1..]
  {
  }

  lemma RunsOfOne(x: Event)
    ensures Runs([x]) == x.runs
  {
    assert [x][..0] == [];
  }

  lemma RunsOfFolded(s: seq<Event>, e: Event)
    ensures Runs(Folded(s, e)) == Runs(s) + 1
  {
    if i: nat :| Folds(s, e, i) {
      var j: nat :| Folds(s, e, j) && Folded(s, e) == Moved(s, e, j);
      RunsOfMoved(s, e, j);
    } else {
      RunsOfBoth(s, [e.(runs := 1)]);
      RunsOfOne(e.(runs := 1));
    }
  }

  lemma RunsOfLast(s: seq<Event>)
    ensures Runs(Last(s)) + Runs(Gone(s)) == Runs(s) && |Last(s)| <= LIMIT
  {
    RunsOfBoth(Gone(s), Last(s));
    assert s == Gone(s) + Last(s);
  }

  /** No command is lost without a trace: those in the log and those that left it are all there were. And the log keeps
      its limit. */
  lemma {:induction false} Conserved(h: seq<Event>)
    ensures Runs(Logged(h)) + Evicted(h) == |h| && |Logged(h)| <= LIMIT
  {
    if h != [] {
      var before := Logged(h[..|h| - 1]);
      Conserved(h[..|h| - 1]);
      RunsOfFolded(before, h[|h| - 1]);
      RunsOfLast(Folded(before, h[|h| - 1]));
    }
  }

  // -----------------------------------------------------------------------------------------------
  // What the entries mean

  /** The commands of the history from `p` up to `q` that are like `x`. */
  function Count(h: seq<Event>, p: nat, q: nat, x: Event): nat
    requires p <= q <= |h|
  {
    if p == q then 0 else Count(h, p, q - 1, x) + if Like(h[q - 1], x) then 1 else 0
  }

  /** An entry stands for all the commands like it in a piece of the history that ends with it: a stretch of successful
      polls, or else of nothing but this command. */
  ghost predicate Stands(h: seq<Event>, x: Event, p: nat)
  {
    && p <= x.stamp < |h| && Like(h[p], x) && Like(h[x.stamp], x) && Count(h, p, x.stamp + 1, x) == x.runs
    && forall k :: p <= k <= x.stamp ==> if Poll(x) then Poll(h[k]) else Like(h[k], x)
  }

  ghost predicate StandsFor(h: seq<Event>, x: Event)
  {
    exists p: nat :: Stands(h, x, p)
  }

  ghost predicate Standing(h: seq<Event>, s: seq<Event>)
  {
    forall i :: 0 <= i < |s| ==> StandsFor(h, s[i])
  }

  /** The entries are in the order of their latest command. */
  predicate Ordered(s: seq<Event>)
  {
    forall i, j :: 0 <= i < j < |s| ==> s[i].stamp < s[j].stamp
  }

  predicate PartedAfter(s: seq<Event>, i: nat)
  {
    exists j :: i < j < |s| && !Poll(s[j])
  }

  predicate LikeAfter(s: seq<Event>, i: nat)
    requires i < |s|
  {
    exists j :: i < j < |s| && Like(s[j], s[i])
  }

  predicate Seen(h: seq<Event>, s: seq<Event>, i: nat, n: nat)
    requires i < |s| && n < |h|
  {
    (!Poll(h[n]) ==> PartedAfter(s, i)) && (Like(h[n], s[i]) ==> LikeAfter(s, i))
  }

  /** What came after the latest command of an entry and would part it from the next like it, or is like it, is in the
      log behind it; and the latest command of all is in the last entry. */
  ghost predicate Behind(h: seq<Event>, s: seq<Event>)
  {
    && (forall i, n: nat :: 0 <= i < |s| && s[i].stamp < n < |h| ==> Seen(h, s, i, n))
    && (h != [] ==> s != [] && s[|s| - 1].stamp == |h| - 1)
  }

  /** Each stretch of successful polls holds one entry per category and command, and a command is never its own
      neighbour. */
  predicate Separate(s: seq<Event>)
  {
    forall i, j :: 0 <= i < j < |s| ==> Parted(s, i, j)
  }

  predicate Parted(s: seq<Event>, i: nat, j: nat)
    requires i < j < |s|
  {
    Like(s[i], s[j]) ==> exists k :: i < k < j && (!Poll(s[k]) || !Poll(s[j]))
  }

  ghost predicate Faithful(h: seq<Event>, s: seq<Event>)
  {
    Standing(h, s) && Ordered(s) && Behind(h, s) && Separate(s)
  }

  lemma {:induction false} CountStays(h: seq<Event>, e: Event, p: nat, q: nat, x: Event)
    requires p <= q <= |h|
    ensures Count(h + [e], p, q, x) == Count(h, p, q, x)
  {
    if p < q {
      CountStays(h, e, p, q - 1, x);
    }
  }

  lemma {:induction false} CountNoMore(h: seq<Event>, p: nat, q: nat, r: nat, x: Event)
    requires p <= q <= r <= |h| && forall n :: q <= n < r ==> !Like(h[n], x)
    ensures Count(h, p, r, x) == Count(h, p, q, x)
  {
    if q < r {
      CountNoMore(h, p, q, r - 1, x);
    }
  }

  lemma StandsStill(h: seq<Event>, e: Event, x: Event)
    requires StandsFor(h, x)
    ensures StandsFor(h + [e], x) && 0 <= x.stamp < |h|
  {
    var p: nat :| Stands(h, x, p);
    CountStays(h, e, p, x.stamp + 1, x);
    assert Stands(h + [e], x, p);
  }

  /** The entry of a command that is folded into an earlier one. */
  lemma StandsLonger(h: seq<Event>, s: seq<Event>, e: Event, i: nat)
    requires Standing(h, s) && Behind(h, s) && Folds(s, e, i) && e.stamp == |h|
    ensures StandsFor(h + [e], e.(runs := s[i].runs + 1))
  {
    var x, y := s[i], e.(runs := s[i].runs + 1);
    assert StandsFor(h, x);
    var p: nat :| Stands(h, x, p);
    forall n: nat | x.stamp < n < |h| ensures Poll(h[n]) && !Like(h[n], x) && Poll(e) {
      assert Seen(h, s, i, n);
    }
    CountNoMore(h, p, x.stamp + 1, |h|, x);
    CountStays(h, e, p, |h|, x);
    SameCount(h + [e], p, |h|, x, y);
    assert Stands(h + [e], y, p);
  }

  lemma {:induction false} SameCount(h: seq<Event>, p: nat, q: nat, x: Event, y: Event)
    requires p <= q <= |h| && Like(x, y)
    ensures Count(h, p, q, x) == Count(h, p, q, y)
  {
    if p < q {
      SameCount(h, p, q - 1, x, y);
    }
  }

  lemma {:induction false} LastLike(s: seq<Event>, e: Event, a: nat) returns (m: nat)
    requires a < |s| && Like(s[a], e)
    ensures a <= m < |s| && Like(s[m], e) && forall k :: m < k < |s| ==> !Like(s[k], e)
    decreases |s| - a
  {
    m := a;
    if k: nat :| a < k < |s| && Like(s[k], e) {
      m := LastLike(s, e, k);
    }
  }

  lemma AppendedStays(h: seq<Event>, s: seq<Event>, e: Event)
    requires Faithful(h, s) && e.stamp == |h| && forall i: nat :: !Folds(s, e, i)
    ensures Faithful(h + [e], Appended(s, e))
  {
    AppendedStanding(h, s, e);
    AppendedSeparate(s, e);
    AppendedBehind(h, s, e);
  }

  lemma AppendedStanding(h: seq<Event>, s: seq<Event>, e: Event)
    requires Standing(h, s) && Ordered(s) && e.stamp == |h|
    ensures Standing(h + [e], Appended(s, e)) && Ordered(Appended(s, e))
  {
    var t, x := Appended(s, e), e.(runs := 1);
    forall i | 0 <= i < |s| ensures StandsFor(h + [e], s[i]) && s[i].stamp < |h| {
      StandsStill(h, e, s[i]);
    }
    assert Count(h + [e], |h|, |h|, x) == 0;
    assert Stands(h + [e], x, |h|);
  }

  lemma AppendedSeparate(s: seq<Event>, e: Event)
    requires Separate(s) && forall i: nat :: !Folds(s, e, i)
    ensures Separate(Appended(s, e))
  {
    var t := Appended(s, e);
    forall i, j | 0 <= i < j < |t| ensures Parted(t, i, j) {
      if !Like(t[i], t[j]) {
      } else if j < |s| {
        assert Parted(s, i, j);
        var k :| i < k < j && (!Poll(s[k]) || !Poll(s[j]));
        assert t[k] == s[k] && t[j] == s[j];
      } else {
        var m := LastLike(s, e, i);
        assert !Folds(s, e, m);
        var k :| m < k < |s| && (!Poll(s[k]) || !Poll(e));
        assert t[k] == s[k];
      }
    }
  }

  lemma AppendedBehind(h: seq<Event>, s: seq<Event>, e: Event)
    requires Behind(h, s) && Standing(h, s) && e.stamp == |h|
    ensures Behind(h + [e], Appended(s, e))
  {
    var t := Appended(s, e);
    forall i, n: nat | 0 <= i < |t| && t[i].stamp < n < |h| + 1 ensures Seen(h + [e], t, i, n) {
      assert i < |s| && t[|s|] == e.(runs := 1);
      if n < |h| {
        assert Seen(h, s, i, n);
        AppendedAfter(s, e, i);
      }
    }
  }

  lemma AppendedAfter(s: seq<Event>, e: Event, i: nat)
    requires i < |s|
    ensures PartedAfter(s, i) ==> PartedAfter(Appended(s, e), i)
    ensures LikeAfter(s, i) ==> LikeAfter(Appended(s, e), i)
  {
    var t := Appended(s, e);
    if PartedAfter(s, i) {
      var j :| i < j < |s| && !Poll(s[j]);
      assert t[j] == s[j];
    }
    if LikeAfter(s, i) {
      var j :| i < j < |s| && Like(s[j], s[i]);
      assert t[j] == s[j];
    }
  }

  /** Where the entry at `k` is after the one at `i` has moved to the end. */
  function To(i: nat, k: nat, n: nat): nat
    requires i < n && k < n
  {
    if k < i then k else if k == i then n - 1 else k - 1
  }

  lemma MovedIs(s: seq<Event>, e: Event, i: nat, k: nat)
    requires i < |s| && k < |s|
    ensures |Moved(s, e, i)| == |s| && Moved(s, e, i)[To(i, k, |s|)] == if k == i then e.(runs := s[i].runs + 1)
              else s[k]
  {
  }

  lemma MovedStanding(h: seq<Event>, s: seq<Event>, e: Event, i: nat)
    requires Standing(h, s) && Ordered(s) && Behind(h, s) && Folds(s, e, i) && e.stamp == |h|
    ensures Standing(h + [e], Moved(s, e, i)) && Ordered(Moved(s, e, i))
  {
    var t := Moved(s, e, i);
    StandsLonger(h, s, e, i);
    forall k | 0 <= k < |t| - 1 ensures StandsFor(h + [e], t[k]) && t[k].stamp < |h| {
      StandsStill(h, e, s[if k < i then k else k + 1]);
    }
  }

  lemma MovedAfter(s: seq<Event>, e: Event, i: nat, k: nat)
    requires Folds(s, e, i) && k < |s| && k != i
    ensures PartedAfter(s, k) ==> PartedAfter(Moved(s, e, i), To(i, k, |s|))
    ensures LikeAfter(s, k) ==> LikeAfter(Moved(s, e, i), To(i, k, |s|))
  {
    MovedIs(s, e, i, k);
    if PartedAfter(s, k) {
      var j: nat :| k < j < |s| && !Poll(s[j]);
      MovedIs(s, e, i, j);
      assert !Poll(Moved(s, e, i)[To(i, j, |s|)]);
    }
    if LikeAfter(s, k) {
      var j: nat :| k < j < |s| && Like(s[j], s[k]);
      MovedIs(s, e, i, j);
      assert Like(Moved(s, e, i)[To(i, j, |s|)], s[k]);
    }
  }

  lemma MovedBehind(h: seq<Event>, s: seq<Event>, e: Event, i: nat)
    requires Behind(h, s) && Standing(h, s) && Folds(s, e, i) && e.stamp == |h|
    ensures Behind(h + [e], Moved(s, e, i))
  {
    var t := Moved(s, e, i);
    MovedIs(s, e, i, i);
    forall j, n: nat | 0 <= j < |t| && t[j].stamp < n < |h| + 1 ensures Seen(h + [e], t, j, n) {
      assert j < |t| - 1 && Like(t[|s| - 1], e);
      if n < |h| {
        var k := if j < i then j else j + 1;
        assert Seen(h, s, k, n);
        MovedIs(s, e, i, k);
        MovedAfter(s, e, i, k);
      }
    }
  }

  lemma MovedSeparate(s: seq<Event>, e: Event, i: nat)
    requires Separate(s) && Folds(s, e, i)
    ensures Separate(Moved(s, e, i))
  {
    var t := Moved(s, e, i);
    MovedIs(s, e, i, i);
    forall a, b | 0 <= a < b < |t| && Like(t[a], t[b]) ensures Parted(t, a, b) {
      var c, d := if a < i then a else a + 1, if b < i then b else if b < |s| - 1 then b + 1 else i;
      MovedIs(s, e, i, c);
      MovedIs(s, e, i, d);
      assert Like(s[c], s[d]) && c < d;
      assert Parted(s, c, d);
      var k: nat :| c < k < d && (!Poll(s[k]) || !Poll(s[d]));
      MovedIs(s, e, i, k);
      assert k != i;
      assert t[To(i, k, |s|)] == s[k];
    }
  }

  lemma MovedStays(h: seq<Event>, s: seq<Event>, e: Event, i: nat)
    requires Faithful(h, s) && e.stamp == |h| && Folds(s, e, i)
    ensures Faithful(h + [e], Moved(s, e, i))
  {
    MovedStanding(h, s, e, i);
    MovedBehind(h, s, e, i);
    MovedSeparate(s, e, i);
  }

  lemma DropBehind(h: seq<Event>, s: seq<Event>, d: nat)
    requires Behind(h, s) && d < |s|
    ensures Behind(h, s[d..])
  {
    var t := s[d..];
    forall i, n: nat | 0 <= i < |t| && t[i].stamp < n < |h| ensures Seen(h, t, i, n) {
      assert Seen(h, s, i + d, n);
      DropAfter(s, d, i + d);
    }
  }

  lemma DropAfter(s: seq<Event>, d: nat, i: nat)
    requires d <= i < |s|
    ensures PartedAfter(s, i) ==> PartedAfter(s[d..], i - d)
    ensures LikeAfter(s, i) ==> LikeAfter(s[d..], i - d)
  {
    if PartedAfter(s, i) {
      var j :| i < j < |s| && !Poll(s[j]);
      assert s[d..][j - d] == s[j];
    }
    if LikeAfter(s, i) {
      var j :| i < j < |s| && Like(s[j], s[i]);
      assert s[d..][j - d] == s[j];
    }
  }

  lemma DropSeparate(s: seq<Event>, d: nat)
    requires Separate(s) && d < |s|
    ensures Separate(s[d..])
  {
    var t := s[d..];
    forall i, j | 0 <= i < j < |t| && Like(t[i], t[j]) ensures Parted(t, i, j) {
      assert t[i] == s[i + d] && t[j] == s[j + d] && Parted(s, i + d, j + d);
      var k :| i + d < k < j + d && (!Poll(s[k]) || !Poll(s[j + d]));
      assert t[k - d] == s[k] && t[j] == s[j + d];
    }
  }

  lemma DropStanding(h: seq<Event>, s: seq<Event>, d: nat)
    requires Standing(h, s) && Ordered(s) && d < |s|
    ensures Standing(h, s[d..]) && Ordered(s[d..])
  {
    var t := s[d..];
    forall i | 0 <= i < |t| ensures StandsFor(h, t[i]) {
      assert t[i] == s[i + d] && StandsFor(h, s[i + d]);
    }
    forall i, j | 0 <= i < j < |t| ensures t[i].stamp < t[j].stamp {
      assert t[i] == s[i + d] && t[j] == s[j + d];
    }
  }

  lemma DropStays(h: seq<Event>, s: seq<Event>, d: nat)
    requires Faithful(h, s) && d < |s|
    ensures Faithful(h, s[d..])
  {
    DropStanding(h, s, d);
    DropBehind(h, s, d);
    DropSeparate(s, d);
  }

  lemma LastStays(h: seq<Event>, s: seq<Event>)
    requires Faithful(h, s)
    ensures Faithful(h, Last(s))
  {
    if |s| > LIMIT {
      var d := |s| - LIMIT;
      DropStays(h, s, d);
      assert Last(s) == s[d..];
    } else {
      assert Last(s) == s;
    }
  }

  lemma FoldedStays(h: seq<Event>, s: seq<Event>, e: Event)
    requires Faithful(h, s) && e.stamp == |h|
    ensures Faithful(h + [e], Folded(s, e))
  {
    if i: nat :| Folds(s, e, i) {
      var j: nat :| Folds(s, e, j) && Folded(s, e) == Moved(s, e, j);
      MovedStays(h, s, e, j);
    } else {
      AppendedStays(h, s, e);
    }
  }

  /** Whatever the history, the log is faithful to it: it is in the order of the latest commands; each stretch of
      successful polls holds one entry per category and command; and no entry is folded across a failed command or
      one that is not a poll. */
  lemma {:induction false} LogIsFaithful(h: seq<Event>)
    requires forall n :: 0 <= n < |h| ==> h[n].stamp == n
    ensures Faithful(h, Logged(h))
  {
    if h != [] {
      var front, e := h[..|h| - 1], h[|h| - 1];
      assert h == front + [e];
      LogIsFaithful(front);
      LogStep(front, Logged(front), e);
    }
  }

  lemma LogStep(h: seq<Event>, s: seq<Event>, e: Event)
    requires Faithful(h, s) && e.stamp == |h|
    ensures Faithful(h + [e], Last(Folded(s, e)))
  {
    FoldedStays(h, s, e);
    LastStays(h + [e], Folded(s, e));
  }
}
