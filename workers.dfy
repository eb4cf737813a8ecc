/**
 * The worker result tally (workers.c): one slot per worker, each with its win/loss/draw
 * counters, and the operation that records one result and recomputes the totals over
 * all slots. The mutex that serialises `workers_add_result` is not modelled: each call
 * is one sequential step, and any interleaving of calls is some order of those steps.
 */
module Workers {

  /** The counters of a `Worker`: its index in the pool and its win/loss/draw counts. */
  datatype Worker = Worker(id: int, wldCount: seq<int>)

  /** A slot as `calloc` leaves it, before its id is set. */
  const Zeroed := Worker(0, [0, 0, 0])

  /** One call of `workers_add_result`: the slot it names and the result category. */
  datatype Report = Report(slot: nat, wld: nat)

  /** Slot `i` has id `i` and three counters, none negative. */
  ghost predicate WellFormed(s: seq<Worker>)
  {
    forall i | 0 <= i < |s| ::
      && s[i].id == i
      && |s[i].wldCount| == 3
      && forall j | 0 <= j < 3 :: s[i].wldCount[j] >= 0
  }

  /** Counter `j` of a slot, 0 where the slot has none. */
  function Count(w: Worker, j: nat): int
  {
    if j < |w.wldCount| then w.wldCount[j] else 0
  }

  /** Counter `j` summed over the slots. */
  function Total(s: seq<Worker>, j: nat): int
  {
    if s == [] then 0 else Total(s[..|s| - 1], j) + Count(s[|s| - 1], j)
  }

  /** The three totals, in the order win, loss, draw. */
  function Totals(s: seq<Worker>): seq<int>
  {
    [Total(s, 0), Total(s, 1), Total(s, 2)]
  }

  /** The slots `workers_new(n)` leaves: ids 0..n-1 and every counter zero. */
  function Fresh(n: nat): (s: seq<Worker>)
    ensures |s| == n
    ensures WellFormed(s)
    ensures forall i, j | 0 <= i < n && 0 <= j < 3 :: s[i].wldCount[j] == 0
  {
    seq(n, i => Worker(i, [0, 0, 0]))
  }

  /** What `worker->wldCount[wld]++` does to the slots: one counter up by one. */
  function Record(s: seq<Worker>, w: nat, wld: nat): (r: seq<Worker>)
    requires w < |s| && wld < |s[w].wldCount|
    ensures |r| == |s|
    ensures forall i | 0 <= i < |r| :: r[i].id == s[i].id && |r[i].wldCount| == |s[i].wldCount|
    ensures forall i, j | 0 <= i < |r| && 0 <= j < |r[i].wldCount| ::
      r[i].wldCount[j] == s[i].wldCount[j] + (if i == w && j == wld then 1 else 0)
    ensures WellFormed(s) ==> WellFormed(r)
  {
    s[w := s[w].(wldCount := s[w].wldCount[wld := s[w].wldCount[wld] + 1])]
  }

  /** Recording a result raises the total of its category by one and no other total. */
  lemma {:induction false} TotalRecord(s: seq<Worker>, w: nat, wld: nat, j: nat)
    requires w < |s| && wld < |s[w].wldCount|
    ensures Total(Record(s, w, wld), j) == Total(s, j) + (if j == wld then 1 else 0)
    decreases |s|
  {
    var r := Record(s, w, wld);
    var n := |s| - 1;
    if w == n {
      assert r[..n] == s[..n];
    } else {
      assert r[..n] == Record(s[..n], w, wld);
      TotalRecord(s[..n], w, wld, j);
    }
  }

  /** Every total of slots that are all zero is zero. */
  lemma {:induction false} TotalFresh(n: nat, j: nat)
    ensures Total(Fresh(n), j) == 0
  {
    if n > 0 {
      assert Fresh(n)[..n - 1] == Fresh(n - 1);
      TotalFresh(n - 1, j);
    }
  }

  /** A total of well-formed slots is never negative. */
  lemma {:induction false} TotalNonNegative(s: seq<Worker>, j: nat)
    requires WellFormed(s)
    ensures Total(s, j) >= 0
    decreases |s|
  {
    if s != [] {
      var n := |s| - 1;
      assert WellFormed(s[..n]) by {
        forall i | 0 <= i < n
          ensures s[..n][i] == s[i]
        {
        }
      }
      TotalNonNegative(s[..n], j);
    }
  }

  /** A report that names an existing slot and one of the three categories. */
  predicate Acceptable(s: seq<Worker>, e: Report)
  {
    e.slot < |s| && e.wld < 3
  }

  /** The slots after the reports, recorded one after another in the given order. */
  function Tally(s: seq<Worker>, events: seq<Report>): (r: seq<Worker>)
    requires WellFormed(s)
    requires forall k | 0 <= k < |events| :: Acceptable(s, events[k])
    ensures |r| == |s| && WellFormed(r)
    decreases |events|
  {
    if events == [] then s
    else
      assert Acceptable(s, events[0]);
      var r := Record(s, events[0].slot, events[0].wld);
      assert forall k | 0 <= k < |events[1..]| :: Acceptable(r, events[1..][k]) by {
        forall k | 0 <= k < |events[1..]|
          ensures Acceptable(r, events[1..][k])
        {
          assert events[1..][k] == events[k + 1];
          assert Acceptable(s, events[k + 1]);
        }
      }
      Tally(r, events[1..])
  }

  /** How many of the reports are of category `j`. */
  function Occurrences(events: seq<Report>, j: nat): (c: nat)
    ensures c <= |events|
  {
    if events == [] then 0
    else (if events[0].wld == j then 1 else 0) + Occurrences(events[1..], j)
  }

  /**
   * Each total after a series of reports is the total before plus the number of reports
   * of that category: no report is lost and none is counted twice, whichever slots they name.
   */
  lemma {:induction false} TallyTotals(s: seq<Worker>, events: seq<Report>, j: nat)
    requires WellFormed(s)
    requires forall k | 0 <= k < |events| :: Acceptable(s, events[k])
    ensures Total(Tally(s, events), j) == Total(s, j) + Occurrences(events, j)
    decreases |events|
  {
    if events != [] {
      var e := events[0];
      TotalRecord(s, e.slot, e.wld, j);
      TallyTotals(Record(s, e.slot, e.wld), events[1..], j);
    }
  }

  /** Counting over two runs of reports is counting over each. */
  lemma {:induction false} OccurrencesConcat(a: seq<Report>, b: seq<Report>, j: nat)
    ensures Occurrences(a + b, j) == Occurrences(a, j) + Occurrences(b, j)
    decreases |a|
  {
    if a == [] {
      assert a + b == b;
    } else {
      assert (a + b)[1..] == a[1..] + b;
      OccurrencesConcat(a[1..], b, j);
    }
  }

  /** Reordering the reports does not change how many there are of each category. */
  lemma {:induction false} OccurrencesPermutation(a: seq<Report>, b: seq<Report>, j: nat)
    requires multiset(a) == multiset(b)
    ensures Occurrences(a, j) == Occurrences(b, j)
    decreases |a|
  {
    if a != [] {
      var x := a[0];
      assert x in multiset(b);
      var k :| 0 <= k < |b| && b[k] == x;
      var rest := b[..k] + b[k + 1..];
      assert b == b[..k] + [x] + b[k + 1..];
      assert a == [x] + a[1..];
      assert multiset(a) == multiset([x]) + multiset(a[1..]);
      assert multiset(b) == multiset(b[..k]) + multiset([x]) + multiset(b[k + 1..]);
      assert multiset(rest) == multiset(b[..k]) + multiset(b[k + 1..]);
      assert multiset(a[1..]) == multiset(a) - multiset([x]);
      assert multiset(rest) == multiset(b) - multiset([x]);
      OccurrencesPermutation(a[1..], rest, j);
      OccurrencesConcat(b[..k] + [x], b[k + 1..], j);
      OccurrencesConcat(b[..k], [x], j);
      OccurrencesConcat(b[..k], b[k + 1..], j);
    } else {
      assert |b| == |multiset(b)|;
    }
  }

  /**
   * The totals after a set of reports do not depend on the order in which the calls
   * were serialised.
   */
  lemma TallyOrderIrrelevant(s: seq<Worker>, a: seq<Report>, b: seq<Report>)
    requires WellFormed(s)
    requires forall k | 0 <= k < |a| :: Acceptable(s, a[k])
    requires forall k | 0 <= k < |b| :: Acceptable(s, b[k])
    requires multiset(a) == multiset(b)
    ensures Totals(Tally(s, a)) == Totals(Tally(s, b))
  {
    forall j | 0 <= j < 3
      ensures Total(Tally(s, a), j) == Total(Tally(s, b), j)
    {
      TallyTotals(s, a, j);
      TallyTotals(s, b, j);
      OccurrencesPermutation(a, b, j);
    }
  }

  /** The module's globals: the slot array `Workers` and `WorkersCount`. */
  class Pool {
    var workers: array?<Worker>
    var count: int
    /** How many results were recorded since `workers_new`. */
    ghost var recorded: nat

    /**
     * No array and no slots, or one well-formed slot per worker whose counters add up
     * to the number of results recorded.
     */
    ghost predicate Valid()
      reads this, workers
    {
      && (workers == null ==> count == 0 && recorded == 0)
      && (workers != null ==>
            && workers.Length == count
            && WellFormed(workers[..])
            && Total(workers[..], 0) + Total(workers[..], 1) + Total(workers[..], 2) == recorded)
    }

    /** The state before `workers_new`: `Workers` is NULL and `WorkersCount` is 0. */
    constructor ()
      ensures Valid() && workers == null && count == 0
    {
      workers := null;
      count := 0;
      recorded := 0;
    }

    /** workers_new: `n` zeroed slots from `calloc`, then each slot's id set to its index. */
    method New(n: nat)
      modifies this
      ensures Valid() && workers != null && fresh(workers)
      ensures count == n && workers[..] == Fresh(n) && recorded == 0
    {
      var a := new Worker[n](_ => Zeroed);
      for i := 0 to n
        invariant forall k | 0 <= k < i :: a[k] == Worker(k, [0, 0, 0])
        invariant forall k | i <= k < n :: a[k] == Zeroed
      {
        a[i] := a[i].(id := i);
      }
      workers := a;
      count := n;
      recorded := 0;
      assert workers[..] == Fresh(n);
      TotalFresh(n, 0);
      TotalFresh(n, 1);
      TotalFresh(n, 2);
    }

    /** workers_delete: the array is released and no slot is left. */
    method Delete()
      modifies this
      ensures Valid() && workers == null && count == 0
    {
      workers := null;
      count := 0;
      recorded := 0;
    }

    /**
     * workers_add_result: adds the result `wld` to slot `w`, then refreshes the caller's
     * `wldCount[3]` as the sum over all slots.
     */
    method AddResult(w: nat, wld: nat, totals: array<int>)
      requires Valid() && workers != null && w < count && wld < 3 && totals.Length == 3
      modifies workers, totals, this`recorded
      ensures Valid()
      ensures workers[..] == Record(old(workers[..]), w, wld)
      ensures totals[..] == Totals(workers[..])
      ensures recorded == old(recorded) + 1
    {
      workers[w] := workers[w].(wldCount := workers[w].wldCount[wld := workers[w].wldCount[wld] + 1]);
      assert workers[..] == Record(old(workers[..]), w, wld);
      TotalRecord(old(workers[..]), w, wld, 0);
      TotalRecord(old(workers[..]), w, wld, 1);
      TotalRecord(old(workers[..]), w, wld, 2);
      recorded := recorded + 1;
      SumSlots(workers, totals);
    }
  }

  /**
   * The refresh loop of workers_add_result: the three totals are cleared, then each
   * slot's counters are added to them, one category at a time.
   */
  method SumSlots(workers: array<Worker>, totals: array<int>)
    requires totals.Length == 3
    requires forall i | 0 <= i < workers.Length :: |workers[i].wldCount| == 3
    modifies totals
    ensures totals[..] == Totals(workers[..])
  {
    totals[0], totals[1], totals[2] := 0, 0, 0;
    for i := 0 to workers.Length
      invariant forall j | 0 <= j < 3 :: totals[j] == Total(workers[..i], j)
    {
      assert workers[..i + 1][..i] == workers[..i];
      for j := 0 to 3
        invariant forall k | 0 <= k < j :: totals[k] == Total(workers[..i + 1], k)
        invariant forall k | j <= k < 3 :: totals[k] == Total(workers[..i], k)
      {
        totals[j] := totals[j] + workers[i].wldCount[j];
      }
    }
    assert workers[..workers.Length] == workers[..];
  }

  /**
   * What the caller of workers_add_result receives: the total of the reported category
   * is one more than before, the others are unchanged, and the three totals add up to
   * the number of results recorded so far.
   */
  lemma AddResultTotals(before: seq<Worker>, w: nat, wld: nat, recorded: nat)
    requires WellFormed(before) && w < |before| && wld < 3
    requires Total(before, 0) + Total(before, 1) + Total(before, 2) == recorded
    ensures forall j | 0 <= j < 3 ::
      Total(Record(before, w, wld), j) == Total(before, j) + (if j == wld then 1 else 0)
    ensures forall j | 0 <= j < 3 :: Total(Record(before, w, wld), j) >= 0
    ensures Total(Record(before, w, wld), 0) + Total(Record(before, w, wld), 1)
          + Total(Record(before, w, wld), 2) == recorded + 1
  {
    var after := Record(before, w, wld);
    forall j | 0 <= j < 3
      ensures Total(after, j) == Total(before, j) + (if j == wld then 1 else 0)
      ensures Total(after, j) >= 0
    {
      TotalRecord(before, w, wld, j);
      TotalNonNegative(after, j);
    }
  }

  /** Counters never decrease: every counter of every slot is at least what it was. */
  lemma CountersGrow(s: seq<Worker>, events: seq<Report>)
    requires WellFormed(s)
    requires forall k | 0 <= k < |events| :: Acceptable(s, events[k])
    ensures forall i, j | 0 <= i < |s| && 0 <= j < 3 :: Tally(s, events)[i].wldCount[j] >= s[i].wldCount[j]
    decreases |events|
  {
    if events != [] {
      var r := Record(s, events[0].slot, events[0].wld);
      CountersGrow(r, events[1..]);
    }
  }
}
