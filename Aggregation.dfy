/**
 * The grading-end aggregator and scorer of judge/bridge/judgecallback.py (`on_grading_end`):
 * standalone cases are summed, each batch contributes the minimum of its points and the maximum
 * of its totals, time is summed, memory and severity are maximised, and the problem's points are
 * awarded in proportion, or all-or-nothing.
 */
module Aggregation {
  import opened Wrappers
  import opened Codes

  /** One stored test-case row (SubmissionTestCase). */
  datatype TestCase = TestCase(
    position: int,
    status: CaseStatus,
    time: real,
    memory: int,
    points: real,
    total: real,
    batch: Option<int>,
    feedback: string,
    output: string)

  /** `not case.batch`: no batch, or batch number 0, counts as a standalone case. */
  predicate Standalone(c: TestCase) {
    c.batch.None? || c.batch.value == 0
  }

  /** Whether `c` is a batched case of batch `k`. */
  predicate InBatch(c: TestCase, k: int) {
    !Standalone(c) && c.batch.value == k
  }

  function Min(a: real, b: real): real { if a <= b then a else b }
  function Max(a: real, b: real): real { if a >= b then a else b }
  function MaxInt(a: int, b: int): int { if a >= b then a else b }

  /**
   * The loop variables of `on_grading_end` after some cases: summed time, maximum memory,
   * standalone points and totals, the severity index of the worst status, and per batch
   * the pair (minimum points, maximum total).
   */
  datatype Tally = Tally(
    time: real,
    memory: int,
    points: real,
    total: real,
    status: nat,
    batches: map<int, (real, real)>)

  const Start: Tally := Tally(0.0, 0, 0.0, 0.0, 0, map[])

  /** The batch map after reading `c`: a batched case opens its batch's entry or narrows it. */
  function Merge(m: map<int, (real, real)>, c: TestCase): map<int, (real, real)> {
    if Standalone(c) then m
    else
      var k := c.batch.value;
      m[k := if k in m then (Min(m[k].0, c.points), Max(m[k].1, c.total)) else (c.points, c.total)]
  }

  /** The severity index after reading a case of status `s`. */
  function Worse(status: nat, s: CaseStatus): nat {
    if Severity(s) > status then Severity(s) else status
  }

  /** One iteration of the case loop. */
  function Step(t: Tally, c: TestCase): Tally {
    Tally(t.time + c.time, MaxInt(t.memory, c.memory),
          if Standalone(c) then t.points + c.points else t.points,
          if Standalone(c) then t.total + c.total else t.total,
          Worse(t.status, c.status), Merge(t.batches, c))
  }

  /** The loop variables after all of `cs`, taken in order. */
  function Fold(cs: seq<TestCase>): (t: Tally)
    ensures t.status < |StatusCodes|
  {
    if cs == [] then Start else Step(Fold(cs[..|cs| - 1]), cs[|cs| - 1])
  }

  /** Some batch number of a non-empty batch map. */
  ghost function Pick(m: map<int, (real, real)>): (k: int)
    requires exists k :: k in m
    ensures k in m
  {
    var k :| k in m; k
  }

  /** The sum of the (points, total) pairs of all batches. */
  ghost function SumBatches(m: map<int, (real, real)>): (real, real)
    decreases m.Keys
  {
    if forall k :: k !in m then (0.0, 0.0)
    else
      var k := Pick(m);
      var rest := SumBatches(m - {k});
      (m[k].0 + rest.0, m[k].1 + rest.1)
  }

  /** What grading end writes: time, memory, case points, case total and the result verdict. */
  datatype Totals = Totals(time: real, memory: int, points: real, total: real, result: CaseStatus)

  /** The aggregate of a submission's stored cases. */
  ghost function Aggregate(cs: seq<TestCase>): Totals {
    var t := Fold(cs);
    var b := SumBatches(t.batches);
    Totals(t.time, t.memory, t.points + b.0, t.total + b.1, StatusCodes[t.status])
  }

  // ---------------------------------------------------------------------------------------------
  // The summation over batches does not depend on which batch is taken first.

  /** Any batch may be added first: the sum does not depend on the order of the batches. */
  lemma {:induction false} SumBatchesRemove(m: map<int, (real, real)>, k: int)
    requires k in m
    ensures SumBatches(m).0 == m[k].0 + SumBatches(m - {k}).0
    ensures SumBatches(m).1 == m[k].1 + SumBatches(m - {k}).1
    decreases m.Keys
  {
    var j := Pick(m);
    if j != k {
      var mj, mk := m - {j}, m - {k};
      assert k in mj && j in mk;
      SumBatchesRemove(mj, k);
      SumBatchesRemove(mk, j);
      assert mj - {k} == mk - {j};
    }
  }

  /** The aggregator loop: one pass over the cases, then one pass over the batches. */
  method AggregateCases(cases: seq<TestCase>) returns (r: Totals)
    ensures r == Aggregate(cases)
  {
    var time, memory, points, total, status := 0.0, 0, 0.0, 0.0, 0;
    var batches: map<int, (real, real)> := map[];
    for i := 0 to |cases|
      invariant Fold(cases[..i]) == Tally(time, memory, points, total, status, batches)
    {
      var c := cases[i];
      assert cases[..i + 1][..i] == cases[..i];
      time := time + c.time;
      if Standalone(c) {
        points := points + c.points;
        total := total + c.total;
      } else {
        var k := c.batch.value;
        if k in batches {
          batches := batches[k := (Min(batches[k].0, c.points), Max(batches[k].1, c.total))];
        } else {
          batches := batches[k := (c.points, c.total)];
        }
      }
      memory := MaxInt(memory, c.memory);
      var s := Severity(c.status);
      if s > status {
        status := s;
      }
    }
    assert cases[..|cases|] == cases;
    var left := batches;
    while exists k :: k in left
      invariant points + SumBatches(left).0 == Fold(cases).points + SumBatches(batches).0
      invariant total + SumBatches(left).1 == Fold(cases).total + SumBatches(batches).1
      decreases left.Keys
    {
      var k :| k in left;
      SumBatchesRemove(left, k);
      points := points + left[k].0;
      total := total + left[k].1;
      left := left - {k};
    }
    r := Totals(time, memory, points, total, StatusCodes[status]);
  }

  // ---------------------------------------------------------------------------------------------
  // The result does not depend on the order in which the cases are read.

  lemma MergeCommutes(m: map<int, (real, real)>, a: TestCase, b: TestCase)
    ensures Merge(Merge(m, a), b) == Merge(Merge(m, b), a)
  {
    if !Standalone(a) && !Standalone(b) && a.batch.value != b.batch.value {
      var ab, ba := Merge(Merge(m, a), b), Merge(Merge(m, b), a);
      assert ab.Keys == ba.Keys;
      assert forall k :: k in ab ==> ab[k] == ba[k];
    }
  }

  lemma StepCommutes(t: Tally, a: TestCase, b: TestCase)
    ensures Step(Step(t, a), b) == Step(Step(t, b), a)
  {
    MergeCommutes(t.batches, a, b);
  }

  lemma FoldSnoc(cs: seq<TestCase>, c: TestCase)
    ensures Fold(cs + [c]) == Step(Fold(cs), c)
  {
    assert (cs + [c])[..|cs|] == cs;
  }

  /** Two adjacent cases may be read in either order. */
  lemma FoldSwap(cs: seq<TestCase>, a: TestCase, b: TestCase)
    ensures Fold(cs + [a, b]) == Fold(cs + [b, a])
  {
    assert cs + [a, b] == (cs + [a]) + [b] && cs + [b, a] == (cs + [b]) + [a];
    FoldSnoc(cs, a);
    FoldSnoc(cs + [a], b);
    FoldSnoc(cs, b);
    FoldSnoc(cs + [b], a);
    StepCommutes(Fold(cs), a, b);
  }

  /** Sequences with the same tally still have the same tally after one more case. */
  lemma FoldAppendSame(cs: seq<TestCase>, ds: seq<TestCase>, c: TestCase)
    requires Fold(cs) == Fold(ds)
    ensures Fold(cs + [c]) == Fold(ds + [c])
  {
    FoldSnoc(cs, c);
    FoldSnoc(ds, c);
  }

  lemma MoveShape(cs: seq<TestCase>, i: nat)
    requires i < |cs| - 1
    ensures var init, last := cs[..|cs| - 1], cs[|cs| - 1];
            var rest := init[..i] + init[i + 1..];
            && init[i] == cs[i]
            && cs == init + [last]
            && rest + [cs[i]] + [last] == rest + [cs[i], last]
            && rest + [last, cs[i]] == cs[..i] + cs[i + 1..] + [cs[i]]
  {
  }

  /** Reading case `i` last gives the same tally as reading the cases in their order. */
  lemma {:induction false} FoldMoveLast(cs: seq<TestCase>, i: nat)
    requires i < |cs|
    ensures Fold(cs) == Fold(cs[..i] + cs[i + 1..] + [cs[i]])
  {
    var n := |cs|;
    var init, last := cs[..n - 1], cs[n - 1];
    if i == n - 1 {
      assert cs[..i] + cs[i + 1..] + [cs[i]] == cs;
    } else {
      var rest, c := init[..i] + init[i + 1..], cs[i];
      MoveShape(cs, i);
      FoldMoveLast(init, i);
      FoldAppendSame(init, rest + [c], last);
      FoldSwap(rest, c, last);
    }
  }

  /** The tally of the cases depends only on the multiset of cases. */
  lemma {:induction false} FoldPermutation(cs: seq<TestCase>, ds: seq<TestCase>)
    requires multiset(cs) == multiset(ds)
    ensures Fold(cs) == Fold(ds)
    decreases |ds|
  {
    if ds != [] {
      var n := |ds|;
      var ds', d := ds[..n - 1], ds[n - 1];
      assert ds == ds' + [d];
      assert d in multiset(cs);
      var i :| 0 <= i < |cs| && cs[i] == d;
      var cs' := cs[..i] + cs[i + 1..];
      RemoveOne(cs, i);
      FoldMoveLast(cs, i);
      FoldPermutation(cs', ds');
      FoldSnoc(ds', d);
      FoldSnoc(cs', d);
    }
  }

  lemma RemoveOne(s: seq<TestCase>, i: nat)
    requires i < |s|
    ensures multiset(s[..i] + s[i + 1..]) == multiset(s) - multiset{s[i]}
  {
    assert s == s[..i] + [s[i]] + s[i + 1..];
  }

  /** Grading end gives the same totals for any order of the stored cases. */
  lemma AggregateOrderIndependent(cs: seq<TestCase>, ds: seq<TestCase>)
    requires multiset(cs) == multiset(ds)
    ensures Aggregate(cs) == Aggregate(ds)
  {
    FoldPermutation(cs, ds);
  }

  // ---------------------------------------------------------------------------------------------
  // What each part of the tally is.

  /** A batch number appears in the tally exactly when some case of that batch was read. */
  lemma {:induction false} BatchesPresent(cs: seq<TestCase>, k: int)
    ensures k in Fold(cs).batches <==> exists i :: 0 <= i < |cs| && InBatch(cs[i], k)
  {
    if cs != [] {
      var n := |cs|;
      var init, last := cs[..n - 1], cs[n - 1];
      BatchesPresent(init, k);
      assert k in Fold(cs).batches <==> k in Fold(init).batches || InBatch(last, k);
      assert forall i :: 0 <= i < n - 1 ==> cs[i] == init[i];
    }
  }

  /** The entry of a batch is no more than the points and no less than the total of any of its cases. */
  lemma {:induction false} BatchesAreBounds(cs: seq<TestCase>, k: int, i: nat)
    requires i < |cs| && InBatch(cs[i], k)
    ensures k in Fold(cs).batches
    ensures Fold(cs).batches[k].0 <= cs[i].points && cs[i].total <= Fold(cs).batches[k].1
  {
    var n := |cs|;
    var init, last := cs[..n - 1], cs[n - 1];
    if i < n - 1 {
      assert init[i] == cs[i];
      BatchesAreBounds(init, k, i);
      var t := Fold(init);
      assert Fold(cs) == Step(t, last);
    }
  }

  /**
   * The entry of a batch is attained: its points are those of one of its cases, and so is its
   * total. With the bounds, the entry is the minimum of the points and the maximum of the totals.
   */
  lemma {:induction false} BatchesAreMinMax(cs: seq<TestCase>, k: int)
    requires k in Fold(cs).batches
    ensures exists i :: 0 <= i < |cs| && InBatch(cs[i], k) && cs[i].points == Fold(cs).batches[k].0
    ensures exists i :: 0 <= i < |cs| && InBatch(cs[i], k) && cs[i].total == Fold(cs).batches[k].1
  {
    var n := |cs|;
    var init, last := cs[..n - 1], cs[n - 1];
    var t, e := Fold(init), Fold(cs).batches[k];
    if !InBatch(last, k) {
      assert e == t.batches[k];
      BatchesAreMinMax(init, k);
      var p :| 0 <= p < n - 1 && InBatch(init[p], k) && init[p].points == e.0;
      var q :| 0 <= q < n - 1 && InBatch(init[q], k) && init[q].total == e.1;
      assert cs[p] == init[p] && cs[q] == init[q];
    } else if k !in t.batches {
      assert e == (last.points, last.total);
      assert InBatch(cs[n - 1], k);
    } else {
      var prior := t.batches[k];
      assert e == (Min(prior.0, last.points), Max(prior.1, last.total));
      BatchesAreMinMax(init, k);
      if e.0 != last.points {
        var p :| 0 <= p < n - 1 && InBatch(init[p], k) && init[p].points == prior.0;
        assert cs[p] == init[p];
      }
      if e.1 != last.total {
        var q :| 0 <= q < n - 1 && InBatch(init[q], k) && init[q].total == prior.1;
        assert cs[q] == init[q];
      }
    }
  }

  /** Memory is the largest case memory, or 0 with no cases. */
  lemma {:induction false} MemoryIsMaximum(cs: seq<TestCase>)
    ensures Fold(cs).memory >= 0
    ensures forall i :: 0 <= i < |cs| ==> cs[i].memory <= Fold(cs).memory
    ensures Fold(cs).memory == 0 || exists i :: 0 <= i < |cs| && cs[i].memory == Fold(cs).memory
  {
    if cs != [] {
      var n := |cs|;
      var init := cs[..n - 1];
      var t, last := Fold(init), cs[n - 1];
      MemoryIsMaximum(init);
      assert Fold(cs).memory == MaxInt(t.memory, last.memory);
      assert forall i :: 0 <= i < n - 1 ==> cs[i] == init[i];
      if last.memory < t.memory && t.memory != 0 {
        var j :| 0 <= j < n - 1 && init[j].memory == t.memory;
        assert cs[j].memory == Fold(cs).memory;
      }
    }
  }

  /** The status index is the worst severity of any case, or that of SC with no cases. */
  lemma {:induction false} StatusIsWorst(cs: seq<TestCase>)
    ensures forall i :: 0 <= i < |cs| ==> Severity(cs[i].status) <= Fold(cs).status
    ensures Fold(cs).status == 0 || exists i :: 0 <= i < |cs| && Severity(cs[i].status) == Fold(cs).status
  {
    if cs != [] {
      var n := |cs|;
      var init := cs[..n - 1];
      var t, last := Fold(init), cs[n - 1];
      StatusIsWorst(init);
      assert Fold(cs).status == if Severity(last.status) > t.status then Severity(last.status) else t.status;
      assert forall i :: 0 <= i < n - 1 ==> cs[i] == init[i];
      if Severity(last.status) <= t.status && t.status != 0 {
        var j :| 0 <= j < n - 1 && Severity(init[j].status) == t.status;
        assert Severity(cs[j].status) == Fold(cs).status;
      }
    }
  }

  /** With no stored cases the result is SC, and everything else is zero. */
  lemma NoCasesGiveShortCircuit()
    ensures Aggregate([]) == Totals(0.0, 0, 0.0, 0.0, SC)
  {
    assert Fold([]) == Start;
  }

  /** Case points within their case totals keep the aggregate points within the aggregate total. */
  lemma {:induction false} PointsWithinTotal(cs: seq<TestCase>)
    requires forall i :: 0 <= i < |cs| ==> 0.0 <= cs[i].points <= cs[i].total
    ensures 0.0 <= Aggregate(cs).points <= Aggregate(cs).total
  {
    FoldWithinTotal(cs);
    SumBatchesWithin(Fold(cs).batches);
  }

  lemma {:induction false} FoldWithinTotal(cs: seq<TestCase>)
    requires forall i :: 0 <= i < |cs| ==> 0.0 <= cs[i].points <= cs[i].total
    ensures 0.0 <= Fold(cs).points <= Fold(cs).total
    ensures forall k :: k in Fold(cs).batches ==> 0.0 <= Fold(cs).batches[k].0 <= Fold(cs).batches[k].1
  {
    if cs != [] {
      var n := |cs|;
      FoldWithinTotal(cs[..n - 1]);
    }
  }

  lemma {:induction false} SumBatchesWithin(m: map<int, (real, real)>)
    requires forall k :: k in m ==> 0.0 <= m[k].0 <= m[k].1
    ensures 0.0 <= SumBatches(m).0 <= SumBatches(m).1
    decreases m.Keys
  {
    if exists k :: k in m {
      var k :| k in m;
      SumBatchesRemove(m, k);
      SumBatchesWithin(m - {k});
    }
  }

  // ---------------------------------------------------------------------------------------------
  // Scoring.

  /**
   * The points awarded for `points` out of `total` on a problem worth `full`: in proportion when
   * the total is positive, else 0; without partial credit anything but the full points becomes 0.
   */
  function Score(points: real, total: real, full: real, partial: bool): (r: real)
    ensures !partial ==> r == 0.0 || r == full
    ensures !partial && (total <= 0.0 || points / total * full != full) ==> r == 0.0
    ensures total > 0.0 && points == total ==> r == full
    ensures total <= 0.0 ==> r == 0.0
    ensures partial && total > 0.0 ==> r == points / total * full
    ensures 0.0 <= points <= total && 0.0 <= full ==> 0.0 <= r <= full
  {
    var proportional := if total > 0.0 then points / total * full else 0.0;
    assert total > 0.0 && points == total ==> points / total == 1.0;
    if !partial && proportional != full then 0.0 else proportional
  }

  /** 9.5 out of 10 on an all-or-nothing problem worth 10 gives nothing; 10 out of 10 gives 10. */
  lemma AllOrNothingExamples()
    ensures Score(9.5, 10.0, 10.0, false) == 0.0
    ensures Score(10.0, 10.0, 10.0, false) == 10.0
  {
  }

  /** A batch with points [3, 5] and totals [5, 5] contributes (3, 5), in either order. */
  lemma BatchExample(a: TestCase, b: TestCase)
    requires a.batch == b.batch == Some(1)
    requires a.points == 3.0 && b.points == 5.0 && a.total == 5.0 && b.total == 5.0
    ensures Fold([a, b]).batches == Fold([b, a]).batches == map[1 := (3.0, 5.0)]
  {
    assert [a, b][..1] == [a] && [a][..0] == [];
    assert [b, a][..1] == [b] && [b][..0] == [];
    assert Fold([a]).batches == map[1 := (3.0, 5.0)];
    assert Fold([b]).batches == map[1 := (5.0, 5.0)];
  }
}
