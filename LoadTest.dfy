/**
 * The batch-forming load test: a pool of remaining request counts per image
 * category, consumed batch by batch. Each batch holds at most `concurrency`
 * request slots; each slot picks a category by a circular scan from a random
 * start, decrements that category's count, and draws a cluster count and an
 * image number. Sending the batch is not part of this model; the random draws
 * arrive as a sequence of `Draw` values.
 */
module LoadTest {
  import opened Wrappers
  import opened Categories
  import opened PyText
  import opened PyValues

  // ---------------------------------------------------------------------------
  // Values

  /**
   * The random draws for one slot, in the order they are consumed:
   * `randint(0, 2)` for the scan's start, `randint(min_k, max_k)` for k and
   * `randint(1, 200)` for the image number.
   */
  datatype Draw = Draw(start: nat, k: int, n: int)

  /**
   * One request formed for a batch: the category it took from, its k, and the
   * image number drawn for its image name.
   */
  datatype Slot = Slot(category: nat, k: int, imageNumber: int)

  /**
   * The quota list `[small, medium, large]`: how many requests of each
   * category are still to be sent, indexed by category. The list always has
   * exactly `Count` entries.
   */
  type Pool = c: seq<int> | |c| == Count witness [0, 0, 0]

  /** `sum(counter)`. */
  function Sum(c: Pool): int
  {
    c[0] + c[1] + c[2]
  }

  predicate NonNegative(c: Pool)
  {
    c[0] >= 0 && c[1] >= 0 && c[2] >= 0
  }

  /** Some entry is not zero, which is what stops the scan. */
  predicate Available(c: Pool)
  {
    c[0] != 0 || c[1] != 0 || c[2] != 0
  }

  /** The pool at the end of the run, and the batches formed, in order. */
  datatype RunResult = RunResult(counts: Pool, batches: seq<seq<Slot>>)

  /** The parameter names of the `Test` initializer, in order. */
  const InitParameters: seq<string> := ["small", "medium", "large", "k_min", "k_max", "conccurent", "url"]

  /** A draw as the random generator produces it for a run with k-range [minK, maxK]. */
  predicate ValidDraw(d: Draw, minK: int, maxK: int)
  {
    d.start < Count && minK <= d.k <= maxK && 1 <= d.n <= 200
  }

  /** The message of the `ValueError` that `randint(a, b)` raises when `a > b`. */
  const EmptyRange: string := "empty range for randrange()"

  /** The image name a slot requests; it ends in ')', exactly as the load test writes it. */
  function ImageName(category: nat, n: int): string
    requires category < Count
  {
    Name(category) + "_" + IntToString(n) + ")"
  }

  // ---------------------------------------------------------------------------
  // The scan and one slot

  /**
   * The index the scan looks at after `e` steps from `start`, both below
   * `Count`: `(start + e) % Count`, written without the remainder.
   */
  function Visit(start: nat, e: nat): nat
    requires start < Count && e < Count
  {
    if start + e < Count then start + e else start + e - Count
  }

  /**
   * The category the circular scan from `start` settles on: the first of
   * `start`, the one after it and the one after that (wrapping round) whose
   * count is not zero.
   */
  function FirstAvailable(c: Pool, start: nat): (i: nat)
    requires start < Count && Available(c)
    ensures i < Count && c[i] != 0
  {
    if c[start] != 0 then start
    else if c[Visit(start, 1)] != 0 then Visit(start, 1)
    else Visit(start, 2)
  }

  /** How many steps the scan from `start` takes to reach category `i`. */
  function Offset(start: nat, i: nat): nat
    requires start < Count && i < Count
  {
    if start <= i then i - start else i + Count - start
  }

  /** The three scan positions from any start are the three categories, each once. */
  lemma VisitCovers(start: nat)
    requires start < Count
    ensures forall e, f :: 0 <= e < f < Count ==> Visit(start, e) != Visit(start, f)
    ensures forall i :: 0 <= i < Count ==> Offset(start, i) < Count && Visit(start, Offset(start, i)) == i
  {
  }

  /**
   * The scan stops at the first non-zero count: every category it passes on
   * the way from `start` to what it returns has a zero count.
   */
  lemma ScanSkipsZeros(c: Pool, start: nat)
    requires start < Count && Available(c)
    ensures var i := FirstAvailable(c, start);
      forall f :: 0 <= f < Offset(start, i) ==> c[Visit(start, f)] == 0
  {
  }

  /**
   * One slot: the category the scan from the draw's start settles on, with
   * the draw's k and image number. The category picked has a positive count.
   */
  function TakeSlot(c: Pool, d: Draw): (s: Slot)
    requires NonNegative(c) && Sum(c) > 0
    ensures SlotFollows(s, d) && c[s.category] > 0
  {
    Slot(FirstAvailable(c, d.start % Count), d.k, d.n)
  }

  /** The pool once slot `s` took one from its category: it stays non-negative and its sum falls by one. */
  function Took(c: Pool, s: Slot): (r: Pool)
    requires NonNegative(c) && s.category < Count && c[s.category] > 0
    ensures NonNegative(r) && Sum(r) == Sum(c) - 1
  {
    c[s.category := c[s.category] - 1]
  }

  /** A slot used draw `d`: its k is the draw's k, its image name is built from the draw's number. */
  predicate SlotFollows(s: Slot, d: Draw)
  {
    s.category < Count && s.k == d.k && s.imageNumber == d.n
  }

  function Min(a: int, b: int): int
  {
    if a <= b then a else b
  }

  // ---------------------------------------------------------------------------
  // The run

  /** A batch size of `concurrency`, read as `range(concurrency)` does: nothing when it is not positive. */
  function SlotsPerBatch(concurrency: int): nat
  {
    if concurrency > 0 then concurrency else 0
  }

  /**
   * The whole run, the outer loop: while the pool is not empty, fill a batch
   * of at most `concurrency` slots. Together with `Fill` this follows the two
   * nested loops of the load test step by step.
   */
  function Run(c: Pool, concurrency: int, draws: seq<Draw>): (r: RunResult)
    requires NonNegative(c) && |draws| >= Sum(c)
    ensures NonNegative(r.counts)
    decreases Sum(c), 1, 0
  {
    if Sum(c) == 0 then RunResult(c, [])
    else Fill(c, concurrency, SlotsPerBatch(concurrency), draws, [])
  }

  /**
   * The inner loop: with the slots `cur` of the batch formed so far and
   * `left` more allowed, take one slot per draw until the batch is full or
   * the pool is empty. A batch with slots is sent and the outer loop goes on;
   * a batch with no slots (only when `concurrency` is not positive) ends the run.
   */
  function Fill(c: Pool, concurrency: int, left: nat, draws: seq<Draw>, cur: seq<Slot>): (r: RunResult)
    requires NonNegative(c) && |draws| >= Sum(c)
    ensures NonNegative(r.counts)
    decreases Sum(c) + |cur|, 0, left
  {
    if left == 0 || Sum(c) == 0 then
      if cur == [] then RunResult(c, [])
      else Join([cur], Run(c, concurrency, draws))
    else
      var s := TakeSlot(c, draws[0]);
      Fill(Took(c, s), concurrency, left - 1, draws[1..], cur + [s])
  }

  /** Prefix `batches` to a run's batches. */
  function Join(batches: seq<seq<Slot>>, r: RunResult): RunResult
  {
    RunResult(r.counts, batches + r.batches)
  }

  /** The slots taken so far in a batch and the pool they leave. */
  datatype Taken = Taken(slots: seq<Slot>, pool: Pool)

  /**
   * The first `j` slots of a batch formed from the pool `c`, one per draw of
   * `ds` from the front, and the pool they leave behind: `j` slots, and a pool
   * that stays non-negative and has lost `j`.
   */
  function Prefix(c: Pool, j: nat, ds: seq<Draw>): (t: Taken)
    requires NonNegative(c) && j <= Sum(c) && |ds| >= Sum(c)
    ensures |t.slots| == j && NonNegative(t.pool) && Sum(t.pool) == Sum(c) - j
  {
    if j == 0 then Taken([], c)
    else
      var p := Prefix(c, j - 1, ds);
      var s := TakeSlot(p.pool, ds[j - 1]);
      Taken(p.slots + [s], Took(p.pool, s))
  }

  /** All the slots of a run, batch after batch. */
  function Flatten(batches: seq<seq<Slot>>): seq<Slot>
  {
    if batches == [] then [] else batches[0] + Flatten(batches[1..])
  }

  /** How many slots took from category `i`. */
  function CountOf(slots: seq<Slot>, i: nat): nat
  {
    if slots == [] then 0 else (if slots[0].category == i then 1 else 0) + CountOf(slots[1..], i)
  }

  // ---------------------------------------------------------------------------
  // The load test object

  class Test {
    var counter: Pool
    var minK: int
    var maxK: int
    var concurrency: int
    var url: string

    /** `Test(small, medium, large, k_min, k_max, conccurent, url)`: stores its arguments; checks nothing. */
    constructor (small: int, medium: int, large: int, kMin: int, kMax: int, concurrency: int, url: string)
      ensures counter == [small, medium, large]
      ensures minK == kMin && maxK == kMax && this.concurrency == concurrency && this.url == url
    {
      counter := [small, medium, large];
      minK := kMin;
      maxK := kMax;
      this.concurrency := concurrency;
      this.url := url;
    }

    /**
     * The circular scan: starting at `start`, step until a count is non-zero,
     * and return that index. It stops only when some count is non-zero.
     */
    method FirstAvailableIndex(start: nat) returns (index: nat)
      requires Available(counter)
      ensures index < Count && counter[index] != 0
      ensures forall f :: 0 <= f < Offset(start % Count, index) ==> counter[Visit(start % Count, f)] == 0
      ensures index == FirstAvailable(counter, start % Count)
    {
      ghost var r := start % Count;
      var s := start;
      while counter[s % Count] == 0
        invariant start <= s < start + Count
        invariant s % Count == Visit(r, s - start)
        invariant forall f :: 0 <= f < s - start ==> counter[Visit(r, f)] == 0
        decreases start + Count - s
      {
        s := s + 1;
      }
      index := s % Count;
      VisitCovers(r);
    }

    /**
     * One slot of a batch: scan from the draw's start, take one from the
     * category found, and name the request from the draw.
     */
    method TakeOne(d: Draw) returns (slot: Slot)
      requires NonNegative(counter) && Sum(counter) > 0
      modifies this`counter
      ensures slot == TakeSlot(old(counter), d) && counter == Took(old(counter), slot)
    {
      var typeIndex := FirstAvailableIndex(d.start);
      counter := counter[typeIndex := counter[typeIndex] - 1];
      var k := d.k;
      var imageNumber := d.n;
      slot := Slot(typeIndex, k, imageNumber);
    }

    /**
     * The inner loop of the run: take up to `concurrency` slots from the pool,
     * one per draw of `ds` from the front, and stop early once the pool sums
     * to zero. The whole run from the old pool is this batch followed by the
     * run from the new pool on the draws left over; with no slots it is the
     * end of the run.
     */
    method FillBatch(ds: seq<Draw>) returns (tasks: seq<Slot>)
      requires NonNegative(counter) && Sum(counter) > 0 && |ds| >= Sum(counter)
      modifies this`counter
      ensures NonNegative(counter) && Sum(counter) == Sum(old(counter)) - |tasks|
      ensures |tasks| <= |ds| && |ds| - |tasks| >= Sum(counter)
      ensures |tasks| == Min(SlotsPerBatch(concurrency), Sum(old(counter)))
      ensures Prefix(old(counter), |tasks|, ds) == Taken(tasks, counter)
      ensures tasks == [] ==> Run(old(counter), concurrency, ds) == RunResult(counter, [])
      ensures tasks != [] ==> Run(old(counter), concurrency, ds) == Join([tasks], Run(counter, concurrency, ds[|tasks|..]))
    {
      var m := SlotsPerBatch(concurrency);
      ghost var c0 := counter;
      tasks := [];
      var rest := ds;
      var j := 0;
      while j < m
        invariant 0 <= j <= m && j < Sum(c0)
        invariant rest == ds[j..]
        invariant Prefix(c0, j, ds) == Taken(tasks, counter)
      {
        var slot := TakeOne(rest[0]);
        tasks := tasks + [slot];
        rest := rest[1..];
        if Sum(counter) == 0 {
          PrefixFill(c0, concurrency, m, ds, j + 1);
          return;
        }
        j := j + 1;
      }
      PrefixFill(c0, concurrency, m, ds, j);
    }

    /**
     * The batch loop of the run: while the pool is not empty, form a batch of
     * at most `concurrency` slots; an empty batch ends the loop. Returns the
     * batches formed, in order, and leaves the pool where the run ends.
     * With `minK > maxK` the first slot's `randint(min_k, max_k)` raises,
     * after the scan has already taken one from the pool.
     */
    method RunTests(draws: seq<Draw>) returns (r: Result<seq<seq<Slot>>, PyError>)
      requires NonNegative(counter) && |draws| >= Sum(counter)
      requires minK <= maxK ==> forall j :: 0 <= j < |draws| ==> ValidDraw(draws[j], minK, maxK)
      modifies this`counter
      ensures r.Failure? <==> minK > maxK && Sum(old(counter)) > 0 && concurrency >= 1
      ensures r.Failure? ==> r.error == ValueError(EmptyRange) && counter == Took(old(counter), TakeSlot(old(counter), draws[0]))
      ensures r.Success? ==> Run(old(counter), concurrency, draws) == RunResult(counter, r.value)
      ensures r.Success? ==> forall s :: s in Flatten(r.value) ==>
        s.category < Count && minK <= s.k <= maxK && 1 <= s.imageNumber <= 200
    {
      if minK > maxK && Sum(counter) > 0 && concurrency >= 1 {
        var slot := TakeOne(draws[0]);
        return Failure(ValueError(EmptyRange));
      }
      ghost var c0 := counter;
      ghost var whole := Run(counter, concurrency, draws);
      var batches := [];
      var used: nat := 0;
      assert draws[used..] == draws;
      JoinNil(whole);
      while Sum(counter) != 0
        invariant NonNegative(counter) && used <= |draws| && used + Sum(counter) <= |draws|
        invariant whole == Join(batches, Run(counter, concurrency, draws[used..]))
        decreases Sum(counter)
      {
        ghost var before := Run(counter, concurrency, draws[used..]);
        var tasks := FillBatch(draws[used..]);
        if tasks == [] {
          break;
        }
        assert draws[used..][|tasks|..] == draws[used + |tasks|..];
        JoinStep(whole, batches, tasks, before, Run(counter, concurrency, draws[used + |tasks|..]));
        used := used + |tasks|;
        batches := batches + [tasks];
      }
      assert batches + [] == batches;
      if minK <= maxK {
        RunSlotsInRange(c0, concurrency, draws, minK, maxK);
      } else if concurrency < 1 {
        RunIdle(c0, concurrency, draws);
      }
      r := Success(batches);
    }
  }

  lemma JoinNil(r: RunResult)
    ensures Join([], r) == r
  {
    assert [] + r.batches == r.batches;
  }

  lemma JoinStep(whole: RunResult, batches: seq<seq<Slot>>, tasks: seq<Slot>, before: RunResult, after: RunResult)
    requires whole == Join(batches, before) && before == Join([tasks], after)
    ensures whole == Join(batches + [tasks], after)
  {
    assert batches + ([tasks] + after.batches) == (batches + [tasks]) + after.batches;
  }

  // ---------------------------------------------------------------------------
  // The run, batch by batch

  /**
   * After `j` slots the inner loop goes on from the pool and slots of
   * `Prefix(c, j, ds)`, with `m - j` slots still allowed.
   */
  lemma {:induction false} PrefixFill(c: Pool, concurrency: int, m: nat, ds: seq<Draw>, j: nat)
    requires NonNegative(c) && |ds| >= Sum(c) && j <= m && j <= Sum(c)
    ensures Fill(c, concurrency, m, ds, []) == Fill(Prefix(c, j, ds).pool, concurrency, m - j, ds[j..], Prefix(c, j, ds).slots)
  {
    if j == 0 {
      assert ds[0..] == ds;
    } else {
      PrefixFill(c, concurrency, m, ds, j - 1);
      PrefixFillStep(c, concurrency, m, ds, j);
    }
  }

  /** One more slot of the batch prefix: the inner loop state after `j - 1` slots steps to the state after `j`. */
  lemma PrefixFillStep(c: Pool, concurrency: int, m: nat, ds: seq<Draw>, j: nat)
    requires NonNegative(c) && |ds| >= Sum(c) && 0 < j <= m && j <= Sum(c)
    ensures Fill(Prefix(c, j - 1, ds).pool, concurrency, m - (j - 1), ds[j - 1..], Prefix(c, j - 1, ds).slots)
         == Fill(Prefix(c, j, ds).pool, concurrency, m - j, ds[j..], Prefix(c, j, ds).slots)
  {
    var q := Prefix(c, j - 1, ds);
    var s := TakeSlot(q.pool, ds[j - 1]);
    assert Prefix(c, j, ds) == Taken(q.slots + [s], Took(q.pool, s));
    var t := ds[j - 1..];
    assert t[0] == ds[j - 1] && t[1..] == ds[j..];
    FillStep(q.pool, concurrency, m - (j - 1), t, q.slots);
  }

  /** One step of the inner loop: a slot is taken when the batch has room and the pool is not empty. */
  lemma FillStep(c: Pool, concurrency: int, left: nat, ds: seq<Draw>, cur: seq<Slot>)
    requires NonNegative(c) && |ds| >= Sum(c) && left > 0 && Sum(c) > 0
    ensures var s := TakeSlot(c, ds[0]);
      Fill(c, concurrency, left, ds, cur) == Fill(Took(c, s), concurrency, left - 1, ds[1..], cur + [s])
  {
  }

  /**
   * The run from a non-empty pool is its first batch, the first
   * `Min(concurrency, sum)` slots, followed by the run from the pool that
   * batch leaves on the remaining draws; a first batch with no slots (no
   * positive concurrency) ends the run.
   */
  lemma RunBatches(c: Pool, concurrency: int, draws: seq<Draw>)
    requires NonNegative(c) && |draws| >= Sum(c) && Sum(c) > 0
    ensures var n := Min(SlotsPerBatch(concurrency), Sum(c));
      var p := Prefix(c, n, draws);
      Run(c, concurrency, draws) ==
        if n == 0 then RunResult(c, [])
        else Join([p.slots], Run(p.pool, concurrency, draws[n..]))
  {
    var n := Min(SlotsPerBatch(concurrency), Sum(c));
    PrefixFill(c, concurrency, SlotsPerBatch(concurrency), draws, n);
  }

  /** The pool a batch prefix leaves has lost, from each category, as many as the prefix has slots of it. */
  lemma {:induction false} PrefixDeducts(c: Pool, j: nat, ds: seq<Draw>)
    requires NonNegative(c) && j <= Sum(c) && |ds| >= Sum(c)
    ensures var p := Prefix(c, j, ds);
      forall i :: 0 <= i < Count ==> p.pool[i] == c[i] - CountOf(p.slots, i)
  {
    if j > 0 {
      var p := Prefix(c, j - 1, ds);
      var s := TakeSlot(p.pool, ds[j - 1]);
      PrefixDeducts(c, j - 1, ds);
      forall i | 0 <= i < Count ensures CountOf(p.slots + [s], i) == CountOf(p.slots, i) + (if s.category == i then 1 else 0) {
        CountOfAppend(p.slots, [s], i);
        assert [s][1..] == [];
      }
    }
  }

  /** The j-th slot of `slots` used the j-th draw. */
  predicate Follows(slots: seq<Slot>, draws: seq<Draw>)
  {
    |slots| <= |draws| && forall j {:trigger slots[j]} :: 0 <= j < |slots| ==> SlotFollows(slots[j], draws[j])
  }

  /** The j-th slot of a batch prefix used the j-th draw. */
  lemma {:induction false} PrefixFollows(c: Pool, j: nat, ds: seq<Draw>)
    requires NonNegative(c) && j <= Sum(c) && |ds| >= Sum(c)
    ensures Follows(Prefix(c, j, ds).slots, ds)
  {
    if j > 0 {
      var p := Prefix(c, j - 1, ds);
      PrefixFollows(c, j - 1, ds);
      var slots := Prefix(c, j, ds).slots;
      forall k | 0 <= k < j ensures SlotFollows(slots[k], ds[k]) {
        if k < j - 1 {
          assert slots[k] == p.slots[k];
        }
      }
    }
  }

  // ---------------------------------------------------------------------------
  // Properties of the run

  lemma {:induction false} FlattenAppend(a: seq<Slot>, rest: seq<seq<Slot>>)
    ensures Flatten([a] + rest) == a + Flatten(rest)
  {
    assert ([a] + rest)[1..] == rest;
  }

  lemma {:induction false} CountOfAppend(a: seq<Slot>, b: seq<Slot>, i: nat)
    ensures CountOf(a + b, i) == CountOf(a, i) + CountOf(b, i)
  {
    if a == [] {
      assert a + b == b;
    } else {
      assert (a + b)[0] == a[0];
      assert (a + b)[1..] == a[1..] + b;
      CountOfAppend(a[1..], b, i);
    }
  }

  lemma FollowsAppend(a: seq<Slot>, b: seq<Slot>, draws: seq<Draw>)
    requires Follows(a, draws) && Follows(b, draws[|a|..])
    ensures Follows(a + b, draws)
  {
    forall j | |a| <= j < |a| + |b| ensures SlotFollows((a + b)[j], draws[j]) {
      assert SlotFollows(b[j - |a|], draws[|a|..][j - |a|]);
    }
  }

  /** With no positive concurrency the run forms no batch and leaves the pool as it was. */
  lemma RunIdle(c: Pool, concurrency: int, draws: seq<Draw>)
    requires NonNegative(c) && |draws| >= Sum(c)
    requires concurrency <= 0
    ensures Run(c, concurrency, draws) == RunResult(c, [])
  {
    if Sum(c) > 0 {
      RunBatches(c, concurrency, draws);
    }
  }

  /**
   * With a positive concurrency the run empties the pool: every count ends at
   * zero, the run forms exactly as many slots as the pool held, and exactly
   * `c[i]` of them are of category `i`.
   */
  lemma {:induction false} RunDrains(c: Pool, concurrency: int, draws: seq<Draw>)
    requires NonNegative(c) && |draws| >= Sum(c)
    requires concurrency >= 1
    ensures var r := Run(c, concurrency, draws);
      NonNegative(r.counts) && Sum(r.counts) == 0 &&
      |Flatten(r.batches)| == Sum(c) &&
      (forall i :: 0 <= i < Count ==> CountOf(Flatten(r.batches), i) == c[i])
    decreases Sum(c)
  {
    var r := Run(c, concurrency, draws);
    if Sum(c) != 0 {
      var n := Min(SlotsPerBatch(concurrency), Sum(c));
      var p := Prefix(c, n, draws);
      RunBatches(c, concurrency, draws);
      PrefixDeducts(c, n, draws);
      RunDrains(p.pool, concurrency, draws[n..]);
      var rest := Run(p.pool, concurrency, draws[n..]);
      FlattenAppend(p.slots, rest.batches);
      forall i | 0 <= i < Count ensures CountOf(Flatten(r.batches), i) == c[i] {
        CountOfAppend(p.slots, Flatten(rest.batches), i);
      }
    }
  }

  /**
   * Every batch of a run has at least one and at most `concurrency` slots, and
   * every batch but the last has exactly `concurrency`.
   */
  lemma {:induction false} RunBatchSizes(c: Pool, concurrency: int, draws: seq<Draw>)
    requires NonNegative(c) && |draws| >= Sum(c)
    ensures SizesBounded(Run(c, concurrency, draws).batches, concurrency)
    decreases Sum(c)
  {
    if Sum(c) != 0 {
      var n := Min(SlotsPerBatch(concurrency), Sum(c));
      var p := Prefix(c, n, draws);
      RunBatches(c, concurrency, draws);
      if n != 0 {
        RunBatchSizes(p.pool, concurrency, draws[n..]);
        var rest := Run(p.pool, concurrency, draws[n..]);
        // a later batch exists only when this one did not empty the pool
        assert rest.batches != [] ==> n == concurrency;
        SizesShift(p.slots, rest.batches, concurrency);
      }
    }
  }

  /**
   * Every batch has at least one and at most `concurrency` slots, and every
   * batch but the last has exactly `concurrency`.
   */
  predicate SizesBounded(bs: seq<seq<Slot>>, concurrency: int)
  {
    forall j :: 0 <= j < |bs| ==>
      1 <= |bs[j]| <= concurrency && (j < |bs| - 1 ==> |bs[j]| == concurrency)
  }

  lemma SizesShift(b: seq<Slot>, rest: seq<seq<Slot>>, concurrency: int)
    requires 1 <= |b| <= concurrency && (rest != [] ==> |b| == concurrency)
    requires SizesBounded(rest, concurrency)
    ensures SizesBounded([b] + rest, concurrency)
  {
    var bs := [b] + rest;
    forall j | 1 <= j < |bs|
      ensures 1 <= |bs[j]| <= concurrency && (j < |bs| - 1 ==> |bs[j]| == concurrency)
    {
      assert bs[j] == rest[j - 1];
    }
  }

  /**
   * The slots of a run consume the draws in order: the j-th slot over the whole
   * run has the j-th draw's k and an image name built from the j-th draw's number.
   */
  lemma {:induction false} RunFollowsDraws(c: Pool, concurrency: int, draws: seq<Draw>)
    requires NonNegative(c) && |draws| >= Sum(c)
    ensures Follows(Flatten(Run(c, concurrency, draws).batches), draws)
    decreases Sum(c)
  {
    if Sum(c) != 0 {
      var n := Min(SlotsPerBatch(concurrency), Sum(c));
      var p := Prefix(c, n, draws);
      RunBatches(c, concurrency, draws);
      if n != 0 {
        PrefixFollows(c, n, draws);
        RunFollowsDraws(p.pool, concurrency, draws[n..]);
        var rest := Run(p.pool, concurrency, draws[n..]);
        FlattenAppend(p.slots, rest.batches);
        FollowsAppend(p.slots, Flatten(rest.batches), draws);
      }
    }
  }

  /**
   * With draws in their random ranges, every slot of the run asks for a k in
   * [minK, maxK] and an image "<category>_<n>)" with n in [1, 200].
   */
  lemma RunSlotsInRange(c: Pool, concurrency: int, draws: seq<Draw>, minK: int, maxK: int)
    requires NonNegative(c) && |draws| >= Sum(c)
    requires forall j :: 0 <= j < |draws| ==> ValidDraw(draws[j], minK, maxK)
    ensures var slots := Flatten(Run(c, concurrency, draws).batches);
      forall s :: s in slots ==>
        s.category < Count && minK <= s.k <= maxK && 1 <= s.imageNumber <= 200
  {
    RunFollowsDraws(c, concurrency, draws);
    var slots := Flatten(Run(c, concurrency, draws).batches);
    forall s | s in slots
      ensures s.category < Count && minK <= s.k <= maxK && 1 <= s.imageNumber <= 200
    {
      var j :| 0 <= j < |slots| && slots[j] == s;
      assert SlotFollows(slots[j], draws[j]);
    }
  }

  /**
   * The image name of a slot reads back: it starts with the category's name
   * and '_', ends in ')', and what lies between parses as the drawn number.
   */
  lemma ImageNameReadsBack(category: nat, n: int)
    requires category < Count
    ensures var image := ImageName(category, n);
      var head := Name(category) + "_";
      StartsWith(image, head) && EndsWith(image, ")") && ParseInt(image[|head|..|image| - 1]) == Some(n)
  {
    Affixes(Name(category) + "_", IntToString(n), ")");
    IntStringRoundTrip(n);
  }

  /** Counts only ever fall: at the end of a run no count is above where it started. */
  lemma RunMonotone(c: Pool, concurrency: int, draws: seq<Draw>)
    requires NonNegative(c) && |draws| >= Sum(c)
    ensures var r := Run(c, concurrency, draws);
      forall i :: 0 <= i < Count ==> 0 <= r.counts[i] <= c[i]
  {
    RunCounts(c, concurrency, draws);
  }

  /** Over a whole run, category `i` lost exactly as many as there are slots of category `i`. */
  lemma {:induction false} RunCounts(c: Pool, concurrency: int, draws: seq<Draw>)
    requires NonNegative(c) && |draws| >= Sum(c)
    ensures var r := Run(c, concurrency, draws);
      forall i :: 0 <= i < Count ==> CountOf(Flatten(r.batches), i) == c[i] - r.counts[i]
    decreases Sum(c)
  {
    if Sum(c) != 0 {
      var n := Min(SlotsPerBatch(concurrency), Sum(c));
      var p := Prefix(c, n, draws);
      RunBatches(c, concurrency, draws);
      if n != 0 {
        PrefixDeducts(c, n, draws);
        RunCounts(p.pool, concurrency, draws[n..]);
        var rest := Run(p.pool, concurrency, draws[n..]);
        FlattenAppend(p.slots, rest.batches);
        forall i | 0 <= i < Count
          ensures CountOf(p.slots + Flatten(rest.batches), i) == c[i] - rest.counts[i]
        {
          CountOfAppend(p.slots, Flatten(rest.batches), i);
        }
      }
    }
  }
}
