/**
 * Bookkeeping shared by the bulk deleters of posts.py and comments.py.
 *
 * A run of a bulk loop is described by its trace: one `Visit` per item
 * that got past the item-cap check (that is, one per increment of
 * `processed_count`), recording where the item stood, what each
 * `delete_*` call on it returned, and which refreshes it caused.  The
 * functions here give the meaning of the scripts' counters in terms of the
 * trace, so that the loops can be proved to keep them.
 */
module Engine {
  import opened Wrappers
  import opened Dom

  /** What `delete_post` / `delete_comment` return: True, 'restricted' or False. */
  datatype Outcome = Deleted | Restricted | Failed

  /** The result of one delete call together with what it did to the page. */
  datatype Run = Run(outcome: Outcome, acts: seq<Act>)

  /**
   * The item-cap test `max_items and processed_count >= max_items`: a cap of
   * None or 0 is falsy in Python and means "no limit".
   */
  predicate CapHit(cap: Option<int>, processed: nat) {
    cap.Some? && cap.value != 0 && processed >= cap.value
  }

  /** Each of the `n` counts from `p0` on passed the cap test. */
  predicate UnderCap(cap: Option<int>, p0: nat, n: nat) {
    forall p: nat :: p0 <= p < p0 + n ==> !CapHit(cap, p)
  }

  /** Two runs of counts that passed the cap test, one after the other, make one. */
  lemma UnderCapJoin(cap: Option<int>, p0: nat, n: nat, m: nat)
    requires UnderCap(cap, p0, n) && UnderCap(cap, p0 + n, m)
    ensures UnderCap(cap, p0, n + m)
  {
  }

  /** Every count that passed the cap test stays within a positive cap, and a negative cap admits nothing. */
  lemma CapBound(cap: Option<int>, processed: nat)
    requires processed == 0 || !CapHit(cap, processed - 1)
    ensures cap.Some? && cap.value > 0 ==> processed <= cap.value
    ensures cap.Some? && cap.value < 0 ==> processed == 0
  {
  }

  /**
   * One processed item: the enumeration round, its position in that round's
   * batch, the batch's size, the results of the delete calls made on it
   * (none for the preserved item), whether a successful deletion triggered
   * the periodic refresh, and whether it tripped the failure circuit breaker.
   */
  datatype Visit = Visit(round: nat, index: nat, size: nat, results: seq<Outcome>, periodic: bool, tripped: bool)

  /** How an item ended: preserved without a delete call, or the last delete call's result. */
  datatype Ending = Preserved | Ended(outcome: Outcome)

  function EndOf(v: Visit): (e: Ending)
    ensures e == Preserved <==> |v.results| == 0
  {
    if |v.results| == 0 then Preserved else Ended(v.results[|v.results| - 1])
  }

  /**
   * The bounded retry: one call that did not fail, or a failed call followed
   * by one more call whose result is final.
   */
  predicate RetryShape(results: seq<Outcome>) {
    || (|results| == 1 && results[0] != Failed)
    || (|results| == 2 && results[0] == Failed)
  }

  /** The number of visits that ended as `e`. */
  function Count(vs: seq<Visit>, e: Ending): (n: nat)
    ensures n <= |vs|
  {
    if |vs| == 0 then 0
    else Count(vs[..|vs| - 1], e) + (if EndOf(vs[|vs| - 1]) == e then 1 else 0)
  }

  lemma {:induction false} CountAppend(a: seq<Visit>, b: seq<Visit>, e: Ending)
    ensures Count(a + b, e) == Count(a, e) + Count(b, e)
    decreases |b|
  {
    if |b| == 0 {
      assert a + b == a;
    } else {
      assert (a + b)[..|a + b| - 1] == a + b[..|b| - 1];
      CountAppend(a, b[..|b| - 1], e);
    }
  }

  /**
   * The trace's counters: every visit ends in exactly one way, so the
   * counts of the four endings add up to the number of processed items.
   */
  lemma {:induction false} CountsPartition(vs: seq<Visit>)
    ensures Count(vs, Preserved) + Count(vs, Ended(Deleted)) + Count(vs, Ended(Restricted))
            + Count(vs, Ended(Failed)) == |vs|
    decreases |vs|
  {
    if |vs| > 0 {
      CountsPartition(vs[..|vs| - 1]);
      var init, v := vs[..|vs| - 1], vs[|vs| - 1];
      assert Count(vs, Preserved) == Count(init, Preserved) + (if EndOf(v) == Preserved then 1 else 0);
      assert Count(vs, Ended(Deleted)) == Count(init, Ended(Deleted)) + (if EndOf(v) == Ended(Deleted) then 1 else 0);
      assert Count(vs, Ended(Restricted)) == Count(init, Ended(Restricted)) + (if EndOf(v) == Ended(Restricted) then 1 else 0);
      assert Count(vs, Ended(Failed)) == Count(init, Ended(Failed)) + (if EndOf(v) == Ended(Failed) then 1 else 0);
      if |v.results| > 0 {
        var o := v.results[|v.results| - 1];
        assert o == Deleted || o == Restricted || o == Failed;
      }
    }
  }

  /** The breaker fires on a terminal failure that brings the counter to the threshold. */
  predicate Trips(c: nat, v: Visit, threshold: nat) {
    EndOf(v) == Ended(Failed) && c + 1 >= threshold
  }

  /**
   * The `consecutive_failures` update for one visit: a preserved item leaves
   * it alone, success and restricted reset it, a terminal failure increments
   * it, and tripping the breaker resets it.
   */
  function StreakStep(c: nat, v: Visit, threshold: nat): (c': nat)
    ensures EndOf(v) == Preserved ==> c' == c
    ensures EndOf(v) == Ended(Deleted) || EndOf(v) == Ended(Restricted) ==> c' == 0
    ensures EndOf(v) == Ended(Failed) ==> c' == if c + 1 >= threshold then 0 else c + 1
  {
    match EndOf(v)
    case Preserved => c
    case Ended(Failed) => if Trips(c, v, threshold) then 0 else c + 1
    case Ended(_) => 0
  }

  /** The failure counter after the visits `vs`, starting from `c0`. */
  function Streak(c0: nat, vs: seq<Visit>, threshold: nat): nat {
    if |vs| == 0 then c0 else StreakStep(Streak(c0, vs[..|vs| - 1], threshold), vs[|vs| - 1], threshold)
  }

  /** Below the threshold the counter stays below the threshold. */
  lemma {:induction false} StreakBelow(c0: nat, vs: seq<Visit>, threshold: nat)
    requires c0 < threshold
    ensures Streak(c0, vs, threshold) < threshold
    decreases |vs|
  {
    if |vs| > 0 {
      StreakBelow(c0, vs[..|vs| - 1], threshold);
    }
  }

  lemma {:induction false} StreakAppend(c0: nat, a: seq<Visit>, b: seq<Visit>, threshold: nat)
    ensures Streak(c0, a + b, threshold) == Streak(Streak(c0, a, threshold), b, threshold)
    decreases |b|
  {
    if |b| == 0 {
      assert a + b == a;
    } else {
      assert (a + b)[..|a + b| - 1] == a + b[..|b| - 1];
      StreakAppend(c0, a, b[..|b| - 1], threshold);
    }
  }

  /** Exactly the visits whose terminal failure reached the threshold are marked as tripping the breaker. */
  predicate TripMarks(c0: nat, vs: seq<Visit>, threshold: nat) {
    forall k {:trigger vs[k].tripped} :: 0 <= k < |vs| ==> (vs[k].tripped <==> Trips(Streak(c0, vs[..k], threshold), vs[k], threshold))
  }

  lemma TripMarksAppend(c0: nat, a: seq<Visit>, b: seq<Visit>, threshold: nat)
    requires TripMarks(c0, a, threshold) && TripMarks(Streak(c0, a, threshold), b, threshold)
    ensures TripMarks(c0, a + b, threshold)
  {
    forall k | 0 <= k < |a + b|
      ensures (a + b)[k].tripped <==> Trips(Streak(c0, (a + b)[..k], threshold), (a + b)[k], threshold)
    {
      if k < |a| {
        assert (a + b)[..k] == a[..k];
      } else {
        assert (a + b)[..k] == a + b[..k - |a|];
        StreakAppend(c0, a, b[..k - |a|], threshold);
      }
    }
  }

  /** The counters the bulk deleters keep. */
  datatype Tally = Tally(processed: nat, deleted: nat, skipped: nat, restricted: nat, consecutive: nat)

  /** The counter updates for one processed item. */
  function Record(t: Tally, v: Visit, threshold: nat): Tally {
    Tally(t.processed + 1,
          t.deleted + (if EndOf(v) == Ended(Deleted) then 1 else 0),
          t.skipped + (if EndOf(v) == Preserved then 1 else 0),
          t.restricted + (if EndOf(v) == Ended(Restricted) then 1 else 0),
          StreakStep(t.consecutive, v, threshold))
  }

  /** The counters after the visits `vs`, starting from `t0`. */
  function Replay(t0: Tally, vs: seq<Visit>, threshold: nat): Tally {
    if |vs| == 0 then t0 else Record(Replay(t0, vs[..|vs| - 1], threshold), vs[|vs| - 1], threshold)
  }

  /**
   * What the counters mean: `processed_count` counts the visits, each of
   * the other totals counts the visits that ended its way, and the failure
   * counter is the streak.
   */
  lemma {:induction false} ReplayMeaning(t0: Tally, vs: seq<Visit>, threshold: nat)
    ensures Replay(t0, vs, threshold).processed == t0.processed + |vs|
    ensures Replay(t0, vs, threshold).deleted == t0.deleted + Count(vs, Ended(Deleted))
    ensures Replay(t0, vs, threshold).skipped == t0.skipped + Count(vs, Preserved)
    ensures Replay(t0, vs, threshold).restricted == t0.restricted + Count(vs, Ended(Restricted))
    ensures Replay(t0, vs, threshold).consecutive == Streak(t0.consecutive, vs, threshold)
    decreases |vs|
  {
    if |vs| > 0 {
      ReplayMeaning(t0, vs[..|vs| - 1], threshold);
    }
  }

  lemma {:induction false} ReplayAppend(t0: Tally, a: seq<Visit>, b: seq<Visit>, threshold: nat)
    ensures Replay(t0, a + b, threshold) == Replay(Replay(t0, a, threshold), b, threshold)
    decreases |b|
  {
    if |b| == 0 {
      assert a + b == a;
    } else {
      assert (a + b)[..|a + b| - 1] == a + b[..|b| - 1];
      ReplayAppend(t0, a, b[..|b| - 1], threshold);
    }
  }

  /** One more visit: the counters take one `Record` step, and the breaker marks extend when the visit is marked right. */
  lemma TraceStep(t0: Tally, vs: seq<Visit>, v: Visit, threshold: nat)
    requires TripMarks(t0.consecutive, vs, threshold)
    requires v.tripped <==> Trips(Streak(t0.consecutive, vs, threshold), v, threshold)
    ensures Replay(t0, vs + [v], threshold) == Record(Replay(t0, vs, threshold), v, threshold)
    ensures TripMarks(t0.consecutive, vs + [v], threshold)
  {
    assert (vs + [v])[..|vs|] == vs;
    assert [v][..0] == [];
    TripMarksAppend(t0.consecutive, vs, [v], threshold);
  }

  /**
   * What a batch loop has established after the visits `vs` of one round:
   * the visits are positions 0, 1, ... of the batch, all of them passed the
   * cap test, the counters are the replay of the visits, and the breaker
   * marks are right.
   */
  predicate BatchKept(vs: seq<Visit>, round: nat, size: nat, t0: Tally, t: Tally, cap: Option<int>, threshold: nat) {
    && BatchTrace(vs, round, size)
    && (forall k :: 0 <= k < |vs| ==> !vs[k].tripped)
    && t == Replay(t0, vs, threshold)
    && TripMarks(t0.consecutive, vs, threshold)
    && UnderCap(cap, t0.processed, |vs|)
  }

  /** The counters after `vs` count the successful deletions in `deleted`. */
  lemma DeletedCount(t0: Tally, vs: seq<Visit>, threshold: nat)
    ensures Replay(t0, vs, threshold).deleted == t0.deleted + Count(vs, Ended(Deleted))
  {
    ReplayMeaning(t0, vs, threshold);
  }

  /** The counters after `vs` count the visits in `processed`. */
  lemma ProcessedCount(t0: Tally, vs: seq<Visit>, threshold: nat)
    ensures Replay(t0, vs, threshold).processed == t0.processed + |vs|
  {
    ReplayMeaning(t0, vs, threshold);
  }

  /**
   * A batch loop's step: a visit at the next position that passed the cap
   * test and is marked by the breaker rule extends what was established;
   * once the visit trips the breaker, the loop must stop.
   */
  lemma BatchStep(vs: seq<Visit>, v: Visit, round: nat, size: nat, t0: Tally, t: Tally, cap: Option<int>, threshold: nat)
    requires BatchKept(vs, round, size, t0, t, cap, threshold)
    requires |vs| < size && v.round == round && v.index == |vs| && v.size == size
    requires !CapHit(cap, t.processed)
    requires v.tripped <==> Trips(t.consecutive, v, threshold)
    ensures BatchTrace(vs + [v], round, size)
    ensures Record(t, v, threshold) == Replay(t0, vs + [v], threshold)
    ensures TripMarks(t0.consecutive, vs + [v], threshold)
    ensures UnderCap(cap, t0.processed, |vs| + 1)
    ensures !v.tripped ==> BatchKept(vs + [v], round, size, t0, Record(t, v, threshold), cap, threshold)
  {
    ReplayMeaning(t0, vs, threshold);
    TraceStep(t0, vs, v, threshold);
    forall p: nat | t0.processed <= p < t0.processed + |vs| + 1
      ensures !CapHit(cap, p)
    {
      if p == t0.processed + |vs| {
        assert p == t.processed;
      }
    }
  }

  /** The visit is the last its round's batch gets: the batch ran out, or the breaker abandoned it. */
  predicate EndsRound(v: Visit) {
    v.tripped || v.index + 1 >= v.size
  }

  /**
   * Consecutive visits: inside a batch the next position of the same round;
   * after a round's last visit, position 0 of the next round.
   */
  predicate Follows(v: Visit, w: Visit) {
    if EndsRound(v) then w.round == v.round + 1 && w.index == 0
    else w.round == v.round && w.index == v.index + 1
  }

  /** The trace visits batches front to back, round after round. */
  predicate Ordered(vs: seq<Visit>) {
    && (forall k :: 0 <= k < |vs| ==> vs[k].index < vs[k].size)
    && (forall j, k {:trigger Follows(vs[j], vs[k])} :: 0 <= j < |vs| && 0 <= k < |vs| && k == j + 1 ==> Follows(vs[j], vs[k]))
  }

  /** A batch trace: positions 0, 1, ... of one round, none tripping except possibly the last. */
  predicate BatchTrace(vs: seq<Visit>, round: nat, size: nat) {
    && |vs| <= size
    && (forall k :: 0 <= k < |vs| ==> vs[k].round == round && vs[k].index == k && vs[k].size == size)
    && (forall k :: 0 <= k < |vs| - 1 ==> !vs[k].tripped)
  }

  /** Every visit belongs to one of the first `n` rounds. */
  predicate RoundsBelow(vs: seq<Visit>, n: nat) {
    forall k :: 0 <= k < |vs| ==> vs[k].round < n
  }

  /** A batch of round `round` after visits of earlier rounds keeps every visit below `round + 1`. */
  lemma RoundsAppend(a: seq<Visit>, b: seq<Visit>, round: nat, size: nat)
    requires RoundsBelow(a, round) && BatchTrace(b, round, size)
    ensures RoundsBelow(a + b, round + 1)
  {
    forall k | 0 <= k < |a + b|
      ensures (a + b)[k].round < round + 1
    {
      if k >= |a| {
        assert (a + b)[k] == b[k - |a|];
      } else {
        assert (a + b)[k] == a[k];
      }
    }
  }

  /** Appending a batch of the round after the last one visited keeps the trace ordered. */
  lemma OrderedAppend(a: seq<Visit>, b: seq<Visit>, round: nat, size: nat)
    requires Ordered(a) && BatchTrace(b, round, size)
    requires |a| > 0 ==> EndsRound(a[|a| - 1]) && round == a[|a| - 1].round + 1
    ensures Ordered(a + b)
  {
    forall j, k | 0 <= j < |a + b| && 0 <= k < |a + b| && k == j + 1
      ensures Follows((a + b)[j], (a + b)[k])
    {
      if j >= |a| {
        assert (a + b)[j] == b[j - |a|] && (a + b)[k] == b[k - |a|];
      } else if k < |a| {
        assert (a + b)[j] == a[j] && (a + b)[k] == a[k];
      }
    }
  }

  /** How one pass over an enumerated batch ended. */
  datatype BatchExit = Completed | CapReturn | Abandoned

  /** Why a bulk loop stopped; `OutOfRounds` only when the observed rounds ran out. */
  datatype Stop = NoItems | CapReached | EndOfPage | OutOfRounds

  /** The counters before the first item. */
  const Start := Tally(0, 0, 0, 0, 0)

  /**
   * What a bulk loop has established after the visits `vs`: they are in
   * order, the counters are their replay from zero, the breaker marks are
   * right, and every visit passed the cap test.
   */
  predicate RunKept(vs: seq<Visit>, t: Tally, cap: Option<int>, threshold: nat) {
    && Ordered(vs)
    && t == Replay(Start, vs, threshold)
    && TripMarks(0, vs, threshold)
    && UnderCap(cap, 0, |vs|)
  }

  /** A batch pass of the round after the last one visited, started from the current counters, extends the run. */
  lemma RunStep(a: seq<Visit>, b: seq<Visit>, round: nat, size: nat, t: Tally, u: Tally, cap: Option<int>, threshold: nat)
    requires RunKept(a, t, cap, threshold)
    requires |a| > 0 ==> EndsRound(a[|a| - 1]) && round == a[|a| - 1].round + 1
    requires BatchTrace(b, round, size)
    requires u == Replay(t, b, threshold) && TripMarks(t.consecutive, b, threshold) && UnderCap(cap, t.processed, |b|)
    ensures RunKept(a + b, u, cap, threshold)
    ensures u.processed == |a + b|
  {
    OrderedAppend(a, b, round, size);
    ReplayAppend(Start, a, b, threshold);
    ReplayMeaning(Start, a, threshold);
    ReplayMeaning(Start, a + b, threshold);
    TripMarksAppend(0, a, b, threshold);
    forall p: nat | 0 <= p < |a| + |b|
      ensures !CapHit(cap, p)
    {
      if p >= |a| {
        assert t.processed <= p < t.processed + |b|;
      }
    }
  }

  /**
   * The cap bound of a whole run: a positive cap is never exceeded by
   * `processed_count`, and a negative one lets nothing through.
   */
  lemma RunWithinCap(vs: seq<Visit>, t: Tally, cap: Option<int>, threshold: nat)
    requires RunKept(vs, t, cap, threshold)
    ensures cap.Some? && cap.value > 0 ==> t.processed <= cap.value
    ensures cap.Some? && cap.value < 0 ==> t.processed == 0
  {
    ReplayMeaning(Start, vs, threshold);
    if |vs| > 0 {
      assert !CapHit(cap, |vs| - 1);
    }
    CapBound(cap, t.processed);
  }

  /** A visit that trips the breaker leaves the failure counter at zero. */
  lemma TrippedResets(c0: nat, vs: seq<Visit>, k: nat, threshold: nat)
    requires TripMarks(c0, vs, threshold) && k < |vs| && vs[k].tripped
    ensures Streak(c0, vs[..k + 1], threshold) == 0
  {
    assert vs[..k + 1][..k] == vs[..k];
    assert vs[..k + 1][k] == vs[k];
  }

  /** The number of visits that belong to rounds up to `r`: `processed_count` once round `r` is over. */
  function Through(vs: seq<Visit>, r: nat): (n: nat)
    ensures n <= |vs|
  {
    if |vs| == 0 then 0 else Through(vs[..|vs| - 1], r) + (if vs[|vs| - 1].round <= r then 1 else 0)
  }

  lemma {:induction false} ThroughAppend(a: seq<Visit>, b: seq<Visit>, r: nat)
    ensures Through(a + b, r) == Through(a, r) + Through(b, r)
    decreases |b|
  {
    if |b| == 0 {
      assert a + b == a;
    } else {
      assert (a + b)[..|a + b| - 1] == a + b[..|b| - 1];
      ThroughAppend(a, b[..|b| - 1], r);
    }
  }

  /** The visits of one round count towards every later round and towards no earlier one. */
  lemma {:induction false} ThroughRound(b: seq<Visit>, round: nat, r: nat)
    requires forall k :: 0 <= k < |b| ==> b[k].round == round
    ensures Through(b, r) == if round <= r then |b| else 0
    decreases |b|
  {
    if |b| > 0 {
      ThroughRound(b[..|b| - 1], round, r);
    }
  }

  /** Visits of rounds up to `r` all count. */
  lemma {:induction false} ThroughAll(vs: seq<Visit>, r: nat)
    requires RoundsBelow(vs, r + 1)
    ensures Through(vs, r) == |vs|
    decreases |vs|
  {
    if |vs| > 0 {
      ThroughAll(vs[..|vs| - 1], r);
    }
  }

  /** The trace starts at position 0 of round 0. */
  predicate Begins(vs: seq<Visit>) {
    |vs| > 0 ==> vs[0].round == 0 && vs[0].index == 0
  }

  /** The last visit ends round `n - 1`; before the first round there is no visit. */
  predicate Closes(vs: seq<Visit>, n: nat) {
    if n == 0 then vs == [] else |vs| > 0 && EndsRound(vs[|vs| - 1]) && vs[|vs| - 1].round == n - 1
  }

  /** Once each of the first `n` rounds was over, the cap had not been reached. */
  predicate CapClear(vs: seq<Visit>, n: nat, cap: Option<int>) {
    forall r: nat {:trigger Through(vs, r)} :: r < n ==> !CapHit(cap, Through(vs, r))
  }

  /**
   * Appending the batch of round `n` after the first `n` rounds: the trace
   * still begins at position 0 of round 0, the earlier rounds' counts do not
   * move, round `n` is closed when its last visit ends it, and its count is
   * the whole trace.
   */
  lemma BetweenStep(a: seq<Visit>, b: seq<Visit>, n: nat, size: nat, cap: Option<int>)
    requires Begins(a) && Closes(a, n) && CapClear(a, n, cap)
    requires RoundsBelow(a, n) && BatchTrace(b, n, size)
    ensures Begins(a + b) && CapClear(a + b, n, cap)
    ensures |b| > 0 && EndsRound(b[|b| - 1]) ==> Closes(a + b, n + 1)
    ensures Through(a + b, n) == |a + b|
  {
    if |a| == 0 {
      assert a + b == b;
    } else {
      assert (a + b)[0] == a[0];
    }
    forall r: nat | r < n
      ensures Through(a + b, r) == Through(a, r)
    {
      ThroughAppend(a, b, r);
      ThroughRound(b, n, r);
    }
    ThroughAppend(a, b, n);
    ThroughRound(b, n, n);
    ThroughAll(a, n);
    if |b| > 0 {
      assert (a + b)[|a + b| - 1] == b[|b| - 1];
    }
  }
}
