/** The delayed-update queue of a fluid simulator. */
module UpdateQueues {

  datatype BlockUpdate = BlockUpdate(index: int, ticks: int)

  const MAX_UPDATE_QUEUE_LENGTH := 0xFFFF_FFFF / 4

  /** Indices of the entries that the next tick returns, in queue order. */
  function Due(updates: seq<BlockUpdate>): seq<int> {
    if updates == [] then [] else
      var last := updates[|updates| - 1];
      Due(updates[..|updates| - 1]) + (if last.ticks == 1 then [last.index] else [])
  }

  /** The entries that the next tick keeps, one tick older, in queue order. */
  function Rest(updates: seq<BlockUpdate>): (rest: seq<BlockUpdate>)
    ensures |rest| <= |updates|
  {
    if updates == [] then [] else
      var last := updates[|updates| - 1];
      Rest(updates[..|updates| - 1])
      + (if last.ticks == 1 then [] else [BlockUpdate(last.index, last.ticks - 1)])
  }

  lemma TickOnLast(updates: seq<BlockUpdate>, last: BlockUpdate)
    ensures Due(updates + [last]) == Due(updates) + (if last.ticks == 1 then [last.index] else [])
    ensures Rest(updates + [last])
         == Rest(updates) + (if last.ticks == 1 then [] else [BlockUpdate(last.index, last.ticks - 1)])
  {
    assert (updates + [last])[..|updates|] == updates;
  }

  lemma NothingDue()
    ensures Due([]) == [] && Rest([]) == []
  {
  }

  class UpdateQueue {
    var updates: seq<BlockUpdate>
    /** How often a full queue has been thrown away. */
    ghost var drops: nat

    constructor ()
      ensures updates == [] && drops == 0
    {
      updates := [];
      drops := 0;
    }

    /** Only a queue that holds a quarter of 2^32 - 1 entries, rounded down, is thrown away. */
    method Add(index: int, delay: int)
      modifies this
      ensures |old(updates)| < 1073741823 ==>
                updates == old(updates) + [BlockUpdate(index, delay)] && drops == old(drops)
      ensures |old(updates)| >= 1073741823 ==>
                updates == [] && drops == old(drops) + 1
    {
      if |updates| < MAX_UPDATE_QUEUE_LENGTH {
        updates := updates + [BlockUpdate(index, delay)];
      } else {
        updates := [];
        drops := drops + 1;
      }
    }

    /** Compacts the queue in place while it collects the due indices. */
    method Tick() returns (due: seq<int>)
      modifies this`updates
      ensures due == Due(old(updates))
      ensures updates == Rest(old(updates))
    {
      hide Due, Rest;
      due := [];
      var i := 0;
      ghost var was := updates;
      NothingDue();
      for k := 0 to |updates|
        invariant |updates| == |was| && 0 <= i <= k
        invariant updates[k..] == was[k..]
        invariant updates[..i] == Rest(was[..k])
        invariant due == Due(was[..k])
      {
        assert updates[k] == was[k];
        assert was[..k + 1] == was[..k] + [was[k]];
        TickOnLast(was[..k], was[k]);
        var update := BlockUpdate(updates[k].index, updates[k].ticks - 1);
        if update.ticks == 0 {
          due := due + [update.index];
        } else {
          updates := updates[i := update];
          i := i + 1;
        }
      }
      assert was[..|was|] == was;
      updates := updates[..i];
    }
  }

  // ------------------------------------------------------------------
  // Runs: any interleaving of additions and ticks.

  datatype Op = Add(index: int, delay: nat) | Tick

  datatype Entry = Entry(index: int, deadline: int)

  datatype Run = Run(updates: seq<BlockUpdate>, returned: seq<seq<int>>)

  /** The effect of a run on an initially empty queue; `returned[n]` is what tick n + 1 returned. */
  function Execute(ops: seq<Op>): Run {
    if ops == [] then Run([], []) else
      var before := Execute(ops[..|ops| - 1]);
      match ops[|ops| - 1]
      case Add(index, delay) =>
        if |before.updates| < MAX_UPDATE_QUEUE_LENGTH
        then Run(before.updates + [BlockUpdate(index, delay)], before.returned)
        else Run([], before.returned)
      case Tick => Run(Rest(before.updates), before.returned + [Due(before.updates)])
  }

  lemma ExecuteLast(ops: seq<Op>, k: nat)
    requires k < |ops|
    ensures var before, after := Execute(ops[..k]), Execute(ops[..k + 1]);
            match ops[k]
            case Add(index, delay) =>
              after == (if |before.updates| < MAX_UPDATE_QUEUE_LENGTH
                        then Run(before.updates + [BlockUpdate(index, delay)], before.returned)
                        else Run([], before.returned))
            case Tick => after == Run(Rest(before.updates), before.returned + [Due(before.updates)])
  {
    assert ops[..k + 1][..k] == ops[..k];
  }

  /** Performs a run on a new queue. */
  method Perform(ops: seq<Op>) returns (queue: UpdateQueue, returned: seq<seq<int>>)
    ensures fresh(queue)
    ensures Run(queue.updates, returned) == Execute(ops)
  {
    queue := new UpdateQueue();
    returned := [];
    for k := 0 to |ops|
      invariant fresh(queue)
      invariant Run(queue.updates, returned) == Execute(ops[..k])
    {
      ExecuteLast(ops, k);
      match ops[k]
      case Add(index, delay) => queue.Add(index, delay);
      case Tick =>
        var due := queue.Tick();
        returned := returned + [due];
    }
    assert ops[..|ops|] == ops;
  }

  /** No addition of the run met a full queue. */
  predicate NeverFull(ops: seq<Op>) {
    ops == [] ||
    (NeverFull(ops[..|ops| - 1]) &&
     (ops[|ops| - 1].Add? ==> |Execute(ops[..|ops| - 1]).updates| < MAX_UPDATE_QUEUE_LENGTH))
  }

  predicate PositiveDelays(ops: seq<Op>) {
    forall k :: 0 <= k < |ops| && ops[k].Add? ==> ops[k].delay >= 1
  }

  function Clock(ops: seq<Op>): nat {
    if ops == [] then 0 else
      Clock(ops[..|ops| - 1]) + (if ops[|ops| - 1].Tick? then 1 else 0)
  }

  /** Every addition of the run with the tick number at which it should come out. */
  function Schedule(ops: seq<Op>): seq<Entry> {
    if ops == [] then [] else
      var last := ops[|ops| - 1];
      Schedule(ops[..|ops| - 1])
      + (if last.Add? then [Entry(last.index, Clock(ops[..|ops| - 1]) + last.delay)] else [])
  }

  /** The scheduled indices whose deadline is exactly tick n, in order of addition. */
  function DueAt(entries: seq<Entry>, n: int): seq<int> {
    if entries == [] then [] else
      var last := entries[|entries| - 1];
      DueAt(entries[..|entries| - 1], n) + (if last.deadline == n then [last.index] else [])
  }

  /** The scheduled entries that are still outstanding after tick n, in order of addition. */
  function Outstanding(entries: seq<Entry>, n: int): seq<BlockUpdate> {
    if entries == [] then [] else
      var last := entries[|entries| - 1];
      Outstanding(entries[..|entries| - 1], n)
      + (if last.deadline > n then [BlockUpdate(last.index, last.deadline - n)] else [])
  }

  lemma ScheduleOnLast(entries: seq<Entry>, last: Entry, n: int)
    ensures DueAt(entries + [last], n) == DueAt(entries, n) + (if last.deadline == n then [last.index] else [])
    ensures Outstanding(entries + [last], n)
         == Outstanding(entries, n) + (if last.deadline > n then [BlockUpdate(last.index, last.deadline - n)] else [])
  {
    assert (entries + [last])[..|entries|] == entries;
  }

  lemma NothingScheduled(n: int)
    ensures DueAt([], n) == [] && Outstanding([], n) == []
  {
  }

  lemma {:induction false} TickOnOutstanding(entries: seq<Entry>, n: int)
    ensures Due(Outstanding(entries, n)) == DueAt(entries, n + 1)
    ensures Rest(Outstanding(entries, n)) == Outstanding(entries, n + 1)
  {
    hide Due, Rest, DueAt, Outstanding;
    if entries == [] {
      NothingDue();
      NothingScheduled(n);
      NothingScheduled(n + 1);
    } else {
      var init, last := entries[..|entries| - 1], entries[|entries| - 1];
      assert entries == init + [last];
      TickOnOutstanding(init, n);
      ScheduleOnLast(init, last, n);
      ScheduleOnLast(init, last, n + 1);
      var update := BlockUpdate(last.index, last.deadline - n);
      TickOnLast(Outstanding(init, n), update);
      assert Outstanding(entries, n) == Outstanding(init, n) + (if last.deadline > n then [update] else []);
      if last.deadline <= n {
        assert Outstanding(entries, n) == Outstanding(init, n);
      }
    }
  }

  lemma {:induction false} DeadlinesAhead(ops: seq<Op>, n: nat)
    requires PositiveDelays(ops) && Clock(ops) >= n
    requires ops != [] && ops[|ops| - 1].Add?
    ensures DueAt(Schedule(ops), n) == DueAt(Schedule(ops[..|ops| - 1]), n)
  {
    var s := Schedule(ops);
    assert s[..|s| - 1] == Schedule(ops[..|ops| - 1]);
  }

  /** A run has delivered on time when tick n returned exactly the entries scheduled for it,
      and the queue holds exactly the entries still outstanding. */
  ghost predicate OnTime(ops: seq<Op>) {
    && |Execute(ops).returned| == Clock(ops)
    && (forall n :: 1 <= n <= Clock(ops) ==> Execute(ops).returned[n - 1] == DueAt(Schedule(ops), n))
    && Execute(ops).updates == Outstanding(Schedule(ops), Clock(ops))
  }

  lemma OnTimeAfterTick(ops: seq<Op>, all: seq<Op>)
    requires all == ops + [Tick] && OnTime(ops)
    ensures OnTime(all)
  {
    assert all[..|all| - 1] == ops;
    TickOnOutstanding(Schedule(ops), Clock(ops));
    assert Schedule(all) == Schedule(ops);
  }

  lemma OnTimeAfterAdd(ops: seq<Op>, index: int, delay: nat, all: seq<Op>)
    requires all == ops + [Add(index, delay)] && PositiveDelays(all) && OnTime(ops)
    requires |Execute(ops).updates| < MAX_UPDATE_QUEUE_LENGTH
    ensures OnTime(all)
  {
    assert all[..|all| - 1] == ops;
    assert all[|all| - 1].delay >= 1;
    var s := Schedule(all);
    assert s[..|s| - 1] == Schedule(ops);
    forall n | 1 <= n <= Clock(all)
      ensures Execute(all).returned[n - 1] == DueAt(s, n)
    {
      DeadlinesAhead(all, n);
    }
  }

  /** Every entry comes out once, on exactly the tick it was scheduled for, in
      order of addition, and what is left in the queue is exactly what is outstanding. */
  lemma {:induction false} DeliveredOnTime(ops: seq<Op>)
    requires PositiveDelays(ops) && NeverFull(ops)
    ensures OnTime(ops)
  {
    if ops == [] {
    } else {
      var init := ops[..|ops| - 1];
      assert ops == init + [ops[|ops| - 1]];
      assert forall k :: 0 <= k < |init| ==> init[k] == ops[k];
      DeliveredOnTime(init);
      match ops[|ops| - 1]
      case Tick => OnTimeAfterTick(init, ops);
      case Add(index, delay) => OnTimeAfterAdd(init, index, delay, ops);
    }
  }

  // ------------------------------------------------------------------
  // Nothing is late exactly when nothing was thrown away.

  function TotalReturned(returned: seq<seq<int>>): nat {
    if returned == [] then 0 else
      TotalReturned(returned[..|returned| - 1]) + |returned[|returned| - 1]|
  }

  lemma {:induction false} DueOrRest(updates: seq<BlockUpdate>)
    ensures |Due(updates)| + |Rest(updates)| == |updates|
  {
    hide Due, Rest;
    if updates == [] {
      NothingDue();
    } else {
      var init, last := updates[..|updates| - 1], updates[|updates| - 1];
      DueOrRest(init);
      TickOnLast(init, last);
      assert init + [last] == updates;
    }
  }

  /** What a run has returned and what is left never exceed what was added, and they make up for
      it only as long as no full queue was thrown away. */
  lemma {:induction false} Accounted(ops: seq<Op>)
    ensures var run := Execute(ops);
            && TotalReturned(run.returned) + |run.updates| <= |Schedule(ops)|
            && (TotalReturned(run.returned) + |run.updates| == |Schedule(ops)| ==> NeverFull(ops))
  {
    if ops != [] {
      var before := Execute(ops[..|ops| - 1]);
      Accounted(ops[..|ops| - 1]);
      if ops[|ops| - 1].Tick? {
        DueOrRest(before.updates);
        assert Execute(ops).returned[..|before.returned|] == before.returned;
      }
    }
  }

  /** The number of entries that are scheduled for the ticks up to n. */
  function DueUntil(entries: seq<Entry>, n: nat): nat {
    if n == 0 then 0 else DueUntil(entries, n - 1) + |DueAt(entries, n)|
  }

  lemma {:induction false} ScheduleSplits(entries: seq<Entry>, n: nat)
    requires forall k :: 0 <= k < |entries| ==> entries[k].deadline >= 1
    ensures DueUntil(entries, n) + |Outstanding(entries, n)| == |entries|
  {
    hide Due, Rest, DueAt, Outstanding;
    if n == 0 {
      AllOutstanding(entries);
    } else {
      ScheduleSplits(entries, n - 1);
      TickOnOutstanding(entries, n - 1);
      DueOrRest(Outstanding(entries, n - 1));
    }
  }

  lemma {:induction false} AllOutstanding(entries: seq<Entry>)
    requires forall k :: 0 <= k < |entries| ==> entries[k].deadline >= 1
    ensures |Outstanding(entries, 0)| == |entries|
  {
    if entries != [] {
      AllOutstanding(entries[..|entries| - 1]);
    }
  }

  lemma {:induction false} DeadlinesPositive(ops: seq<Op>)
    requires PositiveDelays(ops)
    ensures forall k :: 0 <= k < |Schedule(ops)| ==> Schedule(ops)[k].deadline >= 1
  {
    if ops != [] {
      DeadlinesPositive(ops[..|ops| - 1]);
    }
  }

  lemma {:induction false} ReturnedUntil(returned: seq<seq<int>>, entries: seq<Entry>)
    requires forall n :: 1 <= n <= |returned| ==> returned[n - 1] == DueAt(entries, n)
    ensures TotalReturned(returned) == DueUntil(entries, |returned|)
  {
    if returned != [] {
      var n := |returned|;
      ReturnedUntil(returned[..n - 1], entries);
      assert returned[n - 1] == DueAt(entries, n);
    }
  }

  /** With positive delays, a run delivers every entry on time exactly if no addition met a full
      queue. */
  lemma OnTimeIffNeverFull(ops: seq<Op>)
    requires PositiveDelays(ops)
    ensures OnTime(ops) <==> NeverFull(ops)
  {
    if NeverFull(ops) {
      DeliveredOnTime(ops);
    }
    if OnTime(ops) {
      hide Execute, Schedule, NeverFull;
      DeadlinesPositive(ops);
      ReturnedUntil(Execute(ops).returned, Schedule(ops));
      ScheduleSplits(Schedule(ops), Clock(ops));
      Accounted(ops);
    }
  }

  /** So a run that adds fewer than 2^30 entries delivers all of them on time. */
  lemma {:induction false} FewOnTime(ops: seq<Op>)
    requires PositiveDelays(ops) && |Schedule(ops)| <= 1073741823
    ensures OnTime(ops)
  {
    FewNeverFull(ops);
    DeliveredOnTime(ops);
  }

  lemma {:induction false} FewNeverFull(ops: seq<Op>)
    requires |Schedule(ops)| <= 1073741823
    ensures NeverFull(ops)
  {
    if ops != [] {
      FewNeverFull(ops[..|ops| - 1]);
      Accounted(ops[..|ops| - 1]);
    }
  }

  /** A full queue loses everything: the entries outstanding before the addition never come out. */
  lemma OverflowDropsAll(ops: seq<Op>, index: int, delay: nat)
    requires |Execute(ops).updates| >= 1073741823
    ensures Execute(ops + [Add(index, delay)]) == Run([], Execute(ops).returned)
  {
    var all := ops + [Add(index, delay)];
    assert all[..|all| - 1] == ops;
  }
}
