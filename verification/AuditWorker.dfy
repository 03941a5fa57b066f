/** The bounded audit worker pool: where a submitted job goes, and which job a worker takes next. */
module AuditWorker {
  import opened Common

  /** Capacity of the in-process deque that backs up the other three stores. */
  const P0_OVERFLOW_MAX: nat := 10000

  datatype Tier = P0 | P1 | P2 | P3

  /** `retry` is the `_pq_retry` count carried inside the event payload. */
  datatype Job = Job(id: int, tier: Tier, priority: int, retry: nat)

  datatype Config = Config(queueMax: int, p0NeverDrop: bool, p1NeverDrop: bool) {
    predicate Valid() { queueMax >= 1 }

    predicate NeverDrop(t: Tier) {
      (t == P0 && p0NeverDrop) || (t == P1 && p1NeverDrop)
    }
  }

  /** `max(1, int(setting or 2000))` */
  function QueueMax(setting: int): (n: int)
    ensures setting >= 1 ==> n == setting
    ensures setting == 0 ==> n == 2000
    ensures setting < 0 ==> n == 1
  {
    Max(1, if setting == 0 then 2000 else setting)
  }

  // ---------- the in-memory priority queue ----------

  datatype Entry = Entry(job: Job, seqNo: nat)

  /** Order of the tuples `(-priority, seq, job)`; seq is unique, so jobs are never compared. */
  predicate Before(a: Entry, b: Entry) {
    a.job.priority > b.job.priority || (a.job.priority == b.job.priority && a.seqNo < b.seqNo)
  }

  ghost predicate Ordered(q: seq<Entry>) {
    forall i, j :: 0 <= i < j < |q| ==> Before(q[i], q[j])
  }

  ghost predicate SeqBelow(q: seq<Entry>, n: nat) {
    forall e :: e in q ==> e.seqNo < n
  }

  function Push(q: seq<Entry>, e: Entry): (r: seq<Entry>)
    ensures multiset(r) == multiset(q) + multiset{e}
    ensures |r| == |q| + 1
  {
    if q == [] then [e]
    else if Before(e, q[0]) then [e] + q
    else
      assert q == [q[0]] + q[1..];
      [q[0]] + Push(q[1..], e)
  }

  lemma {:induction false} PushOrdered(q: seq<Entry>, e: Entry)
    requires Ordered(q) && SeqBelow(q, e.seqNo)
    ensures Ordered(Push(q, e)) && SeqBelow(Push(q, e), e.seqNo + 1)
  {
    PushMembers(q, e);
    if q != [] && !Before(e, q[0]) {
      PushOrdered(q[1..], e);
      PushMembers(q[1..], e);
      var tail := Push(q[1..], e);
      assert forall x :: x in q[1..] ==> x in q;
      assert q[0] in q;
      forall j | 0 <= j < |tail|
        ensures Before(q[0], tail[j])
      {
        assert tail[j] in tail;
        if tail[j] != e {
          var k :| 0 <= k < |q[1..]| && q[1..][k] == tail[j];
          assert q[k + 1] == tail[j];
        }
      }
    }
  }

  lemma PushMembers(q: seq<Entry>, e: Entry)
    ensures forall x :: x in Push(q, e) <==> x in q || x == e
  {
    forall x
      ensures x in Push(q, e) <==> x in q || x == e
    {
      assert x in Push(q, e) <==> x in multiset(Push(q, e));
      assert x in q <==> x in multiset(q);
    }
  }

  // ---------- the local deque ----------

  /** Append on the right, then drop from the left until at most `cap` remain. */
  function AppendCapped(d: seq<Job>, j: Job, cap: nat): (r: seq<Job>)
    ensures |r| == Min(|d| + 1, cap)
    ensures d + [j] == (d + [j])[..|d| + 1 - |r|] + r
  {
    LastN(d + [j], cap)
  }

  // ---------- submit ----------

  datatype Pool = Pool(queue: seq<Entry>, seqNo: nat, overflow: seq<Job>)

  datatype Answer = Queued | Shed | DeferredKafka | DeferredLocal | Overflow

  predicate Full(c: Config, p: Pool) { |p.queue| >= c.queueMax }

  function Enqueue(p: Pool, j: Job): (r: Pool)
    ensures r.overflow == p.overflow && |r.queue| == |p.queue| + 1
  {
    p.(queue := Push(p.queue, Entry(j, p.seqNo + 1)), seqNo := p.seqNo + 1)
  }

  function DeferLocally(p: Pool, j: Job): Pool {
    p.(overflow := AppendCapped(p.overflow, j, P0_OVERFLOW_MAX))
  }

  /** Where `submit` puts a job, given how the Redis queue and the Kafka topic answer. */
  function SubmitAnswer(c: Config, p: Pool, j: Job, fromOverflow: bool, pqOk: bool, kafkaOk: bool): Answer {
    if !Full(c, p) then Queued
    else if !c.NeverDrop(j.tier) then Overflow
    else if pqOk then Shed
    else if !fromOverflow && kafkaOk then DeferredKafka
    else DeferredLocal
  }

  function SubmitPool(p: Pool, j: Job, a: Answer): Pool {
    match a
    case Queued => Enqueue(p, j)
    case DeferredLocal => DeferLocally(p, j)
    case _ => p
  }

  ghost predicate PoolValid(c: Config, p: Pool) {
    && c.Valid()
    && |p.queue| <= c.queueMax
    && Ordered(p.queue)
    && SeqBelow(p.queue, p.seqNo + 1)
    && |p.overflow| <= P0_OVERFLOW_MAX
  }

  /** Every answer of the two stores keeps the pool's bounds and its order. */
  lemma SubmitKeepsPool(c: Config, p: Pool, j: Job, fromOverflow: bool, pqOk: bool, kafkaOk: bool)
    requires PoolValid(c, p)
    ensures PoolValid(c, SubmitPool(p, j, SubmitAnswer(c, p, j, fromOverflow, pqOk, kafkaOk)))
  {
    PushOrdered(p.queue, Entry(j, p.seqNo + 1));
  }

  /** With room a job is queued; without, one that may be dropped is refused, and any other goes to the first store
      that takes it: Redis, then Kafka unless it comes from there, then the local deque. */
  lemma SubmitAnswerMeaning(c: Config, p: Pool, j: Job, fromOverflow: bool, pqOk: bool, kafkaOk: bool)
    ensures var a := SubmitAnswer(c, p, j, fromOverflow, pqOk, kafkaOk);
      && (a == Queued <==> |p.queue| < c.queueMax)
      && (a == Overflow <==> |p.queue| >= c.queueMax && !c.NeverDrop(j.tier))
      && (a == Shed <==> |p.queue| >= c.queueMax && c.NeverDrop(j.tier) && pqOk)
      && (a == DeferredKafka <==>
          |p.queue| >= c.queueMax && c.NeverDrop(j.tier) && !pqOk && kafkaOk && !fromOverflow)
      && (a == DeferredLocal <==>
          |p.queue| >= c.queueMax && c.NeverDrop(j.tier) && !pqOk && !(kafkaOk && !fromOverflow))
  {}

  // ---------- the worker loop ----------

  datatype Source = FromQueue | FromOverflow

  /** The choice of `_loop` when at least one of the two stores holds a job. */
  function Choose(streak: nat, queueEmpty: bool, overflowEmpty: bool): Source {
    if !overflowEmpty then
      if streak >= 2 && !queueEmpty then FromQueue else FromOverflow
    else FromQueue
  }

  function NextStreak(streak: nat, src: Source): nat {
    match src
    case FromQueue => 0
    case FromOverflow => streak + 1
  }

  /** An empty store is never chosen while the other holds a job. */
  lemma ChooseFilled(streak: nat, queueEmpty: bool, overflowEmpty: bool)
    requires !queueEmpty || !overflowEmpty
    ensures queueEmpty ==> Choose(streak, queueEmpty, overflowEmpty) == FromOverflow
    ensures overflowEmpty ==> Choose(streak, queueEmpty, overflowEmpty) == FromQueue
  {}

  /** The next k choices of one worker while both stores stay non-empty. */
  function Choices(streak: nat, k: nat): (r: seq<Source>)
    ensures |r| == k
    decreases k
  {
    if k == 0 then []
    else
      var src := Choose(streak, false, false);
      [src] + Choices(NextStreak(streak, src), k - 1)
  }

  /** Interleaving is exact: one queue job, then two deque jobs, and so on. Neither store starves. */
  lemma {:induction false} ChoicesInterleave(streak: nat, k: nat, i: nat)
    requires i < k
    ensures Choices(streak, k)[i] == FromQueue <==> (i + Min(streak, 2)) % 3 == 2
    decreases k
  {
    var src := Choose(streak, false, false);
    var next := NextStreak(streak, src);
    assert Choices(streak, k) == [src] + Choices(next, k - 1);
    if i > 0 {
      ChoicesInterleave(next, k - 1, i - 1);
      assert Choices(streak, k)[i] == Choices(next, k - 1)[i - 1];
      ThreeCycle(i, Min(streak, 2), Min(next, 2));
    }
  }

  lemma ThreeCycle(i: nat, s: nat, t: nat)
    requires i > 0 && s <= 2 && t == (if s == 2 then 0 else s + 1)
    ensures (i - 1 + t) % 3 == (i + s) % 3
  {}

  /** Taking from the queue yields the highest priority, and the earliest submission among equals. */
  lemma HeadIsBest(c: Config, p: Pool, e: Entry)
    requires PoolValid(c, p) && p.queue != [] && e in p.queue
    ensures p.queue[0].job.priority >= e.job.priority
    ensures p.queue[0].job.priority == e.job.priority ==> p.queue[0].seqNo <= e.seqNo
  {
    var i :| 0 <= i < |p.queue| && p.queue[i] == e;
    if i > 0 {
      assert Before(p.queue[0], p.queue[i]);
    }
  }

  // ---------- the pool object ----------

  class AuditWorkerPool {
    const config: Config
    var queue: seq<Entry>
    var seqNo: nat
    var overflow: seq<Job>
    var busy: nat
    /** Jobs pushed out of the local deque, oldest first. */
    ghost var evicted: seq<Job>
    /** Jobs whose pipeline is running. */
    ghost var running: multiset<Job>

    ghost function State(): Pool
      reads this
    {
      Pool(queue, seqNo, overflow)
    }

    ghost predicate Valid()
      reads this
    {
      PoolValid(config, State()) && busy == |running|
    }

    constructor (queueMaxSetting: int, p0NeverDrop: bool, p1NeverDrop: bool)
      ensures Valid() && State() == Pool([], 0, [])
      ensures evicted == [] && running == multiset{}
      ensures config == Config(QueueMax(queueMaxSetting), p0NeverDrop, p1NeverDrop)
    {
      config := Config(QueueMax(queueMaxSetting), p0NeverDrop, p1NeverDrop);
      queue, seqNo, overflow, busy := [], 0, [], 0;
      evicted, running := [], multiset{};
    }

    method QueueDepth() returns (n: nat)
      ensures n == |queue|
    {
      n := |queue|;
    }

    /** The local fallback of `submit`: append, then evict from the front down to the cap. */
    method Defer(job: Job)
      modifies this`overflow, this`evicted
      ensures overflow == AppendCapped(old(overflow), job, P0_OVERFLOW_MAX)
      ensures evicted + overflow == old(evicted + overflow) + [job]
    {
      ghost var all := overflow + [job];
      assert evicted + all == evicted + overflow + [job];
      overflow := overflow + [job];
      while |overflow| > P0_OVERFLOW_MAX
        invariant Min(|all|, P0_OVERFLOW_MAX) <= |overflow| <= |all|
        invariant overflow == all[|all| - |overflow|..]
        invariant evicted + overflow == old(evicted) + all
      {
        assert evicted + overflow == (evicted + [overflow[0]]) + overflow[1..];
        evicted := evicted + [overflow[0]];
        overflow := overflow[1..];
      }
    }

    /** `pqOk` and `kafkaOk` are what the two external stores would answer. */
    method Submit(job: Job, fromOverflow: bool, pqOk: bool, kafkaOk: bool) returns (answer: Answer)
      requires Valid()
      modifies this
      ensures Valid()
      ensures answer == SubmitAnswer(config, old(State()), job, fromOverflow, pqOk, kafkaOk)
      ensures State() == SubmitPool(old(State()), job, answer)
      ensures evicted + overflow == if answer == DeferredLocal then old(evicted + overflow) + [job]
                                    else old(evicted + overflow)
      ensures busy == old(busy) && running == old(running)
    {
      SubmitKeepsPool(config, State(), job, fromOverflow, pqOk, kafkaOk);
      var depth := QueueDepth();
      if depth >= config.queueMax {
        if !config.NeverDrop(job.tier) {
          return Overflow;
        }
        if pqOk {
          return Shed;
        }
        if !fromOverflow && kafkaOk {
          return DeferredKafka;
        }
        Defer(job);
        return DeferredLocal;
      }
      Enqueued(job);
      return Queued;
    }

    method Enqueued(job: Job)
      modifies this`seqNo, this`queue
      ensures seqNo == old(seqNo) + 1 && queue == Push(old(queue), Entry(job, seqNo))
    {
      seqNo := seqNo + 1;
      queue := Push(queue, Entry(job, seqNo));
    }

    /** One pass of the loop body, for a worker that need not wait. */
    method TakeNext(streak: nat) returns (job: Job, src: Source, streak': nat)
      requires Valid()
      requires queue != [] || overflow != []
      modifies this
      ensures Valid()
      ensures src == Choose(streak, old(queue) == [], old(overflow) == []) && streak' == NextStreak(streak, src)
      ensures src == FromQueue ==> old(queue) == [Entry(job, old(queue[0].seqNo))] + queue && overflow == old(overflow)
      ensures src == FromOverflow ==> old(overflow) == [job] + overflow && queue == old(queue)
      ensures seqNo == old(seqNo) && evicted == old(evicted) && running == old(running) + multiset{job}
    {
      streak' := streak;
      src := FromQueue;
      if overflow != [] {
        var takeMem := streak >= 2 && queue != [];
        if takeMem {
          job, queue := queue[0].job, queue[1..];
          streak' := 0;
        } else {
          job, overflow := overflow[0], overflow[1..];
          src := FromOverflow;
          streak' := streak + 1;
        }
      } else {
        streak' := 0;
        job, queue := queue[0].job, queue[1..];
      }
      busy := busy + 1;
      running := running + multiset{job};
    }

    /** The end of `_run_job`; its `max(0, …)` never binds. */
    method Finish(job: Job)
      requires Valid() && job in running
      modifies this`busy, this`running
      ensures Valid() && running == old(running) - multiset{job} && busy == old(busy) - 1
    {
      running := running - multiset{job};
      busy := if busy - 1 > 0 then busy - 1 else 0;
    }
  }
}
