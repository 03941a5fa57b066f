/** Audit job routing as one transition system: submissions, worker picks, the drain coroutine over the
    Redis priority queue, and replays of the Kafka overflow topic, interleaved at every await.

    Redis commands are single steps, so the drain's `zpopmin / get / delete` and the purge's `exists / zrem`
    are separate steps. What the outside stores, Temporal and the audit pipeline answer is part of an action. */
module AuditRouting {
  import opened Common
  import opened AuditWorker

  // ---------- state ----------

  datatype Worker = Free(streak: nat) | Blocked | Busy(job: Job, streak: nat)

  datatype Stage = AwaitPq | AwaitKafka

  /** A `submit` call that found the queue full and has not answered yet. */
  datatype Pending = Pending(job: Job, fromOverflow: bool, stage: Stage)

  /** Where the drain coroutine stands. */
  datatype Drain =
    | Idle
    | Popped(id: int)                        // zpopmin done, payload not read
    | Peeked(id: int, seen: Job)             // pop_matching chose this member, zrem not done
    | Loaded(id: int, found: Option<Job>)    // payload read, not deleted
    | Hand(job: Job)                         // job in hand, not routed
    | PurgeChecked(id: int)                  // purge saw no payload, zrem not done

  datatype Sys = Sys(
    pool: Pool, workers: map<nat, Worker>,
    zset: set<int>, payload: map<int, Job>,
    topic: seq<Job>, pending: map<nat, Pending>, drain: Drain,
    closed: set<int>, started: set<int>, evicted: set<int>,
    accepted: set<int>, refused: set<Job>)

  datatype Started = Accepted | Refused | Unavailable

  datatype Finish = Analysed | HandedToTemporal | ShedToQueue

  datatype Action =
    | Submit(ticket: nat, job: Job)
    | PqAnswer(ticket: nat, ok: bool, written: bool)
    | KafkaAnswer(ticket: nat, ok: bool, written: bool)
    | Replay(offset: nat, ticket: nat)
    | Block(worker: nat)
    | Take(worker: nat)
    | Wake(worker: nat)
    | FinishJob(worker: nat, how: Finish)
    | DrainPop(id: int)
    | DrainPeek(id: int)
    | DrainClaim
    | DrainLoad
    | DrainDelete
    | DrainRoute(expired: bool, temporalLane: bool, answer: Started)
    | PurgeCheck(id: int)
    | PurgeRemove

  function Init(workers: nat): Sys {
    Sys(Pool([], 0, []), FreeWorkers(workers), {}, map[], [], map[], Idle, {}, {}, {}, {}, {})
  }

  function FreeWorkers(n: nat): (ws: map<nat, Worker>)
    ensures forall w: nat :: w in ws <==> w < n
    ensures forall w: nat :: w in ws ==> ws[w] == Free(0)
  {
    if n == 0 then map[] else FreeWorkers(n - 1)[n - 1 := Free(0)]
  }

  // ---------- where an event id can be ----------

  function QueueIds(q: seq<Entry>): set<int> { set e | e in q :: e.job.id }

  function JobIds(q: seq<Job>): set<int> { set j | j in q :: j.id }

  function BusyIds(ws: map<nat, Worker>): set<int> { set w | w in ws && ws[w].Busy? :: ws[w].job.id }

  function ReplayIds(p: map<nat, Pending>): set<int> { set t | t in p && p[t].fromOverflow :: p[t].job.id }

  /** The id the drain coroutine is working on. */
  function DrainIds(d: Drain): set<int> {
    match d
    case Idle => {}
    case Hand(j) => {j.id}
    case _ => {d.id}
  }

  /** The id whose job the drain coroutine alone can still deliver. */
  function HeldIds(d: Drain, payload: map<int, Job>): set<int> {
    match d
    case Popped(id) => if id in payload then {id} else {}
    case Loaded(id, Some(_)) => {id}
    case Hand(j) => {j.id}
    case _ => {}
  }

  /** Every place but the priority queue. */
  function Elsewhere(s: Sys): set<int> {
    QueueIds(s.pool.queue) + JobIds(s.pool.overflow) + BusyIds(s.workers) + JobIds(s.topic)
    + ReplayIds(s.pending) + HeldIds(s.drain, s.payload) + s.closed + s.started + s.evicted
  }

  /** An id is covered when some place holds it, or it is finished, or the deque cap evicted it. */
  function Covered(s: Sys): set<int> {
    Elsewhere(s) + s.zset * s.payload.Keys
  }

  // ---------- effects ----------

  function WriteQueue(s: Sys, j: Job): Sys {
    s.(zset := s.zset + {j.id}, payload := s.payload[j.id := j])
  }

  function Defer(s: Sys, t: nat, j: Job): Sys {
    s.(pool := DeferLocally(s.pool, j),
       evicted := s.evicted + (JobIds(s.pool.overflow + [j]) - JobIds(DeferLocally(s.pool, j).overflow)),
       pending := s.pending - {t},
       accepted := s.accepted + {j.id})
  }

  /** The await-free first part of `submit`. */
  function SubmitStart(c: Config, s: Sys, t: nat, j: Job, fromOverflow: bool): Sys {
    if !Full(c, s.pool) then s.(pool := Enqueue(s.pool, j), accepted := s.accepted + {j.id})
    else if c.NeverDrop(j.tier) then s.(pending := s.pending[t := Pending(j, fromOverflow, AwaitPq)])
    else s.(refused := s.refused + {j})
  }

  function AfterPq(s: Sys, t: nat, ok: bool, written: bool): Sys
    requires t in s.pending
  {
    var p := s.pending[t];
    var s1 := if written then WriteQueue(s, p.job) else s;
    if ok then s1.(pending := s.pending - {t}, accepted := s.accepted + {p.job.id})
    else if p.fromOverflow then Defer(s1, t, p.job)
    else s1.(pending := s.pending[t := p.(stage := AwaitKafka)])
  }

  function AfterKafka(s: Sys, t: nat, ok: bool, written: bool): Sys
    requires t in s.pending
  {
    var p := s.pending[t];
    var s1 := if written then s.(topic := s.topic + [p.job]) else s;
    if ok then s1.(pending := s.pending - {t}, accepted := s.accepted + {p.job.id})
    else Defer(s1, t, p.job)
  }

  /** The overflow consumer: drop a payload without an id, resubmit the rest with from_overflow. */
  function AfterReplay(c: Config, s: Sys, i: nat, t: nat): Sys
    requires i < |s.topic|
  {
    var s1 := s.(topic := s.topic[..i] + s.topic[i + 1..]);
    if s.topic[i].id <= 0 then s1 else SubmitStart(c, s1, t, s.topic[i], true)
  }

  function AfterTake(s: Sys, w: nat, streak: nat): Sys
    requires s.pool.queue != [] || s.pool.overflow != []
  {
    var src := Choose(streak, s.pool.queue == [], s.pool.overflow == []);
    match src
    case FromQueue =>
      s.(pool := s.pool.(queue := s.pool.queue[1..]),
         workers := s.workers[w := Busy(s.pool.queue[0].job, NextStreak(streak, src))])
    case FromOverflow =>
      s.(pool := s.pool.(overflow := s.pool.overflow[1..]),
         workers := s.workers[w := Busy(s.pool.overflow[0], NextStreak(streak, src))])
  }

  /** The pipeline ends, starts a Temporal workflow, or sheds a P0/P1 job back to the priority queue. */
  function AfterFinish(s: Sys, w: nat, how: Finish): Sys
    requires w in s.workers && s.workers[w].Busy?
  {
    var j := s.workers[w].job;
    var s1 := s.(workers := s.workers[w := Free(s.workers[w].streak)]);
    match how
    case Analysed => s1.(closed := s.closed + {j.id})
    case HandedToTemporal => s1.(started := s.started + {j.id})
    case ShedToQueue => if j.tier in {P0, P1} then WriteQueue(s1, j) else s1.(closed := s.closed + {j.id})
  }

  datatype Route = Skip | Requeue(job: Job) | Close | Workflow | Local

  /** The routing decision of one drain round; everything after the last await reads the pool as it is now. */
  function RouteOf(c: Config, p: Pool, j: Job, expired: bool, temporalLane: bool, answer: Started): Route {
    if j.id == 0 then Skip
    else if expired then
      if j.retry < 2 && j.tier in {P0, P1} then Requeue(j.(retry := j.retry + 1)) else Close
    else if temporalLane && j.tier == P0 && answer == Accepted then Workflow
    else if temporalLane && j.tier == P0 && answer == Refused then Requeue(j)
    else if |p.queue| * 10 >= c.queueMax * 9 then Requeue(j)
    else Local
  }

  function AfterRoute(c: Config, s: Sys, j: Job, r: Route): Sys {
    var s1 := s.(drain := Idle);
    match r
    case Skip => s1
    case Requeue(j') => WriteQueue(s1, j')
    case Close => s1.(closed := s.closed + {j.id})
    case Workflow => s1.(started := s.started + {j.id})
    case Local => SubmitStart(c, s1, 0, j, false)
  }

  /** The purge is allowed whenever the drain is idle: more often than in the source, where it follows a round that
      handled nothing. Every run of the source is among the runs here. */
  predicate Enabled(s: Sys, a: Action) {
    match a
    case Submit(t, j) => t !in s.pending && j.id > 0
    case PqAnswer(t, ok, written) => t in s.pending && s.pending[t].stage == AwaitPq && (ok ==> written)
    case KafkaAnswer(t, ok, written) => t in s.pending && s.pending[t].stage == AwaitKafka && (ok ==> written)
    case Replay(i, t) => i < |s.topic| && t !in s.pending
    case Block(w) => w in s.workers && s.workers[w].Free? && s.pool.queue == [] && s.pool.overflow == []
    case Take(w) => w in s.workers && s.workers[w].Free? && (s.pool.queue != [] || s.pool.overflow != [])
    case Wake(w) => w in s.workers && s.workers[w].Blocked? && s.pool.queue != []
    case FinishJob(w, _) => w in s.workers && s.workers[w].Busy?
    case DrainPop(id) => s.drain.Idle? && id in s.zset
    case DrainPeek(id) => s.drain.Idle? && id in s.zset && id in s.payload
    case DrainClaim => s.drain.Peeked?
    case DrainLoad => s.drain.Popped?
    case DrainDelete => s.drain.Loaded?
    case DrainRoute(_, _, _) => s.drain.Hand?
    case PurgeCheck(id) => s.drain.Idle? && id in s.zset && id !in s.payload
    case PurgeRemove => s.drain.PurgeChecked?
  }

  function Effect(c: Config, s: Sys, a: Action): Sys
    requires Enabled(s, a)
  {
    match a
    case Submit(t, j) => SubmitStart(c, s, t, j, false)
    case PqAnswer(t, ok, written) => AfterPq(s, t, ok, written)
    case KafkaAnswer(t, ok, written) => AfterKafka(s, t, ok, written)
    case Replay(i, t) => AfterReplay(c, s, i, t)
    case Block(w) => s.(workers := s.workers[w := Blocked])
    case Take(w) => AfterTake(s, w, s.workers[w].streak)
    case Wake(w) =>
      // a blocked `queue.get()` only ever yields from the queue, whatever the deque holds
      s.(pool := s.pool.(queue := s.pool.queue[1..]), workers := s.workers[w := Busy(s.pool.queue[0].job, 0)])
    case FinishJob(w, how) => AfterFinish(s, w, how)
    case DrainPop(id) => s.(zset := s.zset - {id}, drain := Popped(id))
    case DrainPeek(id) => s.(drain := Peeked(id, s.payload[id]))
    case DrainClaim =>
      if s.drain.id in s.zset
      then s.(zset := s.zset - {s.drain.id}, drain := Loaded(s.drain.id, Some(s.drain.seen)))
      else s.(drain := Idle)
    case DrainLoad =>
      s.(drain := Loaded(s.drain.id, if s.drain.id in s.payload then Some(s.payload[s.drain.id]) else None))
    case DrainDelete =>
      s.(payload := s.payload - {s.drain.id},
         drain := match s.drain.found case Some(j) => Hand(j) case None => Idle)
    case DrainRoute(expired, lane, answer) =>
      AfterRoute(c, s, s.drain.job, RouteOf(c, s.pool, s.drain.job, expired, lane, answer))
    case PurgeCheck(id) => s.(drain := PurgeChecked(id))
    case PurgeRemove => s.(zset := s.zset - {s.drain.id}, drain := Idle)
  }

  function Next(c: Config, s: Sys, a: Action): Sys {
    if Enabled(s, a) then Effect(c, s, a) else s
  }

  /** Every sequence of actions is a run; an action that is not enabled changes nothing. */
  function Exec(c: Config, s: Sys, acts: seq<Action>): Sys
    decreases |acts|
  {
    if acts == [] then s else Exec(c, Next(c, s, acts[0]), acts[1..])
  }

  // ---------- invariants ----------

  /** Ids the system has promised not to lose, and ids it is handling. */
  function Tracked(s: Sys): set<int> {
    s.accepted + s.zset + DrainIds(s.drain)
  }

  ghost predicate Shape(c: Config, s: Sys) {
    && PoolValid(c, s.pool)
    && (forall id :: id in s.payload ==> s.payload[id].id == id && id > 0)
    && (forall i :: 0 <= i < |s.topic| ==> s.topic[i].id > 0 && c.NeverDrop(s.topic[i].tier))
    && (forall t :: t in s.pending ==>
         && s.pending[t].job.id > 0
         && c.NeverDrop(s.pending[t].job.tier)
         && (s.pending[t].fromOverflow ==> s.pending[t].stage == AwaitPq))
    && (forall w :: w in s.workers && s.workers[w].Busy? ==> s.workers[w].job.id > 0)
    && (forall i :: 0 <= i < |s.pool.queue| ==> s.pool.queue[i].job.id > 0)
    && (forall i :: 0 <= i < |s.pool.overflow| ==> s.pool.overflow[i].id > 0)
    && (match s.drain
        case Peeked(id, j) => j.id == id && id > 0
        case Loaded(id, Some(j)) => j.id == id && id > 0
        case Hand(j) => j.id > 0
        case _ => true)
    && (forall j :: j in s.refused ==> !c.NeverDrop(j.tier))
  }

  ghost predicate Inv(c: Config, s: Sys) {
    Shape(c, s) && Tracked(s) <= Covered(s)
  }

  /** A delete or a zrem decided on the absence of a payload that has come back since. */
  predicate StaleRemoval(s: Sys, a: Action) {
    || (a.DrainDelete? && s.drain.Loaded? && s.drain.found.None? && s.drain.id in s.payload)
    || (a.PurgeRemove? && s.drain.PurgeChecked? && s.drain.id in s.payload)
  }

  // ---------- one step ----------

  lemma EnqueueIds(p: Pool, j: Job)
    ensures QueueIds(Enqueue(p, j).queue) == QueueIds(p.queue) + {j.id}
  {
    var e := Entry(j, p.seqNo + 1);
    PushMembers(p.queue, e);
    assert e.job.id == j.id;
    forall id
      ensures id in QueueIds(Enqueue(p, j).queue) <==> id in QueueIds(p.queue) + {j.id}
    {
      if id == j.id { assert e in Enqueue(p, j).queue; }
      if id in QueueIds(p.queue) {
        var x :| x in p.queue && x.job.id == id;
        assert x in Enqueue(p, j).queue;
      }
    }
  }

  lemma EnqueueShape(c: Config, p: Pool, j: Job)
    requires PoolValid(c, p) && !Full(c, p)
    requires j.id > 0 && forall i :: 0 <= i < |p.queue| ==> p.queue[i].job.id > 0
    ensures PoolValid(c, Enqueue(p, j))
    ensures forall i :: 0 <= i < |Enqueue(p, j).queue| ==> Enqueue(p, j).queue[i].job.id > 0
  {
    var e := Entry(j, p.seqNo + 1);
    PushOrdered(p.queue, e);
    PushMembers(p.queue, e);
    forall i | 0 <= i < |Enqueue(p, j).queue|
      ensures Enqueue(p, j).queue[i].job.id > 0
    {
      assert Enqueue(p, j).queue[i] in Push(p.queue, e);
    }
  }

  lemma QueueSplit(q: seq<Entry>)
    requires q != []
    ensures QueueIds(q) == {q[0].job.id} + QueueIds(q[1..])
  {
    assert q == [q[0]] + q[1..];
  }

  lemma JobSplit(q: seq<Job>, i: nat)
    requires i < |q|
    ensures JobIds(q) == {q[i].id} + JobIds(q[..i] + q[i + 1..])
  {
    assert q == q[..i] + [q[i]] + q[i + 1..];
    var rest := q[..i] + q[i + 1..];
    forall j
      ensures j in q <==> j in rest || j == q[i]
    {
      assert j in q <==> j in q[..i] || j == q[i] || j in q[i + 1..];
    }
  }

  lemma JobAppend(q: seq<Job>, j: Job)
    ensures JobIds(q + [j]) == JobIds(q) + {j.id}
  {
    forall x
      ensures x in q + [j] <==> x in q || x == j
    {}
  }

  lemma BusyUpdate(ws: map<nat, Worker>, w: nat, x: Worker)
    requires w in ws
    ensures BusyIds(ws) <= BusyIds(ws[w := x]) + (if ws[w].Busy? then {ws[w].job.id} else {})
    ensures x.Busy? ==> x.job.id in BusyIds(ws[w := x])
  {
    var ws' := ws[w := x];
    forall id | id in BusyIds(ws)
      ensures id in BusyIds(ws') + (if ws[w].Busy? then {ws[w].job.id} else {})
    {
      var v :| v in ws && ws[v].Busy? && ws[v].job.id == id;
      if v != w { assert v in ws' && ws'[v] == ws[v]; }
    }
    if x.Busy? { assert w in ws' && ws'[w] == x; }
  }

  lemma ReplayUpdate(p: map<nat, Pending>, t: nat, x: Pending)
    ensures ReplayIds(p) <= ReplayIds(p[t := x]) + (if t in p then {p[t].job.id} else {})
    ensures x.fromOverflow ==> x.job.id in ReplayIds(p[t := x])
    ensures ReplayIds(p) <= ReplayIds(p - {t}) + (if t in p then {p[t].job.id} else {})
  {
    var p1, p2 := p[t := x], p - {t};
    forall id | id in ReplayIds(p)
      ensures id in ReplayIds(p1) + (if t in p then {p[t].job.id} else {})
      ensures id in ReplayIds(p2) + (if t in p then {p[t].job.id} else {})
    {
      var u :| u in p && p[u].fromOverflow && p[u].job.id == id;
      if u != t { assert u in p1 && p1[u] == p[u] && u in p2 && p2[u] == p[u]; }
    }
    if x.fromOverflow { assert t in p1 && p1[t] == x; }
  }

  /** What one step owes: the shape, no covered id lost, and every tracked id covered. */
  ghost predicate Good(c: Config, s: Sys, s': Sys) {
    Shape(c, s') && Covered(s) <= Covered(s') && Tracked(s') <= Covered(s')
  }

  lemma SubmitGood(c: Config, s: Sys, t: nat, j: Job, fromOverflow: bool)
    requires Shape(c, s) && t !in s.pending && j.id > 0
    ensures var s' := SubmitStart(c, s, t, j, fromOverflow);
      && Shape(c, s') && Covered(s) <= Covered(s') && s'.zset == s.zset && s'.drain == s.drain
      && s.accepted <= s'.accepted <= s.accepted + {j.id}
      && (j.id in s'.accepted ==> j.id in Covered(s') || j.id in s.accepted)
      && (fromOverflow && c.NeverDrop(j.tier) ==> j.id in Covered(s'))
      && (!Full(c, s.pool) ==> j.id in Covered(s'))
  {
    if !Full(c, s.pool) {
      EnqueueIds(s.pool, j);
      EnqueueShape(c, s.pool, j);
    } else if c.NeverDrop(j.tier) {
      ReplayUpdate(s.pending, t, Pending(j, fromOverflow, AwaitPq));
    }
  }

  lemma WriteGood(c: Config, s: Sys, j: Job)
    requires Shape(c, s) && j.id > 0
    ensures Shape(c, WriteQueue(s, j))
    ensures Covered(s) + {j.id} <= Covered(WriteQueue(s, j))
  {}

  lemma CappedIds(d: seq<Job>, j: Job, cap: nat)
    requires j.id > 0 && forall i :: 0 <= i < |d| ==> d[i].id > 0
    ensures forall i :: 0 <= i < |AppendCapped(d, j, cap)| ==> AppendCapped(d, j, cap)[i].id > 0
  {
    var all, r := d + [j], AppendCapped(d, j, cap);
    forall i | 0 <= i < |r|
      ensures r[i].id > 0
    {
      assert r[i] == all[|all| - |r| + i];
    }
  }

  lemma DeferShape(c: Config, s: Sys, t: nat)
    requires Shape(c, s) && t in s.pending
    ensures Shape(c, Defer(s, t, s.pending[t].job))
  {
    CappedIds(s.pool.overflow, s.pending[t].job, P0_OVERFLOW_MAX);
  }

  lemma DeferCovers(c: Config, s: Sys, t: nat)
    requires t in s.pending
    ensures var s' := Defer(s, t, s.pending[t].job);
      Covered(s) + {s.pending[t].job.id} <= Covered(s')
  {
    var j := s.pending[t].job;
    var s' := Defer(s, t, j);
    JobAppend(s.pool.overflow, j);
    ReplayUpdate(s.pending, t, s.pending[t]);
    var kept := JobIds(s'.pool.overflow);
    assert JobIds(s.pool.overflow) + {j.id} <= kept + s'.evicted;
    assert ReplayIds(s.pending) <= ReplayIds(s'.pending) + {j.id};
  }

  /** A submission leaves the pending table once the priority queue holds its id. */
  lemma AnswerGood(c: Config, s: Sys, t: nat)
    requires Shape(c, s) && t in s.pending && s.pending[t].job.id in s.zset * s.payload.Keys
    ensures var s' := s.(pending := s.pending - {t}, accepted := s.accepted + {s.pending[t].job.id});
      Shape(c, s') && Covered(s) <= Covered(s')
  {
    ReplayUpdate(s.pending, t, s.pending[t]);
  }

  lemma AdvanceGood(c: Config, s: Sys, t: nat)
    requires Shape(c, s) && t in s.pending && !s.pending[t].fromOverflow
    ensures var s' := s.(pending := s.pending[t := s.pending[t].(stage := AwaitKafka)]);
      Shape(c, s') && Covered(s) <= Covered(s')
  {
    var p := s.pending;
    var p' := p[t := p[t].(stage := AwaitKafka)];
    forall id | id in ReplayIds(p)
      ensures id in ReplayIds(p')
    {
      var u :| u in p && p[u].fromOverflow && p[u].job.id == id;
      assert u in p' && p'[u] == p[u];
    }
  }

  lemma PqGood(c: Config, s: Sys, a: Action)
    requires Inv(c, s) && a.PqAnswer? && Enabled(s, a)
    ensures Good(c, s, Effect(c, s, a))
  {
    var p := s.pending[a.ticket];
    var s1 := if a.written then WriteQueue(s, p.job) else s;
    WriteGood(c, s, p.job);
    assert Tracked(s1) <= Covered(s1);
    if a.ok {
      AnswerGood(c, s1, a.ticket);
    } else if p.fromOverflow {
      DeferShape(c, s1, a.ticket);
      DeferCovers(c, s1, a.ticket);
    } else {
      AdvanceGood(c, s1, a.ticket);
    }
  }

  lemma TopicGood(c: Config, s: Sys, j: Job)
    requires Shape(c, s) && j.id > 0 && c.NeverDrop(j.tier)
    ensures var s' := s.(topic := s.topic + [j]); Shape(c, s') && Covered(s) + {j.id} <= Covered(s')
  {
    JobAppend(s.topic, j);
  }

  lemma KafkaGood(c: Config, s: Sys, a: Action)
    requires Inv(c, s) && a.KafkaAnswer? && Enabled(s, a)
    ensures Good(c, s, Effect(c, s, a))
  {
    var p := s.pending[a.ticket];
    var s1 := if a.written then s.(topic := s.topic + [p.job]) else s;
    TopicGood(c, s, p.job);
    if a.ok {
      ProducedGood(c, s, s1, a.ticket);
    } else {
      DeferShape(c, s1, a.ticket);
      DeferCovers(c, s1, a.ticket);
    }
  }

  /** A submission leaves the pending table once the topic holds its id. */
  lemma ProducedGood(c: Config, s: Sys, s1: Sys, t: nat)
    requires Inv(c, s) && t in s.pending && s1 == s.(topic := s.topic + [s.pending[t].job])
    requires Shape(c, s1) && Covered(s) + {s.pending[t].job.id} <= Covered(s1)
    ensures Good(c, s, s1.(pending := s.pending - {t}, accepted := s.accepted + {s.pending[t].job.id}))
  {
    ReplayUpdate(s.pending, t, s.pending[t]);
    JobAppend(s.topic, s.pending[t].job);
  }

  lemma ReplayGood(c: Config, s: Sys, a: Action)
    requires Inv(c, s) && a.Replay? && Enabled(s, a)
    ensures Good(c, s, Effect(c, s, a))
  {
    var i := a.offset;
    var s1 := s.(topic := s.topic[..i] + s.topic[i + 1..]);
    TakenFromTopic(c, s, i);
    SubmitGood(c, s1, a.ticket, s.topic[i], true);
  }

  lemma TakenFromTopic(c: Config, s: Sys, i: nat)
    requires Shape(c, s) && i < |s.topic|
    ensures var s1 := s.(topic := s.topic[..i] + s.topic[i + 1..]);
      Shape(c, s1) && Covered(s) <= Covered(s1) + {s.topic[i].id}
  {
    JobSplit(s.topic, i);
  }

  lemma TakeQueueGood(c: Config, s: Sys, w: nat, streak: nat)
    requires Inv(c, s) && w in s.workers && !s.workers[w].Busy? && s.pool.queue != []
    ensures var q := s.pool.queue;
      Good(c, s, s.(pool := s.pool.(queue := q[1..]), workers := s.workers[w := Busy(q[0].job, streak)]))
  {
    QueueSplit(s.pool.queue);
    BusyUpdate(s.workers, w, Busy(s.pool.queue[0].job, streak));
    TailValid(c, s.pool);
  }

  lemma TailValid(c: Config, p: Pool)
    requires PoolValid(c, p) && p.queue != []
    ensures PoolValid(c, p.(queue := p.queue[1..]))
  {
    assert forall e :: e in p.queue[1..] ==> e in p.queue;
  }

  lemma TakeOverflowGood(c: Config, s: Sys, w: nat, streak: nat)
    requires Inv(c, s) && w in s.workers && !s.workers[w].Busy? && s.pool.overflow != []
    ensures var d := s.pool.overflow;
      Good(c, s, s.(pool := s.pool.(overflow := d[1..]), workers := s.workers[w := Busy(d[0], streak)]))
  {
    TakeOverflowShape(c, s, w, streak);
    TakeOverflowCovers(s, w, streak);
  }

  lemma TakeOverflowShape(c: Config, s: Sys, w: nat, streak: nat)
    requires Shape(c, s) && w in s.workers && s.pool.overflow != []
    ensures var d := s.pool.overflow;
      Shape(c, s.(pool := s.pool.(overflow := d[1..]), workers := s.workers[w := Busy(d[0], streak)]))
  {}

  lemma TakeOverflowCovers(s: Sys, w: nat, streak: nat)
    requires w in s.workers && !s.workers[w].Busy? && s.pool.overflow != []
    ensures var d := s.pool.overflow;
      Covered(s) <= Covered(s.(pool := s.pool.(overflow := d[1..]), workers := s.workers[w := Busy(d[0], streak)]))
  {
    JobSplit(s.pool.overflow, 0);
    assert s.pool.overflow[..0] + s.pool.overflow[1..] == s.pool.overflow[1..];
    BusyUpdate(s.workers, w, Busy(s.pool.overflow[0], streak));
  }

  lemma TakeGood(c: Config, s: Sys, w: nat)
    requires Inv(c, s) && Enabled(s, Take(w))
    ensures Good(c, s, Effect(c, s, Take(w)))
  {
    var streak := s.workers[w].streak;
    var src := Choose(streak, s.pool.queue == [], s.pool.overflow == []);
    match src
    case FromQueue => TakeQueueGood(c, s, w, NextStreak(streak, src));
    case FromOverflow => TakeOverflowGood(c, s, w, NextStreak(streak, src));
  }

  lemma MarkGood(c: Config, s: Sys, id: int)
    requires Shape(c, s)
    ensures Shape(c, s.(closed := s.closed + {id})) && Covered(s) + {id} <= Covered(s.(closed := s.closed + {id}))
    ensures Shape(c, s.(started := s.started + {id})) && Covered(s) + {id} <= Covered(s.(started := s.started + {id}))
  {}

  lemma ReleaseGood(c: Config, s: Sys, w: nat)
    requires Shape(c, s) && w in s.workers && s.workers[w].Busy?
    ensures var s1 := s.(workers := s.workers[w := Free(s.workers[w].streak)]);
      Shape(c, s1) && Covered(s) <= Covered(s1) + {s.workers[w].job.id}
  {
    BusyUpdate(s.workers, w, Free(s.workers[w].streak));
  }

  lemma FinishGood(c: Config, s: Sys, w: nat, how: Finish)
    requires Inv(c, s) && w in s.workers && s.workers[w].Busy?
    ensures Good(c, s, AfterFinish(s, w, how))
  {
    var j := s.workers[w].job;
    var s1 := s.(workers := s.workers[w := Free(s.workers[w].streak)]);
    ReleaseGood(c, s, w);
    if how.ShedToQueue? && j.tier in {P0, P1} {
      WriteGood(c, s1, j);
    } else {
      MarkGood(c, s1, j.id);
    }
  }

  lemma BlockGood(c: Config, s: Sys, w: nat)
    requires Inv(c, s) && w in s.workers && s.workers[w].Free?
    ensures Good(c, s, s.(workers := s.workers[w := Blocked]))
  {
    BusyUpdate(s.workers, w, Blocked);
  }

  /** The steps that only move the drain coroutine along. */
  lemma DrainShape(c: Config, s: Sys, a: Action)
    requires Shape(c, s) && Enabled(s, a)
    requires a.DrainPop? || a.DrainPeek? || a.DrainClaim? || a.DrainLoad? || a.DrainDelete? || a.PurgeCheck?
          || a.PurgeRemove?
    ensures Shape(c, Effect(c, s, a))
  {}

  lemma DrainFrame(c: Config, s: Sys, a: Action)
    requires Enabled(s, a)
    requires a.DrainPop? || a.DrainPeek? || a.DrainClaim? || a.DrainLoad? || a.DrainDelete? || a.PurgeCheck?
          || a.PurgeRemove?
    ensures var s' := Effect(c, s, a);
      s' == s.(zset := s'.zset, payload := s'.payload, drain := s'.drain)
  {}

  /** With only those three fields changed, coverage is decided by them. */
  lemma CoveredByFields(s: Sys, s': Sys)
    requires s' == s.(zset := s'.zset, payload := s'.payload, drain := s'.drain)
    requires forall id :: id in HeldIds(s.drain, s.payload) || id in s.zset * s.payload.Keys ==>
                id in HeldIds(s'.drain, s'.payload) || id in s'.zset * s'.payload.Keys
    ensures Covered(s) <= Covered(s')
  {
    forall id | id in Covered(s)
      ensures id in Covered(s')
    {
      if id in HeldIds(s.drain, s.payload) || id in s.zset * s.payload.Keys {
        assert id in HeldIds(s'.drain, s'.payload) || id in s'.zset * s'.payload.Keys;
      }
    }
  }

  lemma DrainGood(c: Config, s: Sys, a: Action)
    requires Inv(c, s) && Enabled(s, a) && !StaleRemoval(s, a)
    requires a.DrainPop? || a.DrainPeek? || a.DrainClaim? || a.DrainLoad? || a.DrainDelete? || a.PurgeCheck?
          || a.PurgeRemove?
    ensures Good(c, s, Effect(c, s, a))
  {
    var s' := Effect(c, s, a);
    DrainShape(c, s, a);
    DrainFrame(c, s, a);
    DrainKeepsHeld(c, s, a);
    CoveredByFields(s, s');
    assert Tracked(s') <= Tracked(s);
  }

  lemma DrainKeepsHeld(c: Config, s: Sys, a: Action)
    requires Shape(c, s) && Enabled(s, a) && !StaleRemoval(s, a)
    requires a.DrainPop? || a.DrainPeek? || a.DrainClaim? || a.DrainLoad? || a.DrainDelete? || a.PurgeCheck?
          || a.PurgeRemove?
    ensures var s' := Effect(c, s, a);
      forall id :: id in HeldIds(s.drain, s.payload) || id in s.zset * s.payload.Keys ==>
                id in HeldIds(s'.drain, s'.payload) || id in s'.zset * s'.payload.Keys
  {}

  lemma PutDownGood(c: Config, s: Sys)
    requires Shape(c, s) && s.drain.Hand?
    ensures var s1 := s.(drain := Idle);
      Shape(c, s1) && Covered(s) <= Covered(s1) + {s.drain.job.id}
  {}

  /** When each decision falls, in terms of the job, the answer of Temporal and the room in the worker queue. A job is
      requeued with one more retry when it expired, and as it is otherwise. */
  lemma RouteMeaning(c: Config, p: Pool, j: Job, expired: bool, temporalLane: bool, answer: Started)
    requires j.id > 0 && c.Valid()
    ensures var r, urgent := RouteOf(c, p, j, expired, temporalLane, answer), j.tier == P0 || j.tier == P1;
            var toTemporal := temporalLane && j.tier == P0 && !answer.Unavailable?;
            var room := |p.queue| * 10 < c.queueMax * 9;
      && (r.Local? <==> !expired && !toTemporal && room)
      && (r.Workflow? <==> !expired && toTemporal && answer.Accepted?)
      && (r.Close? <==> expired && (j.retry >= 2 || !urgent))
      && (r.Requeue? <==>
          if expired then j.retry < 2 && urgent else if toTemporal then answer.Refused? else !room)
      && (r.Requeue? ==> r.job == if expired then j.(retry := j.retry + 1) else j)
      && !r.Skip?
      && (r.Local? ==> !Full(c, p))
  {}

  lemma PutDownAs(c: Config, s: Sys, r: Route)
    requires Inv(c, s) && s.drain.Hand?
    requires !r.Skip? && (r.Requeue? ==> r.job.id == s.drain.job.id) && (r.Local? ==> !Full(c, s.pool))
    ensures Good(c, s, AfterRoute(c, s, s.drain.job, r))
  {
    var j := s.drain.job;
    var s1 := s.(drain := Idle);
    PutDownGood(c, s);
    match r
    case Requeue(j') => WriteGood(c, s1, j');
    case Local => LocalGood(c, s1, j);
    case _ => MarkGood(c, s1, j.id);
  }

  lemma RouteGood(c: Config, s: Sys, a: Action)
    requires Inv(c, s) && a.DrainRoute? && Enabled(s, a)
    ensures Good(c, s, Effect(c, s, a))
  {
    RouteMeaning(c, s.pool, s.drain.job, a.expired, a.temporalLane, a.answer);
    PutDownAs(c, s, RouteOf(c, s.pool, s.drain.job, a.expired, a.temporalLane, a.answer));
  }

  lemma LocalGood(c: Config, s: Sys, j: Job)
    requires Shape(c, s) && j.id > 0 && !Full(c, s.pool)
    ensures var s' := s.(pool := Enqueue(s.pool, j), accepted := s.accepted + {j.id});
      Shape(c, s') && Covered(s) + {j.id} <= Covered(s')
  {
    EnqueueIds(s.pool, j);
    EnqueueShape(c, s.pool, j);
  }

  /** Only a stale removal can lose an id: every other step, in every interleaving, keeps the invariant. */
  lemma StepKeepsInv(c: Config, s: Sys, a: Action)
    requires Inv(c, s) && !StaleRemoval(s, a)
    ensures Inv(c, Next(c, s, a))
    ensures Covered(s) <= Covered(Next(c, s, a))
  {
    if Enabled(s, a) {
      match a
      case Submit(t, j) => SubmitGood(c, s, t, j, false);
      case PqAnswer(_, _, _) => PqGood(c, s, a);
      case KafkaAnswer(_, _, _) => KafkaGood(c, s, a);
      case Replay(_, _) => ReplayGood(c, s, a);
      case DrainRoute(_, _, _) => RouteGood(c, s, a);
      case Block(w) => BlockGood(c, s, w);
      case Take(w) => TakeGood(c, s, w);
      case Wake(w) => TakeQueueGood(c, s, w, 0);
      case FinishJob(w, how) => FinishGood(c, s, w, how);
      case _ => DrainGood(c, s, a);
    }
  }

  // ---------- whole runs ----------

  lemma InitInv(c: Config, workers: nat)
    requires c.Valid()
    ensures Inv(c, Init(workers)) && Live(Init(workers))
  {}

  /** No removal in the run is stale. */
  predicate Clean(c: Config, s: Sys, acts: seq<Action>)
    decreases |acts|
  {
    acts == [] || (!StaleRemoval(s, acts[0]) && Clean(c, Next(c, s, acts[0]), acts[1..]))
  }

  /** Never-drop, for every interleaving: an answered id stays held, finished, or evicted by the deque cap;
      no tier with its flag on is ever refused; the queue bound holds. */
  lemma {:induction false} RunsNeverDrop(c: Config, s: Sys, acts: seq<Action>)
    requires Inv(c, s) && Clean(c, s, acts)
    ensures var s' := Exec(c, s, acts);
      && Inv(c, s')
      && s'.accepted <= Covered(s')
      && Covered(s) <= Covered(s')
      && (forall j :: j in s'.refused ==> !c.NeverDrop(j.tier))
      && |s'.pool.queue| <= c.queueMax
    decreases |acts|
  {
    if acts != [] {
      StepKeepsInv(c, s, acts[0]);
      RunsNeverDrop(c, Next(c, s, acts[0]), acts[1..]);
    }
  }

  /** Ids a step writes to the priority queue, other than the drain's own re-enqueue. */
  function QueueWrites(s: Sys, a: Action): set<int> {
    match a
    case PqAnswer(t, _, written) => if t in s.pending && written then {s.pending[t].job.id} else {}
    case FinishJob(w, ShedToQueue) => if w in s.workers && s.workers[w].Busy? then {s.workers[w].job.id} else {}
    case _ => {}
  }

  /** The id is written while the drain is between taking it and deleting its payload. */
  predicate Overlaps(s: Sys, a: Action) {
    (s.drain.Popped? || s.drain.Loaded?) && s.drain.id in QueueWrites(s, a)
  }

  predicate NoOverlap(c: Config, s: Sys, acts: seq<Action>)
    decreases |acts|
  {
    acts == [] || (!Overlaps(s, acts[0]) && NoOverlap(c, Next(c, s, acts[0]), acts[1..]))
  }

  /** No ghost members: every member of the sorted set has its payload. */
  predicate Live(s: Sys) {
    && s.zset <= s.payload.Keys
    && match s.drain
       case Popped(id) => id in s.payload && id !in s.zset
       case Loaded(id, found) => found.Some? && id !in s.zset
       case PurgeChecked(_) => false
       case _ => true
  }

  lemma WriteLive(s: Sys, j: Job)
    requires Live(s) && ((s.drain.Popped? || s.drain.Loaded?) ==> s.drain.id != j.id)
    ensures Live(WriteQueue(s, j))
  {}

  lemma PlacesLive(s: Sys, s': Sys)
    requires Live(s) && s'.zset == s.zset && s'.payload == s.payload && s'.drain == s.drain
    ensures Live(s')
  {}

  /** Submissions touch none of the drain's three fields. */
  lemma SubmitFrame(c: Config, s: Sys, t: nat, j: Job, fromOverflow: bool)
    ensures var s' := SubmitStart(c, s, t, j, fromOverflow);
      && s'.zset == s.zset && s'.payload == s.payload && s'.drain == s.drain
      && s'.topic == s.topic && s'.evicted == s.evicted
  {}

  lemma PqLive(c: Config, s: Sys, a: Action)
    requires Live(s) && a.PqAnswer? && Enabled(s, a) && !Overlaps(s, a)
    ensures Live(Effect(c, s, a))
  {
    var j := s.pending[a.ticket].job;
    if a.written {
      WriteLive(s, j);
      PlacesLive(WriteQueue(s, j), AfterPq(s, a.ticket, a.ok, true));
    } else {
      PlacesLive(s, AfterPq(s, a.ticket, a.ok, false));
    }
  }

  lemma FinishLive(c: Config, s: Sys, w: nat, how: Finish)
    requires Live(s) && Enabled(s, FinishJob(w, how)) && !Overlaps(s, FinishJob(w, how))
    ensures Live(AfterFinish(s, w, how))
  {
    var s1 := s.(workers := s.workers[w := Free(s.workers[w].streak)]);
    if how.ShedToQueue? {
      WriteLive(s1, s.workers[w].job);
    }
  }

  lemma RouteLive(c: Config, s: Sys, r: Route)
    requires Live(s) && s.drain.Hand?
    ensures Live(AfterRoute(c, s, s.drain.job, r))
  {
    var s1 := s.(drain := Idle);
    if r.Requeue? {
      WriteLive(s1, r.job);
    } else {
      SubmitFrame(c, s1, 0, s.drain.job, false);
    }
  }

  lemma ReplayLive(c: Config, s: Sys, i: nat, t: nat)
    requires Live(s) && i < |s.topic|
    ensures Live(AfterReplay(c, s, i, t))
  {
    SubmitFrame(c, s.(topic := s.topic[..i] + s.topic[i + 1..]), t, s.topic[i], true);
  }

  lemma StepKeepsLive(c: Config, s: Sys, a: Action)
    requires Shape(c, s) && Live(s) && !Overlaps(s, a)
    ensures Live(Next(c, s, a)) && !StaleRemoval(s, a)
  {
    if Enabled(s, a) {
      match a
      case PqAnswer(_, _, _) => PqLive(c, s, a);
      case FinishJob(w, how) => FinishLive(c, s, w, how);
      case DrainRoute(x, y, z) => RouteLive(c, s, RouteOf(c, s.pool, s.drain.job, x, y, z));
      case Submit(t, j) => SubmitFrame(c, s, t, j, false);
      case Replay(i, t) => ReplayLive(c, s, i, t);
      case KafkaAnswer(t, ok, written) => PlacesLive(s, AfterKafka(s, t, ok, written));
      case _ =>
    }
  }

  /** When no event id is written to the priority queue while the drain is taking that same id out,
      nothing is ever lost: such a run has no ghost members, hence no stale removals. */
  lemma {:induction false} NoOverlapNeverDrops(c: Config, s: Sys, acts: seq<Action>)
    requires Inv(c, s) && Live(s) && NoOverlap(c, s, acts)
    ensures Clean(c, s, acts)
    ensures Inv(c, Exec(c, s, acts)) && Live(Exec(c, s, acts))
    ensures Exec(c, s, acts).accepted <= Covered(Exec(c, s, acts))
    decreases |acts|
  {
    if acts != [] {
      StepKeepsLive(c, s, acts[0]);
      StepKeepsInv(c, s, acts[0]);
      NoOverlapNeverDrops(c, Next(c, s, acts[0]), acts[1..]);
    }
  }

  /** A step loses a covered id exactly when it is a stale removal and no other place holds that id. */
  lemma LossMeansStale(c: Config, s: Sys, a: Action)
    requires Inv(c, s)
    ensures (exists id :: id in Covered(s) && id !in Covered(Next(c, s, a)))
       <==> StaleRemoval(s, a) && s.drain.id in s.zset && s.drain.id !in Elsewhere(s)
  {
    if !StaleRemoval(s, a) {
      StepKeepsInv(c, s, a);
    } else {
      var s' := Next(c, s, a);
      assert Elsewhere(s') == Elsewhere(s);
      if s.drain.id in s.zset && s.drain.id !in Elsewhere(s) {
        assert s.drain.id in Covered(s) && s.drain.id !in Covered(s');
      } else {
        assert Covered(s) <= Covered(s');
      }
    }
  }

  // ---------- what may enter the topic, and what may be evicted ----------

  lemma AnswersFrame(c: Config, s: Sys, a: Action)
    requires Enabled(s, a) && !a.KafkaAnswer?
    ensures |Effect(c, s, a).topic| <= |s.topic|
    ensures !a.PqAnswer? ==> Effect(c, s, a).evicted == s.evicted
  {
    match a
    case Submit(t, j) => SubmitFrame(c, s, t, j, false);
    case Replay(i, t) => SubmitFrame(c, s.(topic := s.topic[..i] + s.topic[i + 1..]), t, s.topic[i], true);
    case DrainRoute(x, y, z) => SubmitFrame(c, s.(drain := Idle), 0, s.drain.job, false);
    case _ =>
  }

  /** A replayed job never re-enters the overflow topic. */
  lemma TopicGrowsOnlyByFirstSpill(c: Config, s: Sys, a: Action)
    requires Inv(c, s)
    requires |Next(c, s, a).topic| > |s.topic|
    ensures a.KafkaAnswer? && a.ticket in s.pending && !s.pending[a.ticket].fromOverflow
    ensures Next(c, s, a).topic == s.topic + [s.pending[a.ticket].job]
  {
    if !a.KafkaAnswer? && Enabled(s, a) {
      AnswersFrame(c, s, a);
    }
  }

  lemma DeferEvicts(s: Sys, t: nat, j: Job)
    requires |s.pool.overflow| < P0_OVERFLOW_MAX
    ensures Defer(s, t, j).evicted == s.evicted
  {
    assert DeferLocally(s.pool, j).overflow == s.pool.overflow + [j];
  }

  /** An id is evicted only when the local deque was already full. */
  lemma EvictionNeedsFullDeque(c: Config, s: Sys, a: Action)
    requires Inv(c, s)
    requires !(Next(c, s, a).evicted <= s.evicted)
    ensures |s.pool.overflow| == P0_OVERFLOW_MAX
  {
    if !a.KafkaAnswer? && !a.PqAnswer? {
      if Enabled(s, a) { AnswersFrame(c, s, a); }
    } else if |s.pool.overflow| < P0_OVERFLOW_MAX && Enabled(s, a) {
      var p := s.pending[a.ticket];
      if a.PqAnswer? {
        DeferEvicts(if a.written then WriteQueue(s, p.job) else s, a.ticket, p.job);
      } else {
        DeferEvicts(if a.written then s.(topic := s.topic + [p.job]) else s, a.ticket, p.job);
      }
    }
  }

  // ---------- the code's documentation, against the code ----------

  /** Every worker waits inside `queue.get()` on an empty queue while the local deque holds a job. */
  predicate Stranded(s: Sys) {
    && s.pool.overflow != []
    && s.pool.queue == []
    && forall w :: w in s.workers ==> s.workers[w].Blocked?
  }

  /** A job that neither store took goes to the local deque: Redis and Kafka both failed, or Redis failed for a job
      replayed from the overflow topic. */
  predicate Defers(s: Sys, a: Action) {
    && Enabled(s, a)
    && ((a.KafkaAnswer? && !a.ok) || (a.PqAnswer? && !a.ok && s.pending[a.ticket].fromOverflow))
  }

  /** A step strands the deque exactly when it defers a job while the queue is empty and every worker already waits. */
  lemma StrandsIff(c: Config, s: Sys, a: Action)
    requires !Stranded(s)
    ensures Stranded(Next(c, s, a)) <==>
            Defers(s, a) && s.pool.queue == [] && forall w :: w in s.workers ==> s.workers[w].Blocked?
  {
    if Enabled(s, a) {
      match a
      case PqAnswer(t, ok, written) => PqStrandsIff(c, s, t, ok, written);
      case KafkaAnswer(t, ok, written) => KafkaStrandsIff(c, s, t, ok, written);
      case _ => OthersNeverStrand(c, s, a);
    }
  }

  lemma DeferFills(s: Sys, t: nat, j: Job)
    ensures Defer(s, t, j).pool.overflow != [] && Defer(s, t, j).pool.queue == s.pool.queue
    ensures Defer(s, t, j).workers == s.workers
  {}

  lemma PqStrandsIff(c: Config, s: Sys, t: nat, ok: bool, written: bool)
    requires !Stranded(s) && Enabled(s, PqAnswer(t, ok, written))
    ensures Stranded(AfterPq(s, t, ok, written)) <==>
            !ok && s.pending[t].fromOverflow && s.pool.queue == []
            && forall w :: w in s.workers ==> s.workers[w].Blocked?
  {
    DeferFills(if written then WriteQueue(s, s.pending[t].job) else s, t, s.pending[t].job);
  }

  lemma KafkaStrandsIff(c: Config, s: Sys, t: nat, ok: bool, written: bool)
    requires !Stranded(s) && Enabled(s, KafkaAnswer(t, ok, written))
    ensures Stranded(AfterKafka(s, t, ok, written)) <==>
            !ok && s.pool.queue == [] && forall w :: w in s.workers ==> s.workers[w].Blocked?
  {
    DeferFills(if written then s.(topic := s.topic + [s.pending[t].job]) else s, t, s.pending[t].job);
  }

  lemma OthersNeverStrand(c: Config, s: Sys, a: Action)
    requires !Stranded(s) && Enabled(s, a) && !a.PqAnswer? && !a.KafkaAnswer?
    ensures !Stranded(Effect(c, s, a))
  {
    match a
    case FinishJob(w, how) => assert Effect(c, s, a).workers[w].Free?;
    case Take(w) => assert Effect(c, s, a).workers[w].Busy?;
    case Wake(w) => assert Effect(c, s, a).workers[w].Busy?;
    case Block(w) => assert Effect(c, s, a).pool == s.pool;
    case _ => NeverFillsDeque(c, s, a);
  }

  /** Workers and deque stay as they are, and the queue does not shrink to nothing. */
  ghost predicate OnlyFills(s: Sys, s': Sys) {
    && s'.workers == s.workers && s'.pool.overflow == s.pool.overflow && s'.evicted == s.evicted
    && (s'.pool.queue == [] ==> s.pool.queue == [])
  }

  lemma EnqueueOnlyFills(s: Sys, p: Pool, accepted: set<int>)
    requires p.overflow == s.pool.overflow && p.queue != []
    ensures OnlyFills(s, s.(pool := p, accepted := accepted))
  {}

  lemma SubmitOnlyFills(c: Config, s: Sys, t: nat, j: Job, fromOverflow: bool)
    ensures OnlyFills(s, SubmitStart(c, s, t, j, fromOverflow))
  {
    if !Full(c, s.pool) {
      EnqueueOnlyFills(s, Enqueue(s.pool, j), s.accepted + {j.id});
    }
  }

  lemma RouteOnlyFills(c: Config, s: Sys, j: Job, r: Route)
    ensures OnlyFills(s, AfterRoute(c, s, j, r))
  {
    SubmitOnlyFills(c, s.(drain := Idle), 0, j, false);
  }

  lemma ReplayOnlyFills(c: Config, s: Sys, i: nat, t: nat)
    requires i < |s.topic|
    ensures OnlyFills(s, AfterReplay(c, s, i, t))
  {
    SubmitOnlyFills(c, s.(topic := s.topic[..i] + s.topic[i + 1..]), t, s.topic[i], true);
  }

  lemma NeverFillsDeque(c: Config, s: Sys, a: Action)
    requires Enabled(s, a) && !a.PqAnswer? && !a.KafkaAnswer?
    requires !a.FinishJob? && !a.Take? && !a.Wake? && !a.Block?
    ensures OnlyFills(s, Effect(c, s, a))
  {
    match a
    case Submit(t, j) => SubmitOnlyFills(c, s, t, j, false);
    case Replay(i, t) => ReplayOnlyFills(c, s, i, t);
    case DrainRoute(expired, lane, answer) =>
      RouteOnlyFills(c, s, s.drain.job, RouteOf(c, s.pool, s.drain.job, expired, lane, answer));
    case _ =>
  }

  /** Once stranded, a deferred job stays where it is, whatever else happens, for as long as nothing is put on the
      in-memory queue. */
  lemma {:induction false} StrandedUntilNextPut(c: Config, s: Sys, acts: seq<Action>)
    requires Stranded(s)
    requires forall k: nat :: k <= |acts| ==> Exec(c, s, acts[..k]).pool.queue == []
    ensures Stranded(Exec(c, s, acts)) && DequeWaits(s, Exec(c, s, acts))
    decreases |acts|
  {
    if acts != [] {
      var s1 := Next(c, s, acts[0]);
      forall k: nat | k < |acts|
        ensures Exec(c, s1, acts[1..][..k]).pool.queue == []
      {
        assert acts[..k + 1][1..] == acts[1..][..k];
        assert Exec(c, s, acts[..k + 1]).pool.queue == [];
      }
      assert acts[1..][..0] == [];
      StrandedStep(c, s, acts[0]);
      StrandedUntilNextPut(c, s1, acts[1..]);
    }
  }

  /** No job of the deque has been taken out of it; the cap may have evicted some. */
  ghost predicate DequeWaits(s: Sys, s': Sys) {
    s.evicted <= s'.evicted && JobIds(s.pool.overflow) <= JobIds(s'.pool.overflow) + s'.evicted
  }

  lemma StrandedStep(c: Config, s: Sys, a: Action)
    requires Stranded(s) && Next(c, s, a).pool.queue == []
    ensures Stranded(Next(c, s, a)) && DequeWaits(s, Next(c, s, a))
  {
    if Enabled(s, a) {
      match a
      case PqAnswer(t, ok, written) =>
        var s1 := if written then WriteQueue(s, s.pending[t].job) else s;
        DeferWaits(s1, t, s.pending[t].job);
        DeferFills(s1, t, s.pending[t].job);
      case KafkaAnswer(t, ok, written) =>
        var s1 := if written then s.(topic := s.topic + [s.pending[t].job]) else s;
        DeferWaits(s1, t, s.pending[t].job);
        DeferFills(s1, t, s.pending[t].job);
      case FinishJob(_, _) => assert false;
      case Take(_) => assert false;
      case Wake(_) => assert false;
      case Block(_) => assert false;
      case _ => NeverFillsDeque(c, s, a);
    }
  }

  lemma DeferWaits(s: Sys, t: nat, j: Job)
    ensures DequeWaits(s, Defer(s, t, j))
  {
    JobAppend(s.pool.overflow, j);
  }

  const SMALL := Config(1, true, true)

  function Quiet(id: int): Job { Job(id, P3, 20, 0) }

  function Urgent(id: int): Job { Job(id, P0, 90, 0) }

  predicate Reached(acts: seq<Action>, s: Sys) { s == Exec(SMALL, Init(1), acts) }

  /** The only worker runs job 1; the urgent job 7 found the queue full and waits for the Redis answer. */
  lemma UrgentWaits() returns (acts: seq<Action>, s: Sys)
    ensures Reached(acts, s)
    ensures s == Init(1).(pool := Pool([], 1, []), workers := map[0 := Busy(Quiet(1), 0)],
                          pending := map[1 := Pending(Urgent(7), false, AwaitPq)], accepted := {1})
  {
    acts, s := [], Init(1);
    acts, s := Then(acts, s, Submit(0, Quiet(1)));
    assert s.pool == Pool([Entry(Quiet(1), 1)], 1, []);
    acts, s := Then(acts, s, Submit(1, Urgent(7)));
    assert s.pending == map[1 := Pending(Urgent(7), false, AwaitPq)];
    acts, s := Then(acts, s, Take(0));
  }

  lemma WorkerRunsDry(acts0: seq<Action>, s0: Sys) returns (acts: seq<Action>, s: Sys)
    requires Reached(acts0, s0)
    requires s0.workers == map[0 := Busy(Quiet(1), 0)] && s0.pool == Pool([], 1, [])
    ensures Reached(acts, s)
    ensures s == s0.(workers := map[0 := Blocked], closed := s0.closed + {1})
  {
    acts, s := Then(acts0, s0, FinishJob(0, Analysed));
    assert s.workers == map[0 := Free(0)];
    acts, s := Then(acts, s, Block(0));
  }

  /** Stranding is reachable: both stores fail while the only worker empties the queue. */
  lemma StrandedReachable()
    ensures exists acts :: Stranded(Exec(SMALL, Init(1), acts))
  {
    var acts, s := UrgentWaits();
    acts, s := WorkerRunsDry(acts, s);
    acts, s := Then(acts, s, PqAnswer(1, false, false));
    assert s.pending == map[1 := Pending(Urgent(7), false, AwaitKafka)];
    acts, s := Then(acts, s, KafkaAnswer(1, false, false));
    assert s.pool.overflow == [Urgent(7)];
    assert Stranded(s);
  }

  // ---------- the loss is real ----------

  /** Event 7 is submitted twice. The second copy is queued between the drain's read and its delete of the first,
      so member 7 is left without a payload, while the drain hands the first copy to the worker queue. */
  lemma GhostMade() returns (acts: seq<Action>, s: Sys)
    ensures Reached(acts, s)
    ensures s.zset == {7} && s.payload == map[] && s.drain == Hand(Urgent(7)) && s.accepted == {1, 7}
    ensures s.pool == Pool([], 1, []) && s.workers == map[0 := Busy(Quiet(1), 0)] && s.pending == map[]
    ensures s.topic == [] && s.closed == {} && s.started == {} && s.evicted == {}
  {
    acts, s := DrainHoldsFirstCopy();
    acts, s := Then(acts, s, PqAnswer(2, true, true));
    assert s.payload == map[7 := Urgent(7)] && s.zset == {7};
    acts, s := Then(acts, s, DrainDelete);
  }

  lemma BothCopiesSubmitted() returns (acts: seq<Action>, s: Sys)
    ensures Reached(acts, s)
    ensures s == Init(1).(pool := Pool([Entry(Quiet(1), 1)], 1, []), workers := map[0 := Free(0)],
              pending := map[1 := Pending(Urgent(7), false, AwaitPq), 2 := Pending(Urgent(7), false, AwaitPq)],
              accepted := {1})
  {
    acts, s := [], Init(1);
    acts, s := Then(acts, s, Submit(0, Quiet(1)));
    assert s.pool == Pool([Entry(Quiet(1), 1)], 1, []);
    acts, s := Then(acts, s, Submit(1, Urgent(7)));
    assert s.pending == map[1 := Pending(Urgent(7), false, AwaitPq)];
    acts, s := Then(acts, s, Submit(2, Urgent(7)));
    assert s.workers == map[0 := Free(0)];
  }

  lemma FirstCopyQueued() returns (acts: seq<Action>, s: Sys)
    ensures Reached(acts, s)
    ensures s.zset == {7} && s.payload == map[7 := Urgent(7)] && s.drain == Idle
    ensures s.pool == Pool([], 1, []) && s.workers == map[0 := Busy(Quiet(1), 0)]
    ensures s.pending == map[2 := Pending(Urgent(7), false, AwaitPq)] && s.accepted == {1, 7}
    ensures s.topic == [] && s.closed == {} && s.started == {} && s.evicted == {}
  {
    acts, s := BothCopiesSubmitted();
    acts, s := Then(acts, s, Take(0));
    assert s.pool == Pool([], 1, []);
    acts, s := Then(acts, s, PqAnswer(1, true, true));
    assert s.zset == {7} && s.payload == map[7 := Urgent(7)];
    assert s.pending == map[2 := Pending(Urgent(7), false, AwaitPq)];
  }

  lemma DrainHoldsFirstCopy() returns (acts: seq<Action>, s: Sys)
    ensures Reached(acts, s)
    ensures s.zset == {} && s.payload == map[7 := Urgent(7)] && s.drain == Loaded(7, Some(Urgent(7)))
    ensures s.pool == Pool([], 1, []) && s.workers == map[0 := Busy(Quiet(1), 0)]
    ensures s.pending == map[2 := Pending(Urgent(7), false, AwaitPq)] && s.accepted == {1, 7}
    ensures s.topic == [] && s.closed == {} && s.started == {} && s.evicted == {}
  {
    acts, s := FirstCopyQueued();
    acts, s := Then(acts, s, DrainPop(7));
    acts, s := Then(acts, s, DrainLoad);
  }

  lemma GhostSeenByPurge() returns (acts: seq<Action>, s: Sys)
    ensures Reached(acts, s)
    ensures s.zset == {7} && s.payload == map[] && s.drain == PurgeChecked(7) && s.accepted == {1, 7}
    ensures s.pool == Pool([Entry(Urgent(7), 2)], 2, []) && s.workers == map[0 := Busy(Quiet(1), 0)]
    ensures s.pending == map[] && s.topic == [] && s.closed == {} && s.started == {} && s.evicted == {}
  {
    acts, s := GhostMade();
    acts, s := Then(acts, s, DrainRoute(false, false, Unavailable));
    assert s.pool == Pool([Entry(Urgent(7), 2)], 2, []);
    acts, s := Then(acts, s, PurgeCheck(7));
  }

  lemma ShedUnderPurge() returns (acts: seq<Action>, s: Sys)
    ensures Reached(acts, s)
    ensures s.zset == {7} && s.drain == PurgeChecked(7) && s.accepted == {1, 7} && 7 in s.payload
    ensures s.pool == Pool([], 2, []) && s.workers == map[0 := Free(0)] && s.pending == map[]
    ensures s.topic == [] && s.closed == {1} && s.started == {} && s.evicted == {}
  {
    acts, s := GhostSeenByPurge();
    acts, s := Then(acts, s, FinishJob(0, Analysed));
    assert s.workers == map[0 := Free(0)];
    acts, s := Then(acts, s, Take(0));
    assert s.workers == map[0 := Busy(Urgent(7), 0)] && s.pool == Pool([], 2, []);
    acts, s := Then(acts, s, FinishJob(0, ShedToQueue));
    assert s.workers == map[0 := Free(0)];
  }

  /** With overlapping writes the design claim fails: an answered P0 id ends up nowhere. */
  lemma StaleRemovalCanLose()
    ensures exists acts :: var s := Exec(SMALL, Init(1), acts); 7 in s.accepted && 7 !in Covered(s)
  {
    var acts, s := ShedUnderPurge();
    acts, s := Then(acts, s, PurgeRemove);
    assert 7 in s.accepted && 7 !in Covered(s);
    var s' := Exec(SMALL, Init(1), acts);
  }

  /** One more action at the end of a run. */
  lemma Then(acts: seq<Action>, s: Sys, a: Action) returns (acts': seq<Action>, s': Sys)
    requires Reached(acts, s)
    ensures s' == Next(SMALL, s, a) && Reached(acts', s')
  {
    acts', s' := acts + [a], Next(SMALL, s, a);
    ExecAppend(SMALL, Init(1), acts, a);
  }

  lemma {:induction false} ExecAppend(c: Config, s: Sys, acts: seq<Action>, a: Action)
    ensures Exec(c, s, acts + [a]) == Next(c, Exec(c, s, acts), a)
    decreases |acts|
  {
    if acts == [] {
      assert acts + [a] == [a];
      assert Exec(c, Next(c, s, a), [a][1..]) == Next(c, s, a);
    } else {
      assert (acts + [a])[1..] == acts[1..] + [a];
      ExecAppend(c, Next(c, s, acts[0]), acts[1..], a);
    }
  }
}
