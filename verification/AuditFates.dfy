/** What becomes of a submitted job on the way that `AuditRouting` describes: where a submission ends, what alone
    finishes a job, and that every job that is held anywhere is one that was handed in. */
module AuditFates {
  import opened Common
  import opened AuditWorker
  import opened AuditRouting

  // ---------- a submission ----------

  /** One submission without any other step in between: the call and the answers of the two stores it asks. */
  function Submission(c: Config, s: Sys, t: nat, j: Job, fromOverflow: bool, pqOk: bool, kafkaOk: bool): Sys {
    var s1 := SubmitStart(c, s, t, j, fromOverflow);
    Next(c, Next(c, s1, PqAnswer(t, pqOk, pqOk)), KafkaAnswer(t, kafkaOk, kafkaOk))
  }

  lemma SpillAs(c: Config, s: Sys, t: nat, j: Job, fromOverflow: bool, pqOk: bool, kafkaOk: bool)
    requires t !in s.pending && Full(c, s.pool) && c.NeverDrop(j.tier)
    ensures var s' := Submission(c, s, t, j, fromOverflow, pqOk, kafkaOk);
            var a := SubmitAnswer(c, s.pool, j, fromOverflow, pqOk, kafkaOk);
            && s'.pool == SubmitPool(s.pool, j, a) && s'.pending == s.pending
            && s'.topic == (if a == DeferredKafka then s.topic + [j] else s.topic)
            && s'.zset == (if a == Shed then s.zset + {j.id} else s.zset)
            && s'.payload == (if a == Shed then s.payload[j.id := j] else s.payload)
            && s'.refused == s.refused && s'.accepted == s.accepted + {j.id}
  {
    var s1 := SubmitStart(c, s, t, j, fromOverflow);
    assert s1.pending == s.pending[t := Pending(j, fromOverflow, AwaitPq)];
    assert s.pending[t := Pending(j, fromOverflow, AwaitPq)] - {t} == s.pending;
    var s2 := Next(c, s1, PqAnswer(t, pqOk, pqOk));
    if !pqOk && !fromOverflow {
      assert s2.pending == s.pending[t := Pending(j, fromOverflow, AwaitKafka)];
      assert s2.pending - {t} == s.pending;
    } else {
      assert s2.pending == s.pending;
    }
  }

  /** A submission that meets no other step ends as the pool's `submit` does, and puts the job where its answer says:
      the queue, the Redis queue, the Kafka topic, the local deque, or nowhere. */
  lemma SubmissionIsSubmit(c: Config, s: Sys, t: nat, j: Job, fromOverflow: bool, pqOk: bool, kafkaOk: bool)
    requires t !in s.pending
    ensures var s' := Submission(c, s, t, j, fromOverflow, pqOk, kafkaOk);
            var a := SubmitAnswer(c, s.pool, j, fromOverflow, pqOk, kafkaOk);
            && s'.pool == SubmitPool(s.pool, j, a) && s'.pending == s.pending
            && s'.topic == (if a == DeferredKafka then s.topic + [j] else s.topic)
            && s'.zset == (if a == Shed then s.zset + {j.id} else s.zset)
            && s'.payload == (if a == Shed then s.payload[j.id := j] else s.payload)
            && s'.refused == (if a == Overflow then s.refused + {j} else s.refused)
            && s'.accepted == (if a == Overflow then s.accepted else s.accepted + {j.id})
  {
    if Full(c, s.pool) && c.NeverDrop(j.tier) {
      SpillAs(c, s, t, j, fromOverflow, pqOk, kafkaOk);
    }
  }

  // ---------- what finishes a job ----------

  /** The drain gives a job up: it expired, and it is out of retries or not urgent. */
  predicate GivesUp(s: Sys, a: Action) {
    && a.DrainRoute? && s.drain.Hand? && a.expired && s.drain.job.id != 0
    && (s.drain.job.retry >= 2 || (s.drain.job.tier != P0 && s.drain.job.tier != P1))
  }

  /** A worker is done with a job: it analysed it, or shed one that is not urgent. */
  predicate WorkerCloses(s: Sys, a: Action) {
    && a.FinishJob? && a.worker in s.workers && s.workers[a.worker].Busy?
    && (a.how == Analysed ||
        (a.how == ShedToQueue && s.workers[a.worker].job.tier != P0 && s.workers[a.worker].job.tier != P1))
  }

  lemma SubmitFinishesNone(c: Config, s: Sys, t: nat, j: Job, fromOverflow: bool)
    ensures var s' := SubmitStart(c, s, t, j, fromOverflow); s'.closed == s.closed && s'.started == s.started
  {}

  lemma RouteFinishes(c: Config, s: Sys, j: Job, r: Route)
    ensures AfterRoute(c, s, j, r).closed == s.closed + (if r.Close? then {j.id} else {})
    ensures AfterRoute(c, s, j, r).started == s.started + (if r.Workflow? then {j.id} else {})
  {
    SubmitFinishesNone(c, s.(drain := Idle), 0, j, false);
  }

  lemma FinishFinishes(s: Sys, w: nat, how: Finish)
    requires w in s.workers && s.workers[w].Busy?
    ensures var s', j := AfterFinish(s, w, how), s.workers[w].job;
            && s'.closed == s.closed + (if WorkerCloses(s, FinishJob(w, how)) then {j.id} else {})
            && s'.started == s.started + (if how == HandedToTemporal then {j.id} else {})
            && (how == ShedToQueue && !WorkerCloses(s, FinishJob(w, how)) ==>
                  j.id in s'.zset && s'.payload == s.payload[j.id := j])
  {}

  lemma OthersFinishNone(c: Config, s: Sys, a: Action)
    requires Enabled(s, a) && !a.FinishJob? && !a.DrainRoute?
    ensures Effect(c, s, a).closed == s.closed && Effect(c, s, a).started == s.started
  {
    match a
    case Submit(t, j) => SubmitFinishesNone(c, s, t, j, false);
    case Replay(i, t) => SubmitFinishesNone(c, s.(topic := s.topic[..i] + s.topic[i + 1..]), t, s.topic[i], true);
    case _ =>
  }

  /** An id is closed by a worker that is done with it, or by the drain that gives it up, and by nothing else. */
  lemma ClosedOnlyBy(c: Config, s: Sys, a: Action)
    requires c.Valid()
    ensures Next(c, s, a).closed == s.closed
              + (if WorkerCloses(s, a) then {s.workers[a.worker].job.id} else {})
              + (if GivesUp(s, a) then {s.drain.job.id} else {})
  {
    if Enabled(s, a) {
      match a
      case FinishJob(w, how) => FinishFinishes(s, w, how);
      case DrainRoute(expired, lane, answer) =>
        RouteFinishes(c, s, s.drain.job, RouteOf(c, s.pool, s.drain.job, expired, lane, answer));
      case _ => OthersFinishNone(c, s, a);
    }
  }

  /** A workflow is started by a worker that hands its job over, or by the drain when Temporal accepts a fresh P0 job of
      the agent lane, and by nothing else. */
  lemma StartedOnlyBy(c: Config, s: Sys, a: Action)
    requires c.Valid()
    ensures var byWorker := a.FinishJob? && Enabled(s, a) && a.how == HandedToTemporal;
            var byDrain := a.DrainRoute? && Enabled(s, a) && s.drain.job.id != 0 && !a.expired && a.temporalLane
                           && s.drain.job.tier == P0 && a.answer.Accepted?;
            Next(c, s, a).started == s.started + (if byWorker then {s.workers[a.worker].job.id} else {})
                                               + (if byDrain then {s.drain.job.id} else {})
  {
    if Enabled(s, a) {
      match a
      case FinishJob(w, how) => FinishFinishes(s, w, how);
      case DrainRoute(expired, lane, answer) =>
        RouteFinishes(c, s, s.drain.job, RouteOf(c, s.pool, s.drain.job, expired, lane, answer));
      case _ => OthersFinishNone(c, s, a);
    }
  }

  // ---------- jobs are what was handed in ----------

  /** The job without its retry count, which alone may change on the way. */
  function Core(j: Job): Job { j.(retry := 0) }

  predicate Known(given: set<Job>, j: Job) { Core(j) in given }

  /** Every job that any store, worker or coroutine holds is known. */
  ghost predicate Genuine(given: set<Job>, s: Sys) {
    && (forall e :: e in s.pool.queue ==> Known(given, e.job))
    && (forall j :: j in s.pool.overflow ==> Known(given, j))
    && (forall j :: j in s.topic ==> Known(given, j))
    && (forall t :: t in s.pending ==> Known(given, s.pending[t].job))
    && (forall id :: id in s.payload ==> Known(given, s.payload[id]))
    && (forall w :: w in s.workers && s.workers[w].Busy? ==> Known(given, s.workers[w].job))
    && (match s.drain
        case Peeked(_, j) => Known(given, j)
        case Loaded(_, Some(j)) => Known(given, j)
        case Hand(j) => Known(given, j)
        case _ => true)
  }

  lemma SubmitGenuine(given: set<Job>, c: Config, s: Sys, t: nat, j: Job, fromOverflow: bool)
    requires Genuine(given, s) && Known(given, j)
    ensures Genuine(given, SubmitStart(c, s, t, j, fromOverflow))
  {
    PushMembers(s.pool.queue, Entry(j, s.pool.seqNo + 1));
  }

  lemma WriteGenuine(given: set<Job>, s: Sys, j: Job)
    requires Genuine(given, s) && Known(given, j)
    ensures Genuine(given, WriteQueue(s, j))
  {}

  lemma DeferGenuine(given: set<Job>, s: Sys, t: nat, j: Job)
    requires Genuine(given, s) && Known(given, j)
    ensures Genuine(given, Defer(s, t, j))
  {
    var d := DeferLocally(s.pool, j).overflow;
    LastNIsDrop(s.pool.overflow + [j], P0_OVERFLOW_MAX);
    assert forall x :: x in d ==> x in s.pool.overflow + [j];
  }

  lemma TakeGenuine(given: set<Job>, s: Sys, w: nat, streak: nat)
    requires Genuine(given, s) && (s.pool.queue != [] || s.pool.overflow != [])
    ensures Genuine(given, AfterTake(s, w, streak))
  {
    ChooseFilled(streak, s.pool.queue == [], s.pool.overflow == []);
    match Choose(streak, s.pool.queue == [], s.pool.overflow == [])
    case FromQueue => assert s.pool.queue[0] in s.pool.queue;
    case FromOverflow => assert s.pool.overflow[0] in s.pool.overflow;
  }

  lemma RouteGenuine(given: set<Job>, c: Config, s: Sys, expired: bool, lane: bool, answer: Started)
    requires Genuine(given, s) && s.drain.Hand?
    ensures Genuine(given, AfterRoute(c, s, s.drain.job, RouteOf(c, s.pool, s.drain.job, expired, lane, answer)))
  {
    var j, s1 := s.drain.job, s.(drain := Idle);
    var r := RouteOf(c, s.pool, j, expired, lane, answer);
    assert Genuine(given, s1);
    match r
    case Requeue(j') => WriteGenuine(given, s1, j');
    case Local => SubmitGenuine(given, c, s1, 0, j, false);
    case _ =>
  }

  lemma ReplayGenuine(given: set<Job>, c: Config, s: Sys, i: nat, t: nat)
    requires Genuine(given, s) && i < |s.topic|
    ensures Genuine(given, AfterReplay(c, s, i, t))
  {
    var s1 := s.(topic := s.topic[..i] + s.topic[i + 1..]);
    assert s.topic[i] in s.topic;
    assert forall x :: x in s1.topic ==> x in s.topic;
    assert Genuine(given, s1);
    if s.topic[i].id > 0 {
      SubmitGenuine(given, c, s1, t, s.topic[i], true);
    }
  }

  lemma PqGenuine(given: set<Job>, s: Sys, t: nat, ok: bool, written: bool)
    requires Genuine(given, s) && t in s.pending
    ensures Genuine(given, AfterPq(s, t, ok, written))
  {
    var p := s.pending[t];
    var s1 := if written then WriteQueue(s, p.job) else s;
    WriteGenuine(given, s, p.job);
    if ok {
      PendingGenuine(given, s1, s.pending - {t}, s.accepted + {p.job.id});
    } else if p.fromOverflow {
      DeferGenuine(given, s1, t, p.job);
    } else {
      PendingGenuine(given, s1, s.pending[t := p.(stage := AwaitKafka)], s1.accepted);
    }
  }

  /** Jobs stay known under any table of pending jobs that are. */
  lemma PendingGenuine(given: set<Job>, s: Sys, pending: map<nat, Pending>, accepted: set<int>)
    requires Genuine(given, s) && forall t :: t in pending ==> Known(given, pending[t].job)
    ensures Genuine(given, s.(pending := pending, accepted := accepted))
  {}

  lemma KafkaGenuine(given: set<Job>, s: Sys, t: nat, ok: bool, written: bool)
    requires Genuine(given, s) && t in s.pending
    ensures Genuine(given, AfterKafka(s, t, ok, written))
  {
    var j := s.pending[t].job;
    DeferGenuine(given, if written then s.(topic := s.topic + [j]) else s, t, j);
  }

  lemma FinishGenuine(given: set<Job>, s: Sys, w: nat, how: Finish)
    requires Genuine(given, s) && w in s.workers && s.workers[w].Busy?
    ensures Genuine(given, AfterFinish(s, w, how))
  {
    var s1 := s.(workers := s.workers[w := Free(s.workers[w].streak)]);
    assert Genuine(given, s1);
    WriteGenuine(given, s1, s.workers[w].job);
  }

  function Given(a: Action): set<Job> { if a.Submit? then {Core(a.job)} else {} }

  lemma StepGenuine(given: set<Job>, c: Config, s: Sys, a: Action)
    requires Genuine(given, s) && Given(a) <= given
    ensures Genuine(given, Next(c, s, a))
  {
    if Enabled(s, a) {
      match a
      case Submit(t, j) => SubmitGenuine(given, c, s, t, j, false);
      case PqAnswer(t, ok, written) => PqGenuine(given, s, t, ok, written);
      case KafkaAnswer(t, ok, written) => KafkaGenuine(given, s, t, ok, written);
      case Replay(i, t) => ReplayGenuine(given, c, s, i, t);
      case Take(w) => TakeGenuine(given, s, w, s.workers[w].streak);
      case Wake(w) => assert s.pool.queue[0] in s.pool.queue;
      case FinishJob(w, how) => FinishGenuine(given, s, w, how);
      case DrainRoute(expired, lane, answer) => RouteGenuine(given, c, s, expired, lane, answer);
      case _ =>
    }
  }

  function AllGiven(acts: seq<Action>): set<Job> {
    if acts == [] then {} else Given(acts[0]) + AllGiven(acts[1..])
  }

  lemma GenuineMore(less: set<Job>, more: set<Job>, s: Sys)
    requires Genuine(less, s) && less <= more
    ensures Genuine(more, s)
  {}

  /** Over every interleaving, each job that is queued, deferred, replayed, drained or run anywhere is one that somebody
      submitted, with the same id, tier and priority. */
  lemma {:induction false} RunsKeepJobs(given: set<Job>, c: Config, s: Sys, acts: seq<Action>)
    requires Genuine(given, s)
    ensures Genuine(given + AllGiven(acts), Exec(c, s, acts))
    decreases |acts|
  {
    if acts != [] {
      var more := given + Given(acts[0]);
      GenuineMore(given, more, s);
      StepGenuine(more, c, s, acts[0]);
      RunsKeepJobs(more, c, Next(c, s, acts[0]), acts[1..]);
      assert more + AllGiven(acts[1..]) == given + AllGiven(acts);
    } else {
      assert given + AllGiven(acts) == given;
    }
  }

  lemma InitGenuine(workers: nat)
    ensures Genuine({}, Init(workers))
  {}
}
