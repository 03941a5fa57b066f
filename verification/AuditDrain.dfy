/** One round of the drain loop over the two real objects: the priority queue and the worker pool. */
module AuditDrain {
  import opened Common
  import opened AuditWorker
  import opened AuditPq
  import AuditRouting

  /** What the outside answers during one iteration. */
  datatype Oracle = Oracle(limit: int, total: int, nowMs: int, answer: AuditRouting.Started)

  datatype Settings = Settings(batch: nat, skipBlocked: bool, ttlP0Ms: int, ttlP1Ms: int, ttlP2Ms: int,
                               ttlOtherMs: int)
  {
    function Ttl(t: Tier): int {
      match t
      case P0 => ttlP0Ms
      case P1 => ttlP1Ms
      case P2 => ttlP2Ms
      case P3 => ttlOtherMs
    }
  }

  predicate AgentFull(o: Oracle) { o.limit > 0 && o.total >= o.limit }

  /** `age_s > ttl_logical`, with an age that is never negative. */
  predicate Expired(st: Settings, p: Payload, nowMs: int) {
    Max(0, nowMs - p.enqueuedAtMs) > st.Ttl(p.job.tier)
  }

  function PoolIds(pool: AuditWorkerPool): set<int>
    reads pool
  {
    AuditRouting.QueueIds(pool.queue)
  }

  predicate FirstRunnable(z: seq<Member>, payload: map<int, Payload>, i: nat)
    requires i < |z|
  {
    Runnable(z, payload, i) && forall k :: 0 <= k < i ==> !Runnable(z, payload, k)
  }

  class AuditScheduler {
    const pq: AuditPriorityQueue
    const pool: AuditWorkerPool
    const settings: Settings
    /** Ids whose Temporal workflow was started, and ids closed with a fallback verdict. */
    ghost var started: set<int>
    ghost var closed: set<int>

    ghost predicate Valid()
      reads this, pq, pool
    {
      && pq.Valid() && pool.Valid()
      && forall id :: id in pq.payload ==> id > 0
    }

    constructor (pq: AuditPriorityQueue, pool: AuditWorkerPool, settings: Settings)
      requires pq.Valid() && pool.Valid() && forall id :: id in pq.payload ==> id > 0
      ensures Valid() && this.pq == pq && this.pool == pool && this.settings == settings
      ensures started == {} && closed == {}
    {
      this.pq, this.pool, this.settings := pq, pool, settings;
      started, closed := {}, {};
    }

    /** Every place where an id handled by a drain round can end up. */
    ghost function Places(): set<int>
      reads this, pq, pool
    {
      pq.LiveIds() + PoolIds(pool) + started + closed
    }

    method Requeue(p: Payload, retry: nat, nowMs: int)
      requires Valid() && p.job.id > 0 && pq.available
      modifies pq
      ensures Valid() && pq.available
      ensures pq.LiveIds() == old(pq.LiveIds()) + {p.job.id}
      ensures pq.payload == old(pq.payload)[p.job.id := Payload(p.job.(retry := retry), p.agentLane, nowMs)]
      ensures pq.payload.Keys == old(pq.payload.Keys) + {p.job.id}
    {
      var ok := pq.Enqueue(p.job.(retry := retry), p.agentLane, nowMs);
    }

    /** Below nine tenths of the bound `submit` answers "queued", whatever the stores would say. */
    method SubmitLocal(p: Payload)
      requires Valid() && p.job.id > 0
      requires |pool.queue| * 10 < pool.config.queueMax * 9
      modifies pool
      ensures Valid()
      ensures pool.queue == Enqueue(old(pool.State()), p.job).queue && PoolIds(pool) == old(PoolIds(pool)) + {p.job.id}
      ensures pool.overflow == old(pool.overflow) && pool.running == old(pool.running)
    {
      AuditRouting.EnqueueIds(pool.State(), p.job);
      var a := pool.Submit(p.job, false, false, false);
    }

    /** The decision that the branches of `RouteOne` implement. */
    ghost function Decision(p: Payload, o: Oracle): AuditRouting.Route
      reads pool
    {
      AuditRouting.RouteOf(pool.config, pool.State(), p.job, Expired(settings, p, o.nowMs), p.agentLane, o.answer)
    }

    /** What one routed job may change, by decision. */
    twostate predicate Routed(p: Payload, r: AuditRouting.Route)
      reads this, pq, pool
    {
      && started == old(started) + (if r.Workflow? then {p.job.id} else {})
      && closed == old(closed) + (if r.Close? then {p.job.id} else {})
      && (if r.Local? then pool.queue == Enqueue(old(pool.State()), p.job).queue else pool.queue == old(pool.queue))
      && (if r.Requeue?
          then pq.payload.Keys == old(pq.payload.Keys) + {p.job.id} && pq.LiveIds() == old(pq.LiveIds()) + {p.job.id}
            && pq.payload[p.job.id].job == r.job && pq.payload[p.job.id].agentLane == p.agentLane
          else pq.zset == old(pq.zset) && pq.payload == old(pq.payload))
      && (forall id :: id in old(pq.payload) && id != p.job.id ==>
            id in pq.payload && pq.payload[id] == old(pq.payload)[id])
    }

    /** What is true of a job before it is routed. */
    ghost predicate Late(p: Payload, o: Oracle) {
      o.nowMs - p.enqueuedAtMs > settings.Ttl(p.job.tier) && settings.Ttl(p.job.tier) >= 0
    }

    ghost predicate Fresh(p: Payload, o: Oracle) {
      o.nowMs - p.enqueuedAtMs <= settings.Ttl(p.job.tier) && settings.Ttl(p.job.tier) >= 0
    }

    ghost predicate ForTemporal(p: Payload, o: Oracle) {
      p.agentLane && p.job.tier == P0 && !o.answer.Unavailable?
    }

    ghost predicate Room()
      reads this, pool
    {
      |pool.queue| * 10 < pool.config.queueMax * 9
    }

    /** The job has gone to the worker queue, and nothing else has changed. */
    twostate predicate HandedOver(p: Payload)
      reads this, pq, pool
    {
      && PoolIds(pool) == old(PoolIds(pool)) + {p.job.id} && |pool.queue| == |old(pool.queue)| + 1
      && pq.zset == old(pq.zset) && pq.payload == old(pq.payload)
      && started == old(started) && closed == old(closed)
    }

    /** The job is back in the priority queue, live and with this retry count, and the workers got nothing. */
    twostate predicate PutBack(p: Payload, retry: nat)
      reads this, pq, pool
    {
      && p.job.id in pq.LiveIds() && pq.payload[p.job.id].job == p.job.(retry := retry)
      && pool.queue == old(pool.queue) && started == old(started) && closed == old(closed)
    }

    twostate predicate OnlyMarked(p: Payload)
      reads this, pq, pool
    {
      pool.queue == old(pool.queue) && pq.zset == old(pq.zset) && pq.payload == old(pq.payload)
    }

    /** Routes one popped job. `goOn` is false where the loop breaks. */
    method RouteOne(p: Payload, o: Oracle) returns (counted: bool, goOn: bool)
      requires Valid() && p.job.id > 0 && pq.available
      modifies this`started, this`closed, pq, pool
      ensures Valid() && pq.available
      ensures Routed(p, old(Decision(p, o)))
      ensures counted == (old(Decision(p, o)).Workflow? || old(Decision(p, o)).Local?)
      ensures old(Places()) + {p.job.id} <= Places()
      ensures Fresh(p, o) && !ForTemporal(p, o) && old(Room()) ==> counted && goOn && HandedOver(p)
      ensures Fresh(p, o) && !ForTemporal(p, o) && !old(Room()) ==> !counted && !goOn && PutBack(p, p.job.retry)
      ensures Fresh(p, o) && ForTemporal(p, o) && o.answer.Accepted? ==>
        counted && goOn && OnlyMarked(p) && started == old(started) + {p.job.id} && closed == old(closed)
      ensures Fresh(p, o) && ForTemporal(p, o) && o.answer.Refused? ==>
        !counted && !goOn && PutBack(p, p.job.retry)
      ensures Late(p, o) && p.job.retry < 2 && p.job.tier in {P0, P1} ==>
        !counted && goOn && PutBack(p, p.job.retry + 1)
      ensures Late(p, o) && (p.job.retry >= 2 || p.job.tier !in {P0, P1}) ==>
        !counted && goOn && OnlyMarked(p) && started == old(started) && closed == old(closed) + {p.job.id}
    {
      if Expired(settings, p, o.nowMs) {
        if p.job.retry < 2 && p.job.tier in {P0, P1} {
          Requeue(p, p.job.retry + 1, o.nowMs);
        } else {
          closed := closed + {p.job.id};
        }
        return false, true;
      }
      if p.agentLane && p.job.tier == P0 {
        if o.answer == AuditRouting.Accepted {
          started := started + {p.job.id};
          return true, true;
        }
        if o.answer == AuditRouting.Refused {
          Requeue(p, p.job.retry, o.nowMs);
          return false, false;
        }
      }
      var depth := pool.QueueDepth();
      if depth * 10 >= pool.config.queueMax * 9 {
        Requeue(p, p.job.retry, o.nowMs);
        return false, false;
      }
      SubmitLocal(p);
      return true, true;
    }

    ghost predicate Held(o: Oracle) { settings.skipBlocked && AgentFull(o) }

    /** While the agent slots are full, no agent-lane job leaves the queue. */
    twostate predicate AgentLaneStays(o: Oracle)
      reads this, pq
    {
      Held(o) ==> forall id :: id in old(pq.LiveIds()) && old(pq.payload)[id].agentLane ==>
        id in pq.LiveIds() && pq.payload[id].agentLane
    }

    /** The job of the head when nothing holds the round back, else the first that is not for the agent lane. */
    method NextJob(o: Oracle) returns (job: Option<Payload>)
      requires Valid() && pq.available
      modifies pq
      ensures Valid() && pq.available && AgentLaneStays(o)
      ensures old(Places()) <= Places() + (if job.Some? then {job.value.job.id} else {})
      ensures job.Some? ==> job.value.job.id > 0 && job.value.job.id !in pq.LiveIds()
      ensures job.Some? ==> (Held(o) ==> !job.value.agentLane)
      ensures !Held(o) && old(pq.zset) != [] ==>
        && pq.zset == old(pq.zset)[1..] && pq.payload == old(pq.payload) - {old(pq.zset)[0].id}
        && job == (if old(pq.zset)[0].id in old(pq.payload) then Some(old(pq.payload)[old(pq.zset)[0].id]) else None)
      ensures old(pq.zset) == [] ==> job == None && pq.zset == [] && pq.payload == old(pq.payload)
      ensures Held(o) ==>
        forall i {:trigger FirstRunnable(old(pq.zset), old(pq.payload), i)} ::
          (0 <= i < Scanned(old(pq.zset), 50) && FirstRunnable(old(pq.zset), old(pq.payload), i)) ==>
          job == Some(old(pq.payload)[old(pq.zset)[i].id]) && pq.zset == Without(old(pq.zset), i)
    {
      if AgentFull(o) && settings.skipBlocked {
        job := pq.PopFirstRunnable(true, 50);
      } else {
        job := pq.PopFirstRunnable(false, 50);
      }
    }

    /** The member has gone from the queue to the workers. */
    twostate predicate HandedOn(id: int)
      reads this, pq, pool
    {
      && PoolIds(pool) == old(PoolIds(pool)) + {id} && |pool.queue| == |old(pool.queue)| + 1
      && started == old(started) && closed == old(closed)
    }

    /** Not too old and not for the agent lane. */
    ghost predicate Plain(o: Oracle, p: Payload) { Fresh(p, o) && !p.agentLane }

    /** Pops one job and routes it. */
    method DrainStep(o: Oracle) returns (counted: bool, goOn: bool)
      requires Valid() && pq.available
      modifies this`started, this`closed, pq, pool
      ensures Valid() && pq.available
      ensures old(Places()) <= Places() && AgentLaneStays(o)
      ensures old(!Held(o) && pq.zset != [] && pq.zset[0].id in pq.payload
                  && Plain(o, pq.payload[pq.zset[0].id]) && Room()) ==>
        && counted && goOn && HandedOn(old(pq.zset)[0].id)
        && pq.zset == old(pq.zset)[1..] && pq.payload == old(pq.payload) - {old(pq.zset)[0].id}
      ensures old(pq.zset) == [] ==>
        !counted && !goOn && pq.zset == [] && pool.queue == old(pool.queue) && pq.payload == old(pq.payload)
        && started == old(started) && closed == old(closed)
      ensures Held(o) && old(Room()) ==>
        forall i {:trigger FirstRunnable(old(pq.zset), old(pq.payload), i)} ::
          (0 <= i < Scanned(old(pq.zset), 50) && FirstRunnable(old(pq.zset), old(pq.payload), i)
           && Fresh(old(pq.payload)[old(pq.zset)[i].id], o)) ==>
          counted && goOn && HandedOn(old(pq.zset)[i].id) && pq.zset == Without(old(pq.zset), i)
    {
      var job := NextJob(o);
      if job.None? {
        return false, false;
      }
      counted, goOn := RouteOne(job.value, o);
    }

    /** Every member of the queue is live and plain, nothing holds the round back, and the workers have room for a whole
        batch. */
    ghost predicate SmoothFor(oracles: seq<Oracle>, z: seq<Member>, pay: map<int, Payload>, q: nat)
      reads pool
    {
      && (forall m :: m in z ==> m.id in pay)
      && (forall o, id :: o in oracles && id in pay ==> Plain(o, pay[id]))
      && (forall o :: o in oracles ==> !Held(o))
      && (q + |oracles| - 1) * 10 < pool.config.queueMax * 9
    }

    ghost predicate Smooth(oracles: seq<Oracle>)
      reads this, pq, pool
    {
      pq.available && SmoothFor(oracles, pq.zset, pq.payload, |pool.queue|)
    }

    ghost predicate AllHeld(oracles: seq<Oracle>) { forall o :: o in oracles ==> Held(o) }

    /** Nothing is lost, and no agent-lane job leaves the queue while the slots stay full. */
    twostate predicate Kept(oracles: seq<Oracle>)
      reads this, pq, pool
    {
      && old(Places()) <= Places()
      && (AllHeld(oracles) ==>
            forall id :: id in old(pq.LiveIds()) && old(pq.payload)[id].agentLane ==>
              id in pq.LiveIds() && pq.payload[id].agentLane)
    }

    ghost predicate Stands(z0: seq<Member>, pay0: map<int, Payload>, ids0: set<int>, q0: nat, i: nat)
      reads this, pq, pool
    {
      MovedTo(z0, pay0, ids0, q0, i, pq.zset, pq.payload, PoolIds(pool), |pool.queue|)
    }

    /** The loop of a round, when the queue holds nothing that would stop it. */
    method DrainLoop(oracles: seq<Oracle>) returns (n: nat)
      requires Valid() && |oracles| == settings.batch && pq.available
      modifies this`started, this`closed, pq, pool
      ensures Valid() && pq.available && Kept(oracles) && n <= settings.batch
      ensures old(Smooth(oracles)) ==>
        && n == Min(settings.batch, |old(pq.zset)|)
        && Stands(old(pq.zset), old(pq.payload), old(PoolIds(pool)), |old(pool.queue)|, n)
        && started == old(started) && closed == old(closed)
    {
      n := 0;
      var i := 0;
      ghost var smooth, z0, pay0, ids0, q0 := Smooth(oracles), pq.zset, pq.payload, PoolIds(pool), |pool.queue|;
      ghost var done := false;
      MovedNone(z0, pay0, ids0, q0);
      while i < settings.batch
        invariant 0 <= i <= settings.batch && n <= i
        invariant Valid() && pq.available && Kept(oracles)
        invariant smooth ==> Stands(z0, pay0, ids0, q0, n) && started == old(started) && closed == old(closed)
        invariant smooth && !done ==> n == i
        invariant done ==> i < settings.batch && (smooth ==> n == i == |z0|)
      {
        var counted, goOn := DrainNext(oracles, i, smooth, z0, pay0, ids0, q0, n);
        if counted {
          n := n + 1;
        }
        if !goOn {
          done := true;
          break;
        }
        i := i + 1;
      }
    }

    /** One pass of the loop. */
    method DrainNext(oracles: seq<Oracle>, i: nat, ghost smooth: bool, ghost z0: seq<Member>,
                     ghost pay0: map<int, Payload>, ghost ids0: set<int>, ghost q0: nat, ghost n: nat)
        returns (counted: bool, goOn: bool)
      requires Valid() && pq.available && i < |oracles|
      requires smooth ==> Stands(z0, pay0, ids0, q0, n) && n == i && SmoothFor(oracles, z0, pay0, q0)
      modifies this`started, this`closed, pq, pool
      ensures Valid() && pq.available && Kept(oracles)
      ensures smooth ==> started == old(started) && closed == old(closed)
      ensures smooth ==> counted == goOn == (n < |z0|) && Stands(z0, pay0, ids0, q0, if counted then n + 1 else n)
    {
      ghost var z, pay, ids, q := pq.zset, pq.payload, PoolIds(pool), |pool.queue|;
      assert oracles[i] in oracles;
      if smooth && z != [] {
        assert z[0] in z;
        MovedMore(z0, pay0, ids0, q0, n, z, pay, ids, q);
      }
      counted, goOn := DrainStep(oracles[i]);
    }

    /** One round: nothing that was live in the priority queue is lost, the count is bounded by the batch, and while
        the agent slots stay full no agent-lane job leaves the queue. When nothing holds it back the round moves the
        best members of the queue to the workers, a whole batch or all there are, and counts them. */
    method DrainOnce(oracles: seq<Oracle>) returns (n: nat)
      requires Valid() && |oracles| == settings.batch
      modifies this`started, this`closed, pq, pool
      ensures Valid() && Kept(oracles)
      ensures n <= settings.batch
      ensures !pq.available ==> n == 0 && old(pq.zset) == pq.zset
      ensures |pool.queue| <= pool.config.queueMax
      ensures old(Smooth(oracles)) ==>
        && n == Min(settings.batch, |old(pq.zset)|)
        && Stands(old(pq.zset), old(pq.payload), old(PoolIds(pool)), |old(pool.queue)|, n)
        && started == old(started) && closed == old(closed)
    {
      if !pq.available {
        return 0;
      }
      ghost var smooth := Smooth(oracles);
      n := DrainLoop(oracles);
      if n == 0 {
        ghost var z := pq.zset;
        var purged := pq.PurgeStale();
        if smooth {
          SortedUnique(pq.zset, z);
        }
      }
    }
  }

  /** The first i members have moved from the queue to the workers. */
  ghost predicate MovedTo(z0: seq<Member>, pay0: map<int, Payload>, ids0: set<int>, q0: nat, i: nat,
                          z: seq<Member>, pay: map<int, Payload>, ids: set<int>, q: nat)
  {
    && i <= |z0| && z == z0[i..]
    && (forall id :: id in pay ==> id in pay0 && pay[id] == pay0[id])
    && ((forall m :: m in z0 ==> m.id in pay0) ==> forall m :: m in z ==> m.id in pay)
    && ids == ids0 + Ids(z0[..i]) && q == q0 + i
  }

  lemma MovedNone(z0: seq<Member>, pay0: map<int, Payload>, ids0: set<int>, q0: nat)
    ensures MovedTo(z0, pay0, ids0, q0, 0, z0, pay0, ids0, q0)
  {}

  lemma MovedMore(z0: seq<Member>, pay0: map<int, Payload>, ids0: set<int>, q0: nat, i: nat,
                  z: seq<Member>, pay: map<int, Payload>, ids: set<int>, q: nat)
    requires MovedTo(z0, pay0, ids0, q0, i, z, pay, ids, q) && z != [] && UniqueIds(z)
    ensures MovedTo(z0, pay0, ids0, q0, i + 1, z[1..], pay - {z[0].id}, ids + {z[0].id}, q + 1)
  {
    assert z0[..i + 1] == z0[..i] + [z[0]];
    forall m | m in z[1..]
      ensures m in z && m.id != z[0].id
    {
      var k :| 0 <= k < |z[1..]| && z[1..][k] == m;
      assert z[k + 1] == m;
    }
  }
}
