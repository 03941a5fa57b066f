/** The Redis-backed audit priority queue: a sorted set of event ids plus one payload per id. */
module AuditPq {
  import opened Common
  import opened AuditWorker

  // ---------- scores ----------

  const STEP: int := 1_000_000_000_000

  function ClampPriority(priority: int): (p: int)
    ensures 0 <= priority <= 100 ==> p == priority
    ensures priority < 0 ==> p == 0
    ensures priority > 100 ==> p == 100
  {
    Max(0, Min(100, priority))
  }

  /** The smallest score is popped first. */
  function Score(priority: int, tsMs: int): int {
    -ClampPriority(priority) * STEP - tsMs
  }

  /** A double holds every score exactly up to timestamps far beyond any clock. */
  lemma ScoreExact(priority: int, tsMs: int)
    requires 0 <= tsMs <= 0x20_0000_0000_0000 - 100 * STEP
    ensures -0x20_0000_0000_0000 <= Score(priority, tsMs) <= 0
  {
    assert 0 <= ClampPriority(priority) * STEP <= 100 * STEP;
  }

  /** The exact order the score gives. */
  lemma ScoreOrder(p1: int, t1: int, p2: int, t2: int)
    ensures Score(p1, t1) < Score(p2, t2) <==>
            t2 - t1 < (ClampPriority(p1) - ClampPriority(p2)) * STEP
  {}

  /** A higher priority of 0..100 wins whenever the two were queued less than 10^12 ms apart. */
  lemma HigherPriorityFirst(p1: int, t1: int, p2: int, t2: int)
    requires 0 <= p2 < p1 <= 100 && t2 - t1 < STEP
    ensures Score(p1, t1) < Score(p2, t2)
  {
    assert (p1 - p2) * STEP >= STEP;
  }

  /** And beyond 10^12 ms age beats priority: the order is by both. */
  lemma AgeBeatsPriority(p1: int, t1: int, p2: int, t2: int)
    requires 0 <= p2 < p1 <= 100 && t2 - t1 > (p1 - p2) * STEP
    ensures Score(p2, t2) < Score(p1, t1)
  {}

  /** Within one priority the newest goes first; the module's docstring says the earliest. */
  lemma SamePriorityNewestFirst(p1: int, t1: int, p2: int, t2: int)
    requires p1 == p2 || (p1 <= 0 && p2 <= 0) || (p1 >= 100 && p2 >= 100)
    ensures Score(p1, t1) < Score(p2, t2) <==> t1 > t2
  {}

  // ---------- the sorted set ----------

  datatype Member = Member(id: int, score: int)

  /** `agentLane` is the answer of `_payload_is_temporal_agent`. */
  datatype Payload = Payload(job: Job, agentLane: bool, enqueuedAtMs: int)

  predicate Less(a: Member, b: Member) {
    a.score < b.score || (a.score == b.score && a.id < b.id)
  }

  ghost predicate Sorted(z: seq<Member>) {
    forall i, j :: 0 <= i < j < |z| ==> Less(z[i], z[j])
  }

  ghost predicate UniqueIds(z: seq<Member>) {
    forall i, j :: 0 <= i < j < |z| ==> z[i].id != z[j].id
  }

  function Ids(z: seq<Member>): set<int> { set m | m in z :: m.id }

  function Insert(z: seq<Member>, m: Member): (r: seq<Member>)
    ensures forall x :: x in r <==> x in z || x == m
  {
    if z == [] then [m]
    else if Less(m, z[0]) then [m] + z
    else
      assert z == [z[0]] + z[1..];
      [z[0]] + Insert(z[1..], m)
  }

  function Remove(z: seq<Member>, id: int): (r: seq<Member>)
    ensures forall x :: x in r <==> x in z && x.id != id
  {
    if z == [] then []
    else
      assert z == [z[0]] + z[1..];
      if z[0].id == id then Remove(z[1..], id) else [z[0]] + Remove(z[1..], id)
  }

  /** ZADD: a member that is already present is moved to its new score. */
  function ZAdd(z: seq<Member>, m: Member): seq<Member> {
    Insert(Remove(z, m.id), m)
  }

  lemma {:induction false} RemoveKeeps(z: seq<Member>, id: int)
    requires Sorted(z) && UniqueIds(z)
    ensures Sorted(Remove(z, id)) && UniqueIds(Remove(z, id))
  {
    if z != [] {
      RemoveKeeps(z[1..], id);
      HeadBelow(z, Remove(z[1..], id));
    }
  }

  /** A head stays in front of any rearrangement of part of its tail. */
  lemma HeadBelow(z: seq<Member>, r: seq<Member>)
    requires z != [] && Sorted(z) && UniqueIds(z) && Sorted(r) && UniqueIds(r)
    requires forall x :: x in r ==> x in z[1..]
    ensures Sorted([z[0]] + r) && UniqueIds([z[0]] + r)
  {
    forall j | 0 <= j < |r|
      ensures Less(z[0], r[j]) && z[0].id != r[j].id
    {
      assert r[j] in z[1..];
      var k :| 0 <= k < |z[1..]| && z[1..][k] == r[j];
      assert z[k + 1] == r[j];
    }
  }

  lemma {:induction false} InsertKeeps(z: seq<Member>, m: Member)
    requires Sorted(z) && UniqueIds(z) && m.id !in Ids(z)
    ensures Sorted(Insert(z, m)) && UniqueIds(Insert(z, m))
  {
    if z == [] {
    } else {
      assert z[0] in z;
      if Less(m, z[0]) {
        forall j | 0 <= j < |z|
          ensures Less(m, z[j]) && m.id != z[j].id
        {
          assert z[j] in z;
        }
      } else {
        assert forall x :: x in z[1..] ==> x in z;
        InsertKeeps(z[1..], m);
        var r := Insert(z[1..], m);
        forall j | 0 <= j < |r|
          ensures Less(z[0], r[j]) && z[0].id != r[j].id
        {
          assert r[j] in r;
          if r[j] != m {
            var k :| 0 <= k < |z[1..]| && z[1..][k] == r[j];
            assert z[k + 1] == r[j];
          }
        }
      }
    }
  }

  lemma ZAddKeeps(z: seq<Member>, m: Member)
    requires Sorted(z) && UniqueIds(z)
    ensures Sorted(ZAdd(z, m)) && UniqueIds(ZAdd(z, m)) && Ids(ZAdd(z, m)) == Ids(z) + {m.id}
  {
    RemoveKeeps(z, m.id);
    InsertKeeps(Remove(z, m.id), m);
    forall id
      ensures id in Ids(ZAdd(z, m)) <==> id in Ids(z) + {m.id}
    {
      if id in Ids(z) && id != m.id {
        var x :| x in z && x.id == id;
        assert x in ZAdd(z, m);
      }
      if id == m.id { assert m in ZAdd(z, m); }
    }
  }

  function Without(z: seq<Member>, i: nat): seq<Member>
    requires i < |z|
  {
    z[..i] + z[i + 1..]
  }

  lemma WithoutMembers(z: seq<Member>, i: nat)
    requires i < |z| && UniqueIds(z)
    ensures forall x :: x in Without(z, i) <==> x in z && x.id != z[i].id
  {
    var w := Without(z, i);
    assert forall k :: 0 <= k < |w| ==> w[k] == z[if k < i then k else k + 1];
    forall x | x in z && x.id != z[i].id
      ensures x in w
    {
      var k :| 0 <= k < |z| && z[k] == x;
      assert w[if k < i then k else k - 1] == x;
    }
    forall x | x in w
      ensures x in z && x.id != z[i].id
    {
      var k :| 0 <= k < |w| && w[k] == x;
    }
  }

  lemma WithoutSorted(z: seq<Member>, i: nat)
    requires i < |z| && Sorted(z) && UniqueIds(z)
    ensures Sorted(Without(z, i)) && UniqueIds(Without(z, i))
  {
    var w := Without(z, i);
    assert forall k :: 0 <= k < |w| ==> w[k] == z[if k < i then k else k + 1];
  }

  lemma WithoutKeeps(z: seq<Member>, i: nat)
    requires i < |z| && Sorted(z) && UniqueIds(z)
    ensures Sorted(Without(z, i)) && UniqueIds(Without(z, i)) && Ids(Without(z, i)) == Ids(z) - {z[i].id}
    ensures Without(z, i) == Remove(z, z[i].id)
  {
    WithoutSorted(z, i);
    WithoutIds(z, i);
    WithoutIsRemove(z, i);
  }

  lemma WithoutIds(z: seq<Member>, i: nat)
    requires i < |z| && UniqueIds(z)
    ensures Ids(Without(z, i)) == Ids(z) - {z[i].id}
  {
    WithoutMembers(z, i);
    forall id
      ensures id in Ids(Without(z, i)) <==> id in Ids(z) - {z[i].id}
    {
      if id in Ids(z) && id != z[i].id {
        var x :| x in z && x.id == id;
        assert x in Without(z, i);
      }
    }
  }

  lemma WithoutIsRemove(z: seq<Member>, i: nat)
    requires i < |z| && Sorted(z) && UniqueIds(z)
    ensures Without(z, i) == Remove(z, z[i].id)
  {
    WithoutMembers(z, i);
    WithoutSorted(z, i);
    RemoveKeeps(z, z[i].id);
    SortedUnique(Without(z, i), Remove(z, z[i].id));
  }

  /** A sorted sequence is determined by its elements. */
  lemma {:induction false} SortedUnique(a: seq<Member>, b: seq<Member>)
    requires Sorted(a) && Sorted(b) && forall x :: x in a <==> x in b
    ensures a == b
  {
    if a == [] {
      if b != [] { HasMember(b); }
    } else {
      assert a[0] in b;
      assert b[0] in a;
      var i :| 0 <= i < |b| && b[i] == a[0];
      var j :| 0 <= j < |a| && a[j] == b[0];
      assert a[0] == b[0];
      forall x
        ensures x in a[1..] <==> x in b[1..]
      {
        TailMembers(a, x);
        TailMembers(b, x);
      }
      SortedUnique(a[1..], b[1..]);
    }
  }

  lemma TailMembers(a: seq<Member>, x: Member)
    requires Sorted(a) && a != []
    ensures x in a[1..] <==> x in a && x != a[0]
  {
    assert a == [a[0]] + a[1..];
    if x in a[1..] {
      var k :| 0 <= k < |a[1..]| && a[1..][k] == x;
      assert Less(a[0], a[k + 1]);
    }
  }

  // ---------- the queue object ----------

  /** Position i can be popped: its payload is live and satisfies the predicate. */
  predicate Matches(z: seq<Member>, payload: map<int, Payload>, pred: Payload -> bool, i: nat)
    requires i < |z|
  {
    z[i].id in payload && pred(payload[z[i].id])
  }

  /** Live, and not for the agent lane. */
  predicate Runnable(z: seq<Member>, payload: map<int, Payload>, i: nat)
    requires i < |z|
  {
    z[i].id in payload && !payload[z[i].id].agentLane
  }

  /** `zrange(key, 0, max(0, window - 1))` reads this many members. */
  function Scanned(z: seq<Member>, window: int): (n: nat)
    ensures n <= |z|
  {
    Min(|z|, Max(0, window - 1) + 1)
  }

  /** Every member with a payload carries the score of that payload, and all were queued within 10^12 ms. */
  ghost predicate Scored(z: seq<Member>, payload: map<int, Payload>) {
    && (forall m :: m in z && m.id in payload ==>
          m.score == Score(payload[m.id].job.priority, payload[m.id].enqueuedAtMs))
    && (forall i, j :: i in payload && j in payload ==> payload[i].enqueuedAtMs - payload[j].enqueuedAtMs < STEP)
  }

  predicate Near(payload: map<int, Payload>, nowMs: int) {
    forall id :: id in payload ==> -STEP < nowMs - payload[id].enqueuedAtMs < STEP
  }

  /** No live payload behind the head has a higher priority in 0..100. */
  lemma HeadIsHighest(z: seq<Member>, payload: map<int, Payload>, id: int)
    requires Sorted(z) && Scored(z, payload) && z != [] && z[0].id in payload
    requires id in Ids(z) && id in payload && 0 <= payload[z[0].id].job.priority
    requires payload[id].job.priority <= 100
    ensures payload[id].job.priority <= payload[z[0].id].job.priority
  {
    var m :| m in z && m.id == id;
    var k :| 0 <= k < |z| && z[k] == m;
    var p, q := payload[z[0].id], payload[id];
    assert z[0] in z && (k == 0 || Less(z[0], z[k]));
    if q.job.priority > p.job.priority {
      HigherPriorityFirst(q.job.priority, q.enqueuedAtMs, p.job.priority, p.enqueuedAtMs);
    }
  }

  /** Popping the head takes out its live id and no other. */
  lemma PopLive(z: seq<Member>, payload: map<int, Payload>)
    requires z != [] && Sorted(z) && UniqueIds(z)
    ensures Sorted(z[1..]) && UniqueIds(z[1..])
    ensures Ids(z[1..]) * (payload - {z[0].id}).Keys
         == Ids(z) * payload.Keys - (if z[0].id in payload then {z[0].id} else {})
    ensures z[0].id in Ids(z)
  {
    WithoutKeeps(z, 0);
    assert Without(z, 0) == z[1..] && z[0] in z;
  }

  /** After the head is popped: nothing it leaves behind has a higher priority. */
  ghost predicate BestPopped(z: seq<Member>, payload: map<int, Payload>)
    requires z != []
  {
    Scored(z, payload) ==>
      && Scored(z[1..], payload - {z[0].id})
      && (z[0].id in payload && 0 <= payload[z[0].id].job.priority <= 100 ==>
            forall id :: id in Ids(z[1..]) && id in payload && payload[id].job.priority <= 100 ==>
              payload[id].job.priority <= payload[z[0].id].job.priority)
  }

  lemma PopIsBest(z: seq<Member>, payload: map<int, Payload>)
    requires Sorted(z) && z != []
    ensures BestPopped(z, payload)
  {
    if Scored(z, payload) {
      assert forall m :: m in z[1..] ==> m in z;
      forall id | id in Ids(z[1..]) && id in payload && payload[id].job.priority <= 100
        ensures z[0].id in payload && 0 <= payload[z[0].id].job.priority ==>
                  payload[id].job.priority <= payload[z[0].id].job.priority
      {
        if z[0].id in payload && 0 <= payload[z[0].id].job.priority { HeadIsHighest(z, payload, id); }
      }
    }
  }

  class AuditPriorityQueue {
    var available: bool
    var zset: seq<Member>
    var payload: map<int, Payload>

    ghost predicate Valid()
      reads this
    {
      && Sorted(zset) && UniqueIds(zset)
      && forall id :: id in payload ==> payload[id].job.id == id
    }

    /** Ids that a pop can still deliver. */
    ghost function LiveIds(): set<int>
      reads this
    {
      Ids(zset) * payload.Keys
    }

    constructor (redis: bool)
      ensures Valid() && zset == [] && payload == map[] && available == redis
    {
      available, zset, payload := redis, [], map[];
    }

    method Enqueue(job: Job, agentLane: bool, nowMs: int) returns (ok: bool)
      requires Valid()
      modifies this`zset, this`payload
      ensures Valid() && ok == available
      ensures ok ==> zset == ZAdd(old(zset), Member(job.id, Score(job.priority, nowMs)))
      ensures ok ==> payload == old(payload)[job.id := Payload(job, agentLane, nowMs)]
      ensures ok ==> LiveIds() == old(LiveIds()) + {job.id}
      ensures old(Scored(zset, payload)) && Near(old(payload), nowMs) ==> Scored(zset, payload)
      ensures !ok ==> zset == old(zset) && payload == old(payload)
    {
      if !available {
        return false;
      }
      ZAddKeeps(zset, Member(job.id, Score(job.priority, nowMs)));
      payload := payload[job.id := Payload(job, agentLane, nowMs)];
      zset := ZAdd(zset, Member(job.id, Score(job.priority, nowMs)));
      return true;
    }

    /** The head is always removed; a head without a payload yields nothing. */
    method PopHighest() returns (r: Option<Payload>)
      requires Valid()
      modifies this`zset, this`payload
      ensures Valid()
      ensures !available || old(zset) == [] ==> r == None && zset == old(zset) && payload == old(payload)
      ensures available && old(zset) != [] ==>
        && zset == old(zset)[1..]
        && payload == old(payload) - {old(zset)[0].id}
        && r == (if old(zset)[0].id in old(payload) then Some(old(payload)[old(zset)[0].id]) else None)
      ensures LiveIds() == old(LiveIds()) - (if r.Some? then {r.value.job.id} else {})
      ensures r.Some? ==> r.value.job.id in old(LiveIds())
      ensures old(Scored(zset, payload)) ==> Scored(zset, payload)
      ensures r.Some? && old(Scored(zset, payload)) && 0 <= r.value.job.priority <= 100 ==>
                forall id :: id in LiveIds() && payload[id].job.priority <= 100 ==>
                  payload[id].job.priority <= r.value.job.priority
    {
      if !available || zset == [] {
        return None;
      }
      var m := zset[0];
      zset := zset[1..];
      r := if m.id in payload then Some(payload[m.id]) else None;
      payload := payload - {m.id};
      PopIsBest(old(zset), old(payload));
      PopLive(old(zset), old(payload));
    }

    /** Pops the least-score member of the window whose live payload satisfies the predicate, and only that one. */
    method PopMatching(pred: Payload -> bool, window: int) returns (r: Option<Payload>)
      requires Valid()
      modifies this`zset, this`payload
      ensures Valid()
      ensures !available ==> r == None
      ensures r == None ==> zset == old(zset) && payload == old(payload)
      ensures r == None && available ==>
        forall i :: 0 <= i < Scanned(old(zset), window) ==> !Matches(old(zset), old(payload), pred, i)
      ensures r.Some? ==>
        (exists i :: 0 <= i < Scanned(old(zset), window)
           && Matches(old(zset), old(payload), pred, i)
           && (forall k :: 0 <= k < i ==> !Matches(old(zset), old(payload), pred, k))
           && r.value == old(payload)[old(zset)[i].id]
           && zset == Without(old(zset), i)
           && payload == old(payload) - {old(zset)[i].id})
      ensures LiveIds() == old(LiveIds()) - (if r.Some? then {r.value.job.id} else {})
      ensures r.Some? ==> r.value.job.id in old(LiveIds()) && pred(r.value)
      ensures old(Scored(zset, payload)) ==> Scored(zset, payload)
    {
      if !available {
        return None;
      }
      var members := zset[..Scanned(zset, window)];
      var i := 0;
      while i < |members|
        invariant 0 <= i <= |members|
        invariant forall k :: 0 <= k < i ==> !Matches(zset, payload, pred, k)
      {
        var m := members[i];
        if m.id in payload && pred(payload[m.id]) {
          assert m in zset;
          WithoutKeeps(zset, i);
          r := Some(payload[m.id]);
          zset := Remove(zset, m.id);
          payload := payload - {m.id};
          return;
        }
        i := i + 1;
      }
      return None;
    }

    /** With the agent slots full, an agent-lane job is never taken out. */
    method PopFirstRunnable(agentFull: bool, window: int) returns (r: Option<Payload>)
      requires Valid()
      modifies this`zset, this`payload
      ensures Valid()
      ensures !agentFull && available && old(zset) != [] ==>
        && zset == old(zset)[1..]
        && payload == old(payload) - {old(zset)[0].id}
        && r == (if old(zset)[0].id in old(payload) then Some(old(payload)[old(zset)[0].id]) else None)
      ensures agentFull && available ==>
        (r == None <==> forall i :: 0 <= i < Scanned(old(zset), window) ==> !Runnable(old(zset), old(payload), i))
      ensures agentFull && r.Some? ==>
        exists i :: 0 <= i < Scanned(old(zset), window) && Runnable(old(zset), old(payload), i)
          && (forall k :: 0 <= k < i ==> !Runnable(old(zset), old(payload), k))
          && r.value == old(payload)[old(zset)[i].id] && zset == Without(old(zset), i)
      ensures !available || (r == None && (agentFull || old(zset) == [])) ==>
        r == None && zset == old(zset) && payload == old(payload)
      ensures LiveIds() == old(LiveIds()) - (if r.Some? then {r.value.job.id} else {})
      ensures r.Some? ==> r.value.job.id in old(LiveIds())
      ensures forall id :: id in payload ==> id in old(payload) && payload[id] == old(payload)[id]
      ensures old(Scored(zset, payload)) ==> Scored(zset, payload)
      ensures agentFull ==> (r.Some? ==> !r.value.agentLane)
      ensures agentFull ==> forall id :: id in old(LiveIds()) && old(payload)[id].agentLane ==> id in LiveIds()
    {
      if !agentFull {
        r := PopHighest();
      } else {
        ghost var z, pay := zset, payload;
        ghost var pred := (p: Payload) => !p.agentLane;
        r := PopMatching((p: Payload) => !p.agentLane, window);
        assert forall i :: 0 <= i < |z| ==> (Matches(z, pay, pred, i) <==> Runnable(z, pay, i));
      }
    }

    /** Removes the ghost members among the first 201, and nothing else. */
    method PurgeStale() returns (n: nat)
      requires Valid()
      modifies this`zset
      ensures Valid()
      ensures Ids(zset) <= Ids(old(zset)) && LiveIds() == old(LiveIds())
      ensures available ==> forall m :: m in old(zset)[..Min(|old(zset)|, 201)] && m.id !in payload ==> m !in zset
      ensures forall m :: m in old(zset)[Min(|old(zset)|, 201)..] || (m in old(zset) && m.id in payload) ==> m in zset
      ensures forall m :: m in zset ==> m in old(zset)
      ensures |zset| + n == |old(zset)|
    {
      n := 0;
      if !available {
        return;
      }
      var members := zset[..Min(|zset|, 201)];
      assert zset == members + zset[|members|..];
      var i := 0;
      while i < |members|
        invariant 0 <= i <= |members|
        invariant Valid()
        invariant forall m :: m in zset ==> m in old(zset)
        invariant forall m :: m in members[..i] && m.id !in payload ==> m !in zset
        invariant forall m :: m in members[i..] || m in old(zset)[|members|..] || (m in old(zset) && m.id in payload)
                    ==> m in zset
        invariant |zset| + n == |old(zset)|
      {
        var m := members[i];
        assert members[i..] == [m] + members[i + 1..];
        assert members[..i + 1] == members[..i] + [m];
        if m.id !in payload {
          OthersDiffer(old(zset), i);
          var k :| 0 <= k < |zset| && zset[k] == m;
          WithoutKeeps(zset, k);
          zset := Remove(zset, m.id);
          n := n + 1;
        }
        i := i + 1;
      }
    }
  }

  lemma OthersDiffer(z: seq<Member>, i: nat)
    requires i < |z| && UniqueIds(z)
    ensures forall m :: m in z[i + 1..] ==> m.id != z[i].id
  {
    forall m | m in z[i + 1..]
      ensures m.id != z[i].id
    {
      var k :| 0 <= k < |z[i + 1..]| && z[i + 1..][k] == m;
      assert z[i + 1 + k] == m;
    }
  }
}
