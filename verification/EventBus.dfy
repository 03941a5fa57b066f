/** The in-process event bus: numbered events, a ring of the last 500, one bounded queue per subscriber,
    and the reconnect endpoint that replays the ring before it follows the queue. */
module EventBus {
  import opened Common

  const HISTORY_MAX: nat := 500
  const REPLAY_LIMIT: nat := 200

  datatype Event = Event(seqNo: nat, body: string)

  /** The k-th published event carries number k + 1. */
  ghost predicate Numbered(p: seq<Event>) {
    forall i :: 0 <= i < |p| ==> p[i].seqNo == i + 1
  }

  // ---------- one subscriber's queue ----------

  /** `items` wait in the queue; `taken` the subscriber has received, `dropped` were pushed out by newer ones,
      and `joined` events had been published when it subscribed. */
  datatype Feed = Feed(items: seq<Event>, taken: seq<Event>, dropped: nat, joined: nat)

  /** asyncio.Queue: a maximum of 0 or less means no bound. */
  predicate IsFull(items: seq<Event>, max: int) { 0 < max <= |items| }

  function Offer(f: Feed, e: Event, max: int): Feed {
    if IsFull(f.items, max)
    then f.(items := f.items[1..] + [e], dropped := f.dropped + 1)
    else f.(items := f.items + [e])
  }

  function Take(f: Feed): Feed {
    if f.items == [] then f else f.(items := f.items[1..], taken := f.taken + [f.items[0]])
  }

  /** The queue is the unbroken run that ends at the last published event; everything published since the
      subscription was received, is waiting or was dropped; what was received came in order and, without a drop,
      is the unbroken run after the subscription. */
  ghost predicate FeedOk(f: Feed, p: seq<Event>, max: int) {
    && f.joined + |f.taken| + f.dropped + |f.items| == |p|
    && f.items == p[|p| - |f.items|..]
    && (max > 0 ==> |f.items| <= max)
    && Received(f, p)
    && (f.dropped == 0 ==> f.taken == p[f.joined..f.joined + |f.taken|])
  }

  ghost predicate Received(f: Feed, p: seq<Event>)
    requires |f.items| <= |p|
  {
    && (forall i, j :: 0 <= i < j < |f.taken| ==> f.taken[i].seqNo < f.taken[j].seqNo)
    && (forall i :: 0 <= i < |f.taken| ==> Genuine(f.taken[i], f.joined, |p| - |f.items|, p))
  }

  /** A published event numbered in (lo, hi]. */
  ghost predicate Genuine(e: Event, lo: int, hi: int, p: seq<Event>) {
    lo < e.seqNo <= hi && 0 < e.seqNo <= |p| && p[e.seqNo - 1] == e
  }

  lemma OfferKeeps(f: Feed, p: seq<Event>, e: Event, max: int)
    requires Numbered(p) && FeedOk(f, p, max) && e.seqNo == |p| + 1
    ensures FeedOk(Offer(f, e, max), p + [e], max)
  {
    var g, q := Offer(f, e, max), p + [e];
    assert g.items == q[|q| - |g.items|..];
    forall i | 0 <= i < |g.taken|
      ensures Genuine(g.taken[i], g.joined, |q| - |g.items|, q)
    {
      assert Genuine(f.taken[i], f.joined, |p| - |f.items|, p);
    }
    if g.dropped == 0 {
      assert g.taken == q[g.joined..g.joined + |g.taken|];
    }
  }

  lemma TakeKeeps(f: Feed, p: seq<Event>, max: int)
    requires Numbered(p) && FeedOk(f, p, max)
    ensures FeedOk(Take(f), p, max)
  {
    if f.items != [] {
      var g := Take(f);
      var at := |p| - |f.items|;
      assert f.items[0] == p[at];
      forall i | 0 <= i < |g.taken|
        ensures Genuine(g.taken[i], g.joined, |p| - |g.items|, p)
      {
        if i < |f.taken| { assert Genuine(f.taken[i], f.joined, at, p); }
      }
      forall i | 0 <= i < |f.taken|
        ensures f.taken[i].seqNo < p[at].seqNo
      {
        assert Genuine(f.taken[i], f.joined, at, p);
      }
    }
  }

  /** A queue loses nothing it has room for: an event is added, and only a full one gives up one, its oldest. */
  lemma OfferIs(f: Feed, e: Event, max: int)
    requires max > 0 ==> |f.items| <= max
    ensures var g, full := Offer(f, e, max), max > 0 && |f.items| == max;
            && g.items == (if full then f.items[1..] else f.items) + [e]
            && g.dropped == f.dropped + (if full then 1 else 0)
            && g.taken == f.taken && g.joined == f.joined
  {}

  /** A subscriber takes the oldest event that waits, if one does. */
  lemma TakeIs(f: Feed)
    requires f.items != []
    ensures Take(f).taken == f.taken + [f.items[0]] && [f.items[0]] + Take(f).items == f.items
    ensures Take(f).dropped == f.dropped && Take(f).joined == f.joined
  {}

  // ---------- runs of the bus ----------

  datatype Bus = Bus(published: seq<Event>, history: seq<Event>, feeds: seq<Feed>)

  datatype Op = Publish(body: string) | Subscribe | Unsubscribe(at: nat) | Consume(at: nat)

  datatype Limits = Limits(subscribers: int, queue: int)

  function Offers(feeds: seq<Feed>, e: Event, max: int): (r: seq<Feed>)
    ensures |r| == |feeds| && forall i :: 0 <= i < |r| ==> r[i] == Offer(feeds[i], e, max)
  {
    seq(|feeds|, i requires 0 <= i < |feeds| => Offer(feeds[i], e, max))
  }

  function Apply(s: Bus, op: Op, c: Limits): Bus {
    match op
    case Publish(body) =>
      var e := Event(|s.published| + 1, body);
      Bus(s.published + [e], LastN(s.history + [e], HISTORY_MAX), Offers(s.feeds, e, c.queue))
    case Subscribe =>
      // a full bus refuses the newcomer; nobody already subscribed is evicted
      if |s.feeds| >= c.subscribers then s else s.(feeds := s.feeds + [Feed([], [], 0, |s.published|)])
    case Unsubscribe(at) => if at < |s.feeds| then s.(feeds := s.feeds[..at] + s.feeds[at + 1..]) else s
    case Consume(at) => if at < |s.feeds| then s.(feeds := s.feeds[at := Take(s.feeds[at])]) else s
  }

  function Run(ops: seq<Op>, c: Limits): Bus {
    if ops == [] then Bus([], [], []) else Apply(Run(ops[..|ops| - 1], c), ops[|ops| - 1], c)
  }

  ghost predicate Inv(s: Bus, c: Limits) {
    && Numbered(s.published)
    && s.history == LastN(s.published, HISTORY_MAX)
    && (c.subscribers >= 0 ==> |s.feeds| <= c.subscribers)
    && forall i :: 0 <= i < |s.feeds| ==> FeedOk(s.feeds[i], s.published, c.queue)
  }

  lemma StepKeepsInv(s: Bus, op: Op, c: Limits)
    requires Inv(s, c)
    ensures Inv(Apply(s, op, c), c)
  {
    match op
    case Publish(body) =>
      var e := Event(|s.published| + 1, body);
      LastNAppend(s.published, [e], HISTORY_MAX);
      forall i | 0 <= i < |s.feeds|
        ensures FeedOk(Offer(s.feeds[i], e, c.queue), s.published + [e], c.queue)
      {
        OfferKeeps(s.feeds[i], s.published, e, c.queue);
      }
    case Consume(at) =>
      if at < |s.feeds| { TakeKeeps(s.feeds[at], s.published, c.queue); }
    case _ =>
  }

  /** In every reachable state the ring holds the last 500 events and every subscriber's queue is in order. */
  lemma {:induction false} RunsKeepStreams(ops: seq<Op>, c: Limits)
    ensures Inv(Run(ops, c), c)
  {
    if ops != [] {
      RunsKeepStreams(ops[..|ops| - 1], c);
      StepKeepsInv(Run(ops[..|ops| - 1], c), ops[|ops| - 1], c);
    }
  }

  function Bodies(ops: seq<Op>): seq<string> {
    if ops == [] then []
    else Bodies(ops[..|ops| - 1]) + (if ops[|ops| - 1].Publish? then [ops[|ops| - 1].body] else [])
  }

  /** What was published, in order, is what the publish calls were given. */
  lemma {:induction false} PublishedAre(ops: seq<Op>, c: Limits)
    ensures |Run(ops, c).published| == |Bodies(ops)|
    ensures forall i :: 0 <= i < |Bodies(ops)| ==> Run(ops, c).published[i] == Event(i + 1, Bodies(ops)[i])
  {
    if ops != [] { PublishedAre(ops[..|ops| - 1], c); }
  }

  /** Who is subscribed: a newcomer gets an empty queue from here on unless the bus is full; one that leaves takes its
      queue with it; and nobody else's queue is touched but by what is published. */
  lemma SubscribersAre(s: Bus, op: Op, c: Limits)
    ensures var t := Apply(s, op, c);
            match op
            case Publish(body) => t.feeds == Offers(s.feeds, Event(|s.published| + 1, body), c.queue)
            case Subscribe =>
              t.feeds == s.feeds + (if |s.feeds| < c.subscribers then [Feed([], [], 0, |s.published|)] else [])
            case Unsubscribe(at) =>
              |t.feeds| == (if at < |s.feeds| then |s.feeds| - 1 else |s.feeds|)
              && forall i :: 0 <= i < |t.feeds| ==> t.feeds[i] == s.feeds[if i < at then i else i + 1]
            case Consume(at) =>
              |t.feeds| == |s.feeds|
              && forall i :: 0 <= i < |s.feeds| ==> t.feeds[i] == if i == at then Take(s.feeds[i]) else s.feeds[i]
  {
    if op.Subscribe? { assert s.feeds + [] == s.feeds; }
  }

  // ---------- replay from the ring ----------

  /** The events newer than `since`. */
  function After(evts: seq<Event>, since: int): seq<Event> {
    if evts == [] then []
    else (if evts[0].seqNo > since then [evts[0]] else []) + After(evts[1..], since)
  }

  /** `evts[-limit:]`: 0 takes everything, and a negative limit drops that many from the front. */
  function Tail(evts: seq<Event>, limit: int): seq<Event> {
    if limit > 0 then LastN(evts, limit)
    else if -limit <= |evts| then evts[-limit..]
    else []
  }

  function Recent(history: seq<Event>, limit: int, since: int): seq<Event> {
    Tail(After(history, since), limit)
  }

  /** The number of events that come before what a replay returns. */
  function ReplayStart(n: nat, limit: int, since: int): (start: nat)
    requires limit > 0
    ensures start <= n
  {
    Max(Max(n - HISTORY_MAX, 0), Max(Min(since, n), n - limit))
  }

  lemma {:induction false} AfterSuffix(p: seq<Event>, from: nat, since: int)
    requires Numbered(p) && from <= |p|
    ensures After(p[from..], since) == p[Max(from, Min(since, |p|))..]
    decreases |p| - from
  {
    if from < |p| {
      assert p[from..][1..] == p[from + 1..];
      AfterSuffix(p, from + 1, since);
      assert p[from..][0] == p[from];
      if p[from].seqNo > since {
        assert p[from..] == [p[from]] + p[from + 1..];
      }
    }
  }

  lemma TailOfSuffix(p: seq<Event>, start: nat, limit: int)
    requires start <= |p|
    ensures limit > 0 ==> Tail(p[start..], limit) == p[Max(start, |p| - limit)..]
    ensures limit <= 0 ==> Tail(p[start..], limit) == p[Min(start - limit, |p|)..]
  {
    if limit > 0 {
      DropTwice(p, start, Max(0, |p| - start - limit));
    } else if start - limit <= |p| {
      DropTwice(p, start, -limit);
    }
  }

  lemma DropTwice(p: seq<Event>, i: nat, j: nat)
    requires i + j <= |p|
    ensures p[i..][j..] == p[i + j..]
  {}

  /** The retained events after `since`. */
  lemma RetainedAfter(p: seq<Event>, since: int) returns (start: nat)
    requires Numbered(p)
    ensures start == Max(Max(|p| - HISTORY_MAX, 0), Min(since, |p|))
    ensures start <= |p| && After(LastN(p, HISTORY_MAX), since) == p[start..]
  {
    var from := |p| - |LastN(p, HISTORY_MAX)|;
    AfterSuffix(p, from, since);
    start := Max(from, Min(since, |p|));
  }

  /** A replay with a positive limit is an unbroken run that ends at the last published event. */
  lemma RecentExact(p: seq<Event>, limit: int, since: int)
    requires Numbered(p) && limit > 0
    ensures Recent(LastN(p, HISTORY_MAX), limit, since) == p[ReplayStart(|p|, limit, since)..]
  {
    var start := RetainedAfter(p, since);
    TailOfSuffix(p, start, limit);
  }

  /** The other limits: 0 returns every retained event after `since`, and a negative one loses the oldest of those. */
  lemma RecentOddLimits(p: seq<Event>, limit: int, since: int)
    requires Numbered(p) && limit <= 0
    ensures var start := Max(Max(|p| - HISTORY_MAX, 0), Min(since, |p|));
            Recent(LastN(p, HISTORY_MAX), limit, since) == p[Min(start - limit, |p|)..]
  {
    var start := RetainedAfter(p, since);
    TailOfSuffix(p, start, limit);
  }

  function OldestSeq(history: seq<Event>): nat { if history == [] then 0 else history[0].seqNo }

  /** A replay returns exactly the events after `since`, none missing, if and only if the ring still reaches back
      that far and the limit covers them all. */
  lemma ReplayCompleteIff(p: seq<Event>, limit: int, since: nat)
    requires Numbered(p) && limit > 0 && since <= |p|
    ensures Recent(LastN(p, HISTORY_MAX), limit, since) == p[since..]
       <==> OldestSeq(LastN(p, HISTORY_MAX)) <= since + 1 && |p| - since <= limit
  {
    RecentExact(p, limit, since);
    var start := ReplayStart(|p|, limit, since);
    assert start != since ==> |p[start..]| != |p[since..]|;
  }

  // ---------- the reconnect endpoint ----------

  /** What the endpoint tells the client about the replay it is about to send. */
  function CompleteFlag(history: seq<Event>, missed: seq<Event>, resume: nat): bool {
    var noHistory := OldestSeq(history) == 0;
    var windowIntact := OldestSeq(history) <= resume + 1;
    resume == 0 || (|missed| == 0 && noHistory) || windowIntact
  }

  /** The replay, then the queue without what the client already had. */
  function Sent(missed: seq<Event>, received: seq<Event>, resume: nat): seq<Event> {
    missed + After(received, resume)
  }

  /** A client keeps the first copy of each number. */
  function Seqs(evts: seq<Event>): set<nat> {
    set i: nat | i < |evts| :: evts[i].seqNo
  }

  lemma {:induction false} SeqsOfRun(p: seq<Event>, lo: nat, hi: nat, k: nat)
    requires Numbered(p) && lo <= hi <= |p|
    ensures k in Seqs(p[lo..hi]) <==> lo < k <= hi
  {
    if lo < k <= hi {
      assert p[lo..hi][k - 1 - lo].seqNo == k;
    }
  }

  lemma {:induction false} AfterMembers(evts: seq<Event>, since: int, k: nat)
    ensures k in Seqs(After(evts, since)) <==> k in Seqs(evts) && k > since
  {
    if evts != [] {
      AfterMembers(evts[1..], since, k);
      SeqsCons(evts, k);
      if evts[0].seqNo > since {
        var r := After(evts, since);
        assert r[1..] == After(evts[1..], since);
        SeqsCons(r, k);
      } else {
        assert After(evts, since) == After(evts[1..], since);
      }
    }
  }

  lemma SeqsCons(evts: seq<Event>, k: nat)
    requires evts != []
    ensures k in Seqs(evts) <==> k == evts[0].seqNo || k in Seqs(evts[1..])
  {
    if k in Seqs(evts) && k != evts[0].seqNo {
      var i: nat :| i < |evts| && evts[i].seqNo == k;
      assert evts[1..][i - 1].seqNo == k;
    }
    if k in Seqs(evts[1..]) {
      var i: nat :| i < |evts[1..]| && evts[1..][i].seqNo == k;
      assert evts[i + 1].seqNo == k;
    }
  }

  lemma SeqsAppend(a: seq<Event>, b: seq<Event>, k: nat)
    ensures k in Seqs(a + b) <==> k in Seqs(a) || k in Seqs(b)
  {
    if k in Seqs(a) {
      var i: nat :| i < |a| && a[i].seqNo == k;
      assert (a + b)[i].seqNo == k;
    }
    if k in Seqs(b) {
      var i: nat :| i < |b| && b[i].seqNo == k;
      assert (a + b)[|a| + i].seqNo == k;
    }
  }

  /** A reconnect that subscribes after `joined` events, replays after `snap` of them and then receives everything up to
      the m-th without a drop: the client ends with exactly the events after `resume`, from where the replay starts. */
  lemma ResumeExact(p: seq<Event>, joined: nat, snap: nat, m: nat, resume: nat, k: nat)
    requires Numbered(p) && joined <= snap <= m <= |p|
    requires resume <= snap
    ensures k in Seqs(Sent(Recent(LastN(p[..snap], HISTORY_MAX), REPLAY_LIMIT, resume), p[joined..m], resume))
       <==> (ReplayStart(snap, REPLAY_LIMIT, resume) < k <= m || Max(joined, resume) < k <= m)
  {
    var start := ReplayStart(snap, REPLAY_LIMIT, resume);
    RecentExact(p[..snap], REPLAY_LIMIT, resume);
    assert p[..snap][start..] == p[start..snap];
    SeqsAppend(p[start..snap], After(p[joined..m], resume), k);
    SeqsOfRun(p, start, snap, k);
    SeqsOfRun(p, joined, m, k);
    AfterMembers(p[joined..m], resume, k);
  }

  ghost predicate GapFree(p: seq<Event>, joined: nat, snap: nat, m: nat, resume: nat)
    requires joined <= snap <= m <= |p|
  {
    forall k: nat :: resume < k <= m ==>
      k in Seqs(Sent(Recent(LastN(p[..snap], HISTORY_MAX), REPLAY_LIMIT, resume), p[joined..m], resume))
  }

  /** The client misses nothing exactly when no more than 200 events were published since its last one before the
      snapshot, or its new queue was already there by then. */
  lemma ResumeGapFreeIff(p: seq<Event>, joined: nat, snap: nat, m: nat, resume: nat)
    requires Numbered(p) && joined <= snap <= m <= |p| && resume <= snap
    ensures GapFree(p, joined, snap, m, resume) <==> snap - resume <= REPLAY_LIMIT || joined <= resume
  {
    if snap - resume > REPLAY_LIMIT && joined > resume {
      ResumeExact(p, joined, snap, m, resume, resume + 1);
      assert resume + 1 <= m;
    } else {
      forall k: nat | resume < k <= m
        ensures k in Seqs(Sent(Recent(LastN(p[..snap], HISTORY_MAX), REPLAY_LIMIT, resume), p[joined..m], resume))
      {
        ResumeExact(p, joined, snap, m, resume, k);
      }
    }
  }

  /** The flag says complete exactly when at most 500 events were published since the client's last one. */
  lemma CompleteFlagIs(p: seq<Event>, resume: nat)
    requires Numbered(p) && 0 < resume <= |p|
    ensures var h := LastN(p, HISTORY_MAX);
            CompleteFlag(h, Recent(h, REPLAY_LIMIT, resume), resume) <==> |p| - resume <= HISTORY_MAX
  {
    var h := LastN(p, HISTORY_MAX);
    assert h[0] == p[|p| - |h|];
  }

  /** A client that does not resume, and one that meets an empty ring, are always told that nothing is missing. */
  lemma FlagWithoutHistory(history: seq<Event>, missed: seq<Event>, resume: nat)
    requires resume == 0 || history == []
    ensures CompleteFlag(history, missed, resume)
  {}

  /** A resumed client is told that nothing is missing although it ends up with a gap exactly when 201 to 500 events
      were published since its last one and its new queue was opened after the first of them; it is told of a gap it
      does not have exactly when more than 500 were published but its queue was there before. */
  lemma CompleteFlagWrongIff(p: seq<Event>, joined: nat, snap: nat, m: nat, resume: nat)
    requires Numbered(p) && joined <= snap <= m <= |p| && 0 < resume <= snap
    ensures var h := LastN(p[..snap], HISTORY_MAX);
            var flag := CompleteFlag(h, Recent(h, REPLAY_LIMIT, resume), resume);
            && (flag && !GapFree(p, joined, snap, m, resume) <==>
                REPLAY_LIMIT < snap - resume <= HISTORY_MAX && joined > resume)
            && (!flag && GapFree(p, joined, snap, m, resume) <==> snap - resume > HISTORY_MAX && joined <= resume)
  {
    CompleteFlagIs(p[..snap], resume);
    ResumeGapFreeIff(p, joined, snap, m, resume);
  }

  /** After a restart the numbers start again, and a client resumes with an old number: it gets nothing at all, neither
      from the replay nor live, exactly until the numbers pass its own; and it is told that its replay is complete. */
  lemma StaleResumeSkipsIff(p: seq<Event>, joined: nat, snap: nat, m: nat, resume: nat)
    requires Numbered(p) && joined <= snap <= m <= |p|
    ensures var h := LastN(p[..snap], HISTORY_MAX);
            && (Sent(Recent(h, REPLAY_LIMIT, resume), p[joined..m], resume) == [] <==> m <= resume)
            && (m <= resume ==> CompleteFlag(h, Recent(h, REPLAY_LIMIT, resume), resume))
  {
    if m <= resume {
      NothingNewer(p[..snap], resume);
      NothingAfter(p, joined, m, resume);
    } else {
      LatestIsSent(p, joined, snap, m, resume);
    }
  }

  /** The last event, when it is newer than `resume`. */
  lemma LatestIsSent(p: seq<Event>, joined: nat, snap: nat, m: nat, resume: nat)
    requires Numbered(p) && joined <= snap <= m <= |p| && resume < m
    ensures m in Seqs(Sent(Recent(LastN(p[..snap], HISTORY_MAX), REPLAY_LIMIT, resume), p[joined..m], resume))
  {
    if resume <= snap {
      ResumeExact(p, joined, snap, m, resume, m);
    } else {
      SeqsOfRun(p, joined, m, m);
      AfterMembers(p[joined..m], resume, m);
      SeqsAppend(Recent(LastN(p[..snap], HISTORY_MAX), REPLAY_LIMIT, resume), After(p[joined..m], resume), m);
    }
  }

  lemma NothingNewer(p: seq<Event>, resume: nat)
    requires Numbered(p) && |p| <= resume
    ensures var h := LastN(p, HISTORY_MAX);
            Recent(h, REPLAY_LIMIT, resume) == [] && CompleteFlag(h, [], resume)
  {
    RecentExact(p, REPLAY_LIMIT, resume);
    var h := LastN(p, HISTORY_MAX);
    if h != [] { assert h[0] == p[|p| - |h|]; }
  }

  lemma NothingAfter(p: seq<Event>, joined: nat, m: nat, resume: nat)
    requires Numbered(p) && joined <= m <= |p| && m <= resume
    ensures After(p[joined..m], resume) == []
  {
    assert p[joined..m] == p[..m][joined..];
    AfterSuffix(p[..m], joined, resume);
  }

  // ---------- the bus itself ----------

  class EventQueue {
    const max: int
    var items: seq<Event>
    ghost var taken: seq<Event>
    ghost var dropped: nat
    ghost const joined: nat

    constructor (max: int, ghost joined: nat)
      ensures this.max == max && Current() == Feed([], [], 0, joined)
    {
      this.max := max;
      items := [];
      taken, dropped, this.joined := [], 0, joined;
    }

    ghost function Current(): Feed
      reads this
    {
      Feed(items, taken, dropped, joined)
    }

    ghost predicate Bounded()
      reads this
    {
      max > 0 ==> |items| <= max
    }

    method PutNowait(e: Event) returns (ok: bool)
      modifies this`items
      ensures ok <==> !IsFull(old(items), max)
      ensures items == if ok then old(items) + [e] else old(items)
    {
      ok := !(max > 0 && |items| >= max);
      if ok { items := items + [e]; }
    }

    method GetNowait() returns (e: Event)
      requires items != []
      modifies this`items
      ensures [e] + items == old(items)
    {
      e := items[0];
      items := items[1..];
    }
  }

  class EventStream {
    const limits: Limits
    var subscribers: seq<EventQueue>
    var history: seq<Event>
    var next: nat
    ghost var published: seq<Event>

    ghost predicate Valid()
      reads this, subscribers
    {
      && next == |published| + 1
      && (forall i, j :: 0 <= i < j < |subscribers| ==> subscribers[i] != subscribers[j])
      && (forall i :: 0 <= i < |subscribers| ==> subscribers[i].max == limits.queue && subscribers[i].Bounded())
    }

    ghost function Now(): Bus
      reads this, subscribers
    {
      Bus(published, history, FeedsOf(subscribers))
    }

    constructor (limits: Limits)
      ensures Valid() && this.limits == limits && Now() == Bus([], [], []) && subscribers == []
    {
      this.limits := limits;
      subscribers, history, next, published := [], [], 1, [];
    }

    /** Number the event, keep the last 500, and put it in every queue, dropping a full queue's oldest. */
    method Publish(body: string)
      requires Valid()
      modifies this`history, this`next, this`published, subscribers
      ensures Valid() && Now() == Apply(old(Now()), Op.Publish(body), limits)
    {
      ghost var feeds := FeedsOf(subscribers);
      var e := Append(body);
      assert FeedsOf(subscribers) == feeds;
      DeliverAll(e);
      assert FeedsOf(subscribers) == Offers(feeds, e, limits.queue);
    }

    method Append(body: string) returns (e: Event)
      requires next == |published| + 1
      modifies this`history, this`next, this`published
      ensures e == Event(old(next), body) && next == old(next) + 1
      ensures published == old(published) + [e] && history == LastN(old(history) + [e], HISTORY_MAX)
    {
      e := Event(next, body);
      next := next + 1;
      published := published + [e];
      history := history + [e];
      if |history| > HISTORY_MAX {
        history := history[|history| - HISTORY_MAX..];
      }
    }

    method DeliverAll(e: Event)
      requires forall i, j :: 0 <= i < j < |subscribers| ==> subscribers[i] != subscribers[j]
      requires forall i :: 0 <= i < |subscribers| ==> subscribers[i].max == limits.queue && subscribers[i].Bounded()
      modifies subscribers
      ensures forall i :: 0 <= i < |subscribers| ==>
                && subscribers[i].Bounded()
                && subscribers[i].Current() == Offer(old(subscribers[i].Current()), e, limits.queue)
    {
      var i := 0;
      while i < |subscribers|
        modifies subscribers
        invariant 0 <= i <= |subscribers|
        invariant forall j :: 0 <= j < |subscribers| ==> subscribers[j].Bounded()
        invariant forall j :: 0 <= j < i ==>
                    subscribers[j].Current() == Offer(old(subscribers[j].Current()), e, limits.queue)
        invariant forall j :: i <= j < |subscribers| ==> subscribers[j].Current() == old(subscribers[j].Current())
      {
        Deliver(subscribers[i], e);
        i := i + 1;
      }
    }

    method Deliver(q: EventQueue, e: Event)
      requires q.Bounded()
      modifies q
      ensures q.Bounded() && q.Current() == Offer(old(q.Current()), e, q.max)
    {
      var ok := q.PutNowait(e);
      if !ok {
        var oldest := q.GetNowait();
        ok := q.PutNowait(e);
        q.dropped := q.dropped + 1;
      }
    }

    method Subscribe() returns (q: EventQueue?)
      requires Valid()
      modifies this`subscribers
      ensures Valid() && Now() == Apply(old(Now()), Op.Subscribe, limits)
      ensures q == null <==> |old(subscribers)| >= limits.subscribers
      ensures q != null ==> fresh(q) && subscribers == old(subscribers) + [q]
    {
      if |subscribers| >= limits.subscribers {
        return null;
      }
      q := new EventQueue(limits.queue, |published|);
      subscribers := subscribers + [q];
    }

    method Unsubscribe(q: EventQueue)
      requires Valid()
      modifies this`subscribers
      ensures Valid() && q !in subscribers
      ensures q !in old(subscribers) ==> Now() == old(Now())
      ensures forall at: nat :: at < |old(subscribers)| && old(subscribers)[at] == q ==>
                Now() == Apply(old(Now()), Op.Unsubscribe(at), limits)
    {
      var i := 0;
      while i < |subscribers| && subscribers[i] != q
        invariant 0 <= i <= |subscribers|
        invariant forall j :: 0 <= j < i ==> subscribers[j] != q
      {
        i := i + 1;
      }
      if i < |subscribers| {
        subscribers := subscribers[..i] + subscribers[i + 1..];
      }
    }

    /** A subscriber takes the head of its own queue. */
    method Consume(ghost at: nat, q: EventQueue) returns (e: Option<Event>)
      requires Valid() && at < |subscribers| && subscribers[at] == q
      modifies q
      ensures Valid() && Now() == Apply(old(Now()), Op.Consume(at), limits)
      ensures e == if old(q.items) == [] then None else Some(old(q.items)[0])
    {
      if q.items == [] {
        return None;
      }
      var head := q.GetNowait();
      q.taken := q.taken + [head];
      e := Some(head);
    }

    method RecentEvents(limit: int, since: int) returns (r: seq<Event>)
      ensures r == Recent(history, limit, since)
    {
      var evts, i := [], 0;
      while i < |history|
        invariant 0 <= i <= |history|
        invariant evts + After(history[i..], since) == After(history, since)
      {
        AfterNext(history, i, since);
        if history[i].seqNo > since {
          evts := evts + [history[i]];
        }
        i := i + 1;
      }
      assert evts + After(history[i..], since) == evts;
      r := Tail(evts, limit);
    }
  }

  lemma AfterNext(h: seq<Event>, i: nat, since: int)
    requires i < |h|
    ensures After(h[i..], since) == (if h[i].seqNo > since then [h[i]] else []) + After(h[i + 1..], since)
  {
    assert h[i..][1..] == h[i + 1..];
  }

  ghost function FeedsOf(qs: seq<EventQueue>): (r: seq<Feed>)
    reads qs
    ensures |r| == |qs| && forall i :: 0 <= i < |r| ==> r[i] == qs[i].Current()
  {
    seq(|qs|, i requires 0 <= i < |qs| reads qs => qs[i].Current())
  }
}
