/** The sliding message window of one session: messages are evicted by age and by count into a list of the last 10000.
    The storage answers either as Redis does or as the in-memory deque does. */
module SlidingWindow {
  import opened Common

  const EVICTED_MAX: nat := 10000

  datatype Msg = Msg(ts: real, body: string)

  datatype Backend = Redis | Deque

  datatype Config = Config(backend: Backend, maxSize: int)

  // ---------- the two range queries ----------

  /** `list[start:stop]` of Python. */
  function PySlice<T>(s: seq<T>, start: int, stop: int): seq<T> {
    var lo := if start < 0 then Max(0, |s| + start) else Min(start, |s|);
    var hi := if stop < 0 then Max(0, |s| + stop) else Min(stop, |s|);
    if lo < hi then s[lo..hi] else []
  }

  /** LRANGE of Redis: the stop index is included. */
  function RedisRange<T>(s: seq<T>, start: int, stop: int): seq<T> {
    var lo := if start < 0 then Max(0, |s| + start) else start;
    var hi := Min(if stop < 0 then |s| + stop else stop, |s| - 1);
    if lo <= hi then s[lo..hi + 1] else []
  }

  function DequeRange<T>(s: seq<T>, start: int, stop: int): seq<T> {
    PySlice(s, start, if stop == -1 || stop >= |s| then |s| else stop)
  }

  function LRange<T>(b: Backend, s: seq<T>, start: int, stop: int): seq<T> {
    match b
    case Redis => RedisRange(s, start, stop)
    case Deque => DequeRange(s, start, stop)
  }

  /** The deque leaves the stop index out, so for indices counted from the front the two agree exactly when the range
      reaches past the end or is empty; ranges up to -1 always agree. */
  lemma RangesAgreeIff<T>(s: seq<T>, start: int, stop: int)
    ensures RedisRange(s, start, -1) == DequeRange(s, start, -1)
    ensures 0 <= start && 0 <= stop ==>
              (RedisRange(s, start, stop) == DequeRange(s, start, stop) <==> stop >= |s| || stop < start)
  {
    if 0 <= start <= stop < |s| {
      assert |RedisRange(s, start, stop)| == stop - start + 1;
      assert |DequeRange(s, start, stop)| == stop - start;
    }
  }

  // ---------- one session ----------

  /** How many messages at the front are older than the cutoff. */
  function Stale(w: seq<Msg>, cutoff: real): (k: nat)
    ensures k <= |w|
    ensures forall i :: 0 <= i < k ==> w[i].ts < cutoff
    ensures k < |w| ==> w[k].ts >= cutoff
  {
    if w != [] && w[0].ts < cutoff then 1 + Stale(w[1..], cutoff) else 0
  }

  datatype State = State(window: seq<Msg>, evicted: seq<Msg>)

  function PopCount(maxSize: int): nat { Max(1, maxSize / 4) }

  /** A quarter of the size, and at least one. */
  lemma PopCountIs(maxSize: int)
    ensures maxSize >= 4 ==> 4 * PopCount(maxSize) <= maxSize < 4 * PopCount(maxSize) + 4
    ensures maxSize < 4 ==> PopCount(maxSize) == 1
  {}

  /** Under the deque the head query returns nothing, so nothing is evicted by age. */
  function AgedOut(w: seq<Msg>, cutoff: real, b: Backend): (k: nat)
    ensures k <= |w|
  {
    if b.Redis? then Stale(w, cutoff) else 0
  }

  function Crowded(n: nat, maxSize: int): (p: nat)
    ensures p <= n
  {
    if n > maxSize then Min(PopCount(maxSize), n) else 0
  }

  function Record(evicted: seq<Msg>, popped: seq<Msg>): seq<Msg> { LastN(evicted + popped, EVICTED_MAX) }

  /** The first n messages move to the evicted list. */
  function Shift(s: State, n: nat): State
    requires n <= |s.window|
  {
    State(s.window[n..], Record(s.evicted, s.window[..n]))
  }

  function ByTime(s: State, cutoff: real, c: Config): State {
    Shift(s, AgedOut(s.window, cutoff, c.backend))
  }

  function ByCount(s: State, c: Config): State {
    Shift(s, Crowded(|s.window|, c.maxSize))
  }

  function Push(s: State, m: Msg): State { s.(window := s.window + [m]) }

  function Add(s: State, m: Msg, cutoff: real, c: Config): State {
    ByCount(ByTime(Push(s, m), cutoff, c), c)
  }

  /** `cutoff` is the time the eviction reads minus the window length. */
  datatype Op = AddMessage(msg: Msg, cutoff: real) | Clear

  function Apply(s: State, op: Op, c: Config): State {
    match op
    case AddMessage(m, cutoff) => Add(s, m, cutoff, c)
    case Clear => s.(window := [])
  }

  function Run(ops: seq<Op>, c: Config): State {
    if ops == [] then State([], []) else Apply(Run(ops[..|ops| - 1], c), ops[|ops| - 1], c)
  }

  /** All messages added, in order, without those a clear threw away. */
  function Kept(ops: seq<Op>, c: Config): seq<Msg> {
    if ops == [] then []
    else
      var before := Kept(ops[..|ops| - 1], c);
      match ops[|ops| - 1]
      case AddMessage(m, _) => before + [m]
      case Clear =>
        var n := |Run(ops[..|ops| - 1], c).window|;
        if n <= |before| then before[..|before| - n] else []
  }

  /** Nothing is lost or reordered: the window is the end of what was added, and the evicted list is what came before
      it, up to its cap. */
  ghost predicate Conserved(s: State, kept: seq<Msg>) {
    && |s.window| <= |kept|
    && s.window == kept[|kept| - |s.window|..]
    && s.evicted == LastN(kept[..|kept| - |s.window|], EVICTED_MAX)
  }

  lemma ShiftConserves(s: State, kept: seq<Msg>, n: nat)
    requires Conserved(s, kept) && n <= |s.window|
    ensures Conserved(Shift(s, n), kept)
  {
    var past := kept[..|kept| - |s.window|];
    LastNAppend(past, s.window[..n], EVICTED_MAX);
    assert past + s.window[..n] == kept[..|past| + n];
  }

  lemma PushConserves(s: State, kept: seq<Msg>, m: Msg)
    requires Conserved(s, kept)
    ensures Conserved(Push(s, m), kept + [m])
  {
    var past := kept[..|kept| - |s.window|];
    assert (kept + [m])[..|past|] == past;
  }

  lemma AddConserves(s: State, kept: seq<Msg>, m: Msg, cutoff: real, c: Config)
    requires Conserved(s, kept)
    ensures Conserved(Add(s, m, cutoff, c), kept + [m])
  {
    PushConserves(s, kept, m);
    var s1 := Push(s, m);
    ShiftConserves(s1, kept + [m], AgedOut(s1.window, cutoff, c.backend));
    var s2 := ByTime(s1, cutoff, c);
    ShiftConserves(s2, kept + [m], Crowded(|s2.window|, c.maxSize));
  }

  /** Over every run, evicted and window together are what was added and not cleared, in order, and the window never
      exceeds its size. */
  lemma {:induction false} RunsConserve(ops: seq<Op>, c: Config)
    ensures Conserved(Run(ops, c), Kept(ops, c)) && |Run(ops, c).window| <= Max(0, c.maxSize)
  {
    if ops != [] {
      var n := |ops| - 1;
      RunsConserve(ops[..n], c);
      var s, kept := Run(ops[..n], c), Kept(ops[..n], c);
      match ops[n]
      case AddMessage(m, cutoff) => AddConserves(s, kept, m, cutoff, c);
      case Clear =>
        var rest := kept[..|kept| - |s.window|];
        assert rest[..|rest|] == rest;
    }
  }

  // ---------- the age clause ----------

  ghost predicate Ordered(ms: seq<Msg>) {
    forall i, j :: 0 <= i < j < |ms| ==> ms[i].ts <= ms[j].ts
  }

  ghost predicate AllFresh(ms: seq<Msg>, cutoff: real) {
    forall i :: 0 <= i < |ms| ==> ms[i].ts >= cutoff
  }

  ghost predicate AddsBelow(ops: seq<Op>, t: real) {
    forall i :: 0 <= i < |ops| && ops[i].AddMessage? ==> ops[i].msg.ts <= t
  }

  /** The clock that stamps messages does not run backwards. */
  ghost predicate ClockAdvances(ops: seq<Op>) {
    forall i :: 0 <= i < |ops| && ops[i].AddMessage? ==> AddsBelow(ops[..i], ops[i].msg.ts)
  }

  lemma {:induction false} KeptBelow(ops: seq<Op>, c: Config, t: real)
    requires AddsBelow(ops, t)
    ensures forall i :: 0 <= i < |Kept(ops, c)| ==> Kept(ops, c)[i].ts <= t
  {
    if ops != [] {
      KeptBelow(ops[..|ops| - 1], c, t);
    }
  }

  lemma {:induction false} KeptOrdered(ops: seq<Op>, c: Config)
    requires ClockAdvances(ops)
    ensures Ordered(Kept(ops, c))
  {
    if ops != [] {
      var n := |ops| - 1;
      forall i | 0 <= i < n && ops[..n][i].AddMessage?
        ensures AddsBelow(ops[..n][..i], ops[..n][i].msg.ts)
      {
        assert ops[..n][..i] == ops[..i];
      }
      KeptOrdered(ops[..n], c);
      if ops[n].AddMessage? {
        KeptBelow(ops[..n], c, ops[n].msg.ts);
      }
    }
  }

  lemma StaleIsAll(w: seq<Msg>, cutoff: real)
    requires Ordered(w)
    ensures AllFresh(w[Stale(w, cutoff)..], cutoff)
  {}

  /** With Redis, right after a message is added nothing older than the cutoff is in the window. */
  lemma NothingStale(ops: seq<Op>, c: Config)
    requires ops != [] && ops[|ops| - 1].AddMessage? && ClockAdvances(ops) && c.backend == Redis
    ensures AllFresh(Run(ops, c).window, ops[|ops| - 1].cutoff)
  {
    var n := |ops| - 1;
    var s, m, cutoff := Run(ops[..n], c), ops[n].msg, ops[n].cutoff;
    RunsConserve(ops[..n], c);
    PushConserves(s, Kept(ops[..n], c), m);
    KeptOrdered(ops, c);
    OrderedEnd(Push(s, m), Kept(ops, c));
    StaleIsAll(Push(s, m).window, cutoff);
    FreshEnd(ByTime(Push(s, m), cutoff, c), cutoff, c);
  }

  lemma OrderedEnd(s: State, kept: seq<Msg>)
    requires Ordered(kept) && Conserved(s, kept)
    ensures Ordered(s.window)
  {}

  lemma FreshEnd(s: State, cutoff: real, c: Config)
    requires AllFresh(s.window, cutoff)
    ensures AllFresh(ByCount(s, c).window, cutoff)
  {}

  /** The two backends leave the same window exactly when the head is fresh enough, or when the window was full and
      just as many messages are stale as a count eviction removes. */
  lemma BackendsAgreeIff(s: State, m: Msg, cutoff: real, maxSize: int)
    requires |s.window| <= Max(0, maxSize)
    ensures (Add(s, m, cutoff, Config(Deque, maxSize)).window == Add(s, m, cutoff, Config(Redis, maxSize)).window)
         == (Push(s, m).window[0].ts >= cutoff
             || (|s.window| + 1 > maxSize && Stale(Push(s, m).window, cutoff) == PopCount(maxSize)))
  {
    var w := Push(s, m).window;
    AddLeaves(s, m, cutoff, Config(Deque, maxSize), 0);
    AddLeaves(s, m, cutoff, Config(Redis, maxSize), Stale(w, cutoff));
    SameDrop(w, Crowded(|w|, maxSize), Stale(w, cutoff) + Crowded(|w| - Stale(w, cutoff), maxSize));
    SameCount(|w|, Stale(w, cutoff), maxSize);
  }

  /** The window after an add, in one cut. */
  lemma AddLeaves(s: State, m: Msg, cutoff: real, c: Config, k: nat)
    requires k == AgedOut(Push(s, m).window, cutoff, c.backend)
    ensures Add(s, m, cutoff, c).window == Push(s, m).window[k + Crowded(|s.window| + 1 - k, c.maxSize)..]
  {
    var w := Push(s, m).window;
    var s1 := ByTime(Push(s, m), cutoff, c);
    assert s1.window == w[k..] && |w| == |s.window| + 1;
    CountCut(s1, c);
    DropTwice(w, k, Crowded(|w| - k, c.maxSize));
  }

  lemma CountCut(s: State, c: Config)
    ensures ByCount(s, c).window == s.window[Crowded(|s.window|, c.maxSize)..]
  {}

  lemma DropTwice(w: seq<Msg>, i: nat, j: nat)
    requires i + j <= |w|
    ensures w[i..][j..] == w[i + j..]
  {}

  /** A message that finds room evicts nothing but what is too old; one that does not, a quarter of the size more. */
  lemma AddIs(s: State, m: Msg, cutoff: real, c: Config)
    ensures var w := s.window + [m];
            var k := if c.backend.Redis? then Stale(w, cutoff) else 0;
            && (|w| - k <= c.maxSize ==> Add(s, m, cutoff, c).window == w[k..])
            && (|w| - k > c.maxSize >= 4 ==>
                  Add(s, m, cutoff, c).window == w[k + c.maxSize / 4..])
            && (|w| - k > c.maxSize && c.maxSize < 4 && |w| > k ==> Add(s, m, cutoff, c).window == w[k + 1..])
  {
    var w := s.window + [m];
    var k := if c.backend.Redis? then Stale(w, cutoff) else 0;
    AddLeaves(s, m, cutoff, c, k);
    PopCountIs(c.maxSize);
  }

  lemma SameDrop(w: seq<Msg>, a: nat, b: nat)
    requires a <= |w| && b <= |w|
    ensures w[a..] == w[b..] <==> a == b
  {
    assert |w[a..]| == |w| - a && |w[b..]| == |w| - b;
  }

  lemma SameCount(n: nat, k: nat, maxSize: int)
    requires k <= n <= Max(0, maxSize) + 1
    ensures Crowded(n, maxSize) == k + Crowded(n - k, maxSize) <==> k == 0 || (n > maxSize && k == PopCount(maxSize))
  {}

  /** The deque keeps a message of any age as long as the window is not full. */
  lemma DequeKeepsStale(m: Msg, later: Msg, cutoff: real, maxSize: int)
    requires maxSize >= 2 && m.ts < cutoff && later != m
    ensures Add(State([m], []), later, cutoff, Config(Deque, maxSize)).window == [m, later]
    ensures m !in Add(State([m], []), later, cutoff, Config(Redis, maxSize)).window
  {
    var w := Push(State([m], []), later).window;
    assert w == [m, later] && w[1..] == [later];
  }

  // ---------- the window itself ----------

  class Window {
    const config: Config
    var window: seq<Msg>
    var evicted: seq<Msg>

    constructor (config: Config)
      ensures this.config == config && Now() == State([], [])
    {
      this.config := config;
      window, evicted := [], [];
    }

    ghost function Now(): State
      reads this
    {
      State(window, evicted)
    }

    method AddMessage(m: Msg, cutoff: real)
      requires |evicted| <= EVICTED_MAX
      modifies this
      ensures Now() == Add(old(Now()), m, cutoff, config) && |evicted| <= EVICTED_MAX
    {
      window := window + [m];
      EvictByTime(cutoff);
      if |window| > config.maxSize {
        EvictByCount();
      } else {
        assert ByCount(Now(), config) == Now();
      }
    }

    method EvictByTime(cutoff: real)
      requires |evicted| <= EVICTED_MAX
      modifies this
      ensures Now() == ByTime(old(Now()), cutoff, config)
    {
      ghost var was := window;
      var popped: seq<Msg> := [];
      while true
        modifies this`window
        invariant |popped| <= |was| && popped == was[..|popped|] && window == was[|popped|..]
        invariant |popped| + AgedOut(window, cutoff, config.backend) == AgedOut(was, cutoff, config.backend)
        decreases |window|
      {
        var items := LRange(config.backend, window, 0, 0);
        if items == [] || items[0].ts >= cutoff {
          break;
        }
        popped := popped + [window[0]];
        window := window[1..];
      }
      assert AgedOut(window, cutoff, config.backend) == 0;
      if popped != [] {
        RecordEvicted(popped);
      }
    }

    method EvictByCount()
      requires |evicted| <= EVICTED_MAX && |window| > config.maxSize
      modifies this
      ensures Now() == ByCount(old(Now()), config)
    {
      ghost var was := window;
      var popCount := PopCount(config.maxSize);
      var popped: seq<Msg> := [];
      for i := 0 to popCount
        modifies this`window
        invariant |popped| == Min(i, |was|) && popped == was[..|popped|] && window == was[|popped|..]
      {
        if window != [] {
          popped := popped + [window[0]];
          window := window[1..];
        }
      }
      if popped != [] {
        RecordEvicted(popped);
      }
    }

    method RecordEvicted(popped: seq<Msg>)
      requires |evicted| <= EVICTED_MAX
      modifies this`evicted
      ensures evicted == Record(old(evicted), popped)
    {
      ghost var all := evicted + popped;
      for i := 0 to |popped|
        invariant evicted == old(evicted) + popped[..i]
      {
        evicted := evicted + [popped[i]];
      }
      assert evicted == all;
      if |evicted| > EVICTED_MAX {
        var excess := |evicted| - EVICTED_MAX;
        for i := 0 to excess
          invariant evicted == all[i..]
        {
          evicted := evicted[1..];
        }
      }
    }

    method ClearWindow()
      modifies this`window
      ensures Now() == Apply(old(Now()), Clear, config)
    {
      window := [];
    }

    /** The newest `limit` records; a limit of zero gives all of them, a negative one drops that many of the oldest. */
    method GetEvicted(limit: int) returns (r: seq<Msg>)
      ensures limit > 0 ==> r == LastN(evicted, limit)
      ensures limit <= 0 ==> r == if -limit <= |evicted| then evicted[-limit..] else []
    {
      r := LRange(config.backend, evicted, -limit, -1);
    }
  }
}
