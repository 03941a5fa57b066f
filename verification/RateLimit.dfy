/** The HTTP limiter: which bucket a request falls in, and the 60-second sliding window of that bucket. */
module RateLimit {
  import opened Common
  import opened TimeWindow

  // ---------- bucket choice ----------

  /** A path prefix and the methods it applies to; `None` is every method. */
  datatype Rule = Rule(prefix: string, methods: Option<set<string>>)

  predicate Under(path: string, prefix: string) {
    path == prefix || prefix + "/" <= path
  }

  predicate RuleApplies(r: Rule, path: string, verb: string) {
    Under(path, r.prefix) && (r.methods.None? || verb in r.methods.value)
  }

  predicate AnyUnder(path: string, prefixes: seq<string>) {
    exists i :: 0 <= i < |prefixes| && Under(path, prefixes[i])
  }

  /** A path is under a prefix when it is that prefix, or goes on with a slash right behind it. */
  lemma UnderIff(path: string, prefix: string)
    ensures Under(path, prefix) <==>
            path == prefix || (|path| > |prefix| && path[..|prefix|] == prefix && path[|prefix|] == '/')
  {
    var p := prefix + "/";
    if p <= path {
      assert path[..|prefix|] == p[..|prefix|] == prefix && path[|prefix|] == p[|prefix|];
    }
    if |path| > |prefix| && path[..|prefix|] == prefix && path[|prefix|] == '/' {
      assert path[..|p|] == p;
    }
  }

  /** A rule without methods applies to every method of the paths under its prefix, one with methods to just those. */
  lemma RuleAppliesIff(r: Rule, path: string, verb: string)
    ensures r.methods == None ==> (RuleApplies(r, path, verb) <==> Under(path, r.prefix))
    ensures r.methods.Some? ==> (RuleApplies(r, path, verb) <==> verb in r.methods.value && Under(path, r.prefix))
  {}

  lemma AnyUnderIff(path: string, prefixes: seq<string>)
    ensures AnyUnder(path, prefixes) <==> exists p :: p in prefixes && Under(path, p)
  {}

  datatype Namespace = Crit | Std

  /** The longest-prefix bookkeeping never changes the answer: a path is forced exactly when some rule applies. */
  method IsForced(path: string, verb: string, rules: seq<Rule>) returns (forced: bool)
    ensures forced <==> exists i :: 0 <= i < |rules| && RuleApplies(rules[i], path, verb)
  {
    var bestLen := -1;
    forced := false;
    var i := 0;
    while i < |rules|
      invariant 0 <= i <= |rules|
      invariant bestLen >= 0 ==> forced
      invariant forced <==> exists k :: 0 <= k < i && RuleApplies(rules[k], path, verb)
    {
      var r := rules[i];
      if Under(path, r.prefix) {
        if !(r.methods.Some? && verb !in r.methods.value) {
          if |r.prefix| > bestLen {
            bestLen, forced := |r.prefix|, true;
          }
        }
      }
      i := i + 1;
    }
  }

  /** Forced beats exempt; everything else is counted in the standard namespace. `None` is exempt. */
  method Decide(path: string, verb: string, rules: seq<Rule>, whitelist: seq<string>, extra: seq<string>)
    returns (r: Option<Namespace>)
    ensures r == Some(Crit) <==> exists i :: 0 <= i < |rules| && RuleApplies(rules[i], path, verb)
    ensures r == None <==> !(exists i :: 0 <= i < |rules| && RuleApplies(rules[i], path, verb))
                           && AnyUnder(path, whitelist + extra)
  {
    assert AnyUnder(path, whitelist + extra) <==> AnyUnder(path, whitelist) || AnyUnder(path, extra) by {
      var all := whitelist + extra;
      if i :| 0 <= i < |whitelist| && Under(path, whitelist[i]) { assert all[i] == whitelist[i]; }
      if i :| 0 <= i < |extra| && Under(path, extra[i]) { assert all[|whitelist| + i] == extra[i]; }
    }
    var forced := IsForced(path, verb, rules);
    if forced {
      return Some(Crit);
    }
    if AnyUnder(path, whitelist) || AnyUnder(path, extra) {
      return None;
    }
    return Some(Std);
  }

  function BucketKey(n: Namespace, client: string): string {
    (match n case Crit => "crit" case Std => "std") + ":" + client
  }

  /** Bucket keys determine namespace and client, so the two namespaces never share a window. */
  lemma BucketKeyInjective(n1: Namespace, c1: string, n2: Namespace, c2: string)
    requires BucketKey(n1, c1) == BucketKey(n2, c2)
    ensures n1 == n2 && c1 == c2
  {
    var k1, k2 := BucketKey(n1, c1), BucketKey(n2, c2);
    assert n1 == Crit <==> k1[0] == 'c';
    assert n2 == Crit <==> k2[0] == 'c';
    if n1 == Crit {
      assert k1[5..] == c1 && k2[5..] == c2;
    } else {
      assert k1[4..] == c1 && k2[4..] == c2;
    }
  }

  // ---------- the middleware ----------

  const WINDOW: real := 60.0
  const CLEANUP_INTERVAL: real := 300.0

  datatype State = State(store: map<string, seq<real>>, lastCleanup: real)

  datatype Request = Request(key: string, now: real)

  function Init(): State { State(map[], 0.0) }

  function Get(store: map<string, seq<real>>, key: string): seq<real> {
    if key in store then store[key] else []
  }

  /** The timestamps later than the cutoff. */
  function Fresh(ts: seq<real>, cutoff: real): (r: seq<real>)
    ensures |r| <= |ts|
  {
    Since(ts, cutoff, true)
  }

  predicate Stale(ts: seq<real>, now: real) {
    ts == [] || ts[|ts| - 1] < now - WINDOW
  }

  function DropStale(store: map<string, seq<real>>, now: real): map<string, seq<real>> {
    map k | k in store && !Stale(store[k], now) :: store[k]
  }

  function Cleanup(s: State, now: real): State {
    if now - s.lastCleanup > CLEANUP_INTERVAL then State(DropStale(s.store, now), now) else s
  }

  /** One counted request: new state and whether it is admitted. */
  function Check(s: State, limit: int, q: Request): (State, bool) {
    if limit <= 0 then (s, true)
    else
      var s1 := Cleanup(s, q.now);
      var kept := Fresh(Get(s1.store, q.key), q.now - WINDOW);
      if |kept| >= limit then (s1.(store := s1.store[q.key := kept]), false)
      else (s1.(store := s1.store[q.key := kept + [q.now]]), true)
  }

  /** The state and all answers after a run. */
  function Run(limit: int, qs: seq<Request>): (r: (State, seq<bool>))
    ensures |r.1| == |qs|
  {
    if qs == [] then (Init(), [])
    else
      var (s, ans) := Run(limit, qs[..|qs| - 1]);
      var (s', ok) := Check(s, limit, qs[|qs| - 1]);
      (s', ans + [ok])
  }

  // ---------- the specification: full history, no store, no cleanup ----------

  /** Times of the admitted requests of one bucket. */
  function Admitted(qs: seq<Request>, ans: seq<bool>, key: string): seq<real>
    requires |qs| == |ans|
  {
    if qs == [] then []
    else
      var n := |qs| - 1;
      Admitted(qs[..n], ans[..n], key) + (if ans[n] && qs[n].key == key then [qs[n].now] else [])
  }

  /** A request is admitted when fewer than `limit` of its bucket were admitted in the last 60 seconds. */
  function Spec(limit: int, qs: seq<Request>): (ans: seq<bool>)
    ensures |ans| == |qs|
  {
    if qs == [] then []
    else
      var n := |qs| - 1;
      var ans := Spec(limit, qs[..n]);
      ans + [|Fresh(Admitted(qs[..n], ans, qs[n].key), qs[n].now - WINDOW)| < limit]
  }

  ghost predicate Monotone(qs: seq<Request>) {
    forall i, j :: 0 <= i < j < |qs| ==> qs[i].now <= qs[j].now
  }

  // ---------- the store agrees with the history ----------

  /** Each stored list is ascending and not in the future. */
  ghost predicate Sane(s: State, clock: real) {
    forall k :: Ascending(Get(s.store, k)) && UpTo(Get(s.store, k), clock)
  }

  /** From `clock` on, the store and the history answer every window question alike. */
  ghost predicate Agrees(s: State, qs: seq<Request>, ans: seq<bool>, clock: real)
    requires |qs| == |ans|
  {
    forall k, c :: c >= clock - WINDOW ==> Fresh(Get(s.store, k), c) == Fresh(Admitted(qs, ans, k), c)
  }

  lemma CleanupAgrees(s: State, qs: seq<Request>, ans: seq<bool>, clock: real, now: real)
    requires |qs| == |ans| && Sane(s, clock) && Agrees(s, qs, ans, clock) && clock <= now
    ensures Sane(Cleanup(s, now), now) && Agrees(Cleanup(s, now), qs, ans, now)
  {
    var s1 := Cleanup(s, now);
    forall k
      ensures Get(s1.store, k) == Get(s.store, k) || (Get(s1.store, k) == [] && Stale(Get(s.store, k), now))
    {}
    forall k, c | c >= now - WINDOW
      ensures Fresh(Get(s1.store, k), c) == Fresh(Admitted(qs, ans, k), c)
    {
      if Get(s1.store, k) != Get(s.store, k) {
        var ts := Get(s.store, k);
        assert Stale(ts, now);
        forall i | 0 <= i < |ts|
          ensures ts[i] <= c
        {
          assert ts[i] <= ts[|ts| - 1];
        }
        SinceOfOld(ts, c, true);
      }
    }
  }

  lemma CheckAgreesHere(s1: State, limit: int, qs: seq<Request>, ans: seq<bool>, q: Request, c: real)
    requires limit > 0 && |qs| == |ans| && Agrees(s1, qs, ans, q.now) && c >= q.now - WINDOW
    ensures var kept := Fresh(Get(s1.store, q.key), q.now - WINDOW);
      && Fresh(kept, c) == Fresh(Admitted(qs + [q], ans + [false], q.key), c)
      && Fresh(kept + [q.now], c) == Fresh(Admitted(qs + [q], ans + [true], q.key), c)
  {
    var ts := Get(s1.store, q.key);
    var kept := Fresh(ts, q.now - WINDOW);
    SinceTwice(ts, q.now - WINDOW, c, true);
    SinceAppend(kept, [q.now], c, true);
    var adm := Admitted(qs, ans, q.key);
    SinceAppend(adm, [q.now], c, true);
    AdmittedStep(qs, ans, q, false, q.key);
    AdmittedStep(qs, ans, q, true, q.key);
  }

  lemma AdmittedStep(qs: seq<Request>, ans: seq<bool>, q: Request, ok: bool, key: string)
    requires |qs| == |ans|
    ensures Admitted(qs + [q], ans + [ok], key)
         == if ok && q.key == key then Admitted(qs, ans, key) + [q.now] else Admitted(qs, ans, key)
  {
    assert (qs + [q])[..|qs|] == qs && (ans + [ok])[..|qs|] == ans;
    assert Admitted(qs, ans, key) + [] == Admitted(qs, ans, key);
  }

  /** The state before the last test: cleaned up, with the bucket pruned. */
  lemma CheckSane(s1: State, q: Request, ts: seq<real>)
    requires Sane(s1, q.now) && Ascending(ts) && UpTo(ts, q.now)
    ensures Sane(s1.(store := s1.store[q.key := ts]), q.now)
  {
    var s' := s1.(store := s1.store[q.key := ts]);
    forall k
      ensures Get(s'.store, k) == if k == q.key then ts else Get(s1.store, k)
    {}
  }

  lemma CheckAgreesAll(s1: State, limit: int, qs: seq<Request>, ans: seq<bool>, q: Request, ok: bool)
    requires limit > 0 && |qs| == |ans| && Agrees(s1, qs, ans, q.now)
    ensures var kept := Fresh(Get(s1.store, q.key), q.now - WINDOW);
      Agrees(s1.(store := s1.store[q.key := if ok then kept + [q.now] else kept]), qs + [q], ans + [ok], q.now)
  {
    var kept := Fresh(Get(s1.store, q.key), q.now - WINDOW);
    var s' := s1.(store := s1.store[q.key := if ok then kept + [q.now] else kept]);
    forall k, c | c >= q.now - WINDOW
      ensures Fresh(Get(s'.store, k), c) == Fresh(Admitted(qs + [q], ans + [ok], k), c)
    {
      if k == q.key {
        CheckAgreesHere(s1, limit, qs, ans, q, c);
      } else {
        AdmittedStep(qs, ans, q, ok, k);
      }
    }
  }

  lemma CheckAgrees(s: State, limit: int, qs: seq<Request>, ans: seq<bool>, clock: real, q: Request)
    requires limit > 0 && |qs| == |ans| && Sane(s, clock) && Agrees(s, qs, ans, clock) && clock <= q.now
    ensures var (s', ok) := Check(s, limit, q);
      && Sane(s', q.now)
      && Agrees(s', qs + [q], ans + [ok], q.now)
      && ok == (|Fresh(Admitted(qs, ans, q.key), q.now - WINDOW)| < limit)
  {
    var s1 := Cleanup(s, q.now);
    CleanupAgrees(s, qs, ans, clock, q.now);
    var kept := Fresh(Get(s1.store, q.key), q.now - WINDOW);
    SinceKeeps(Get(s1.store, q.key), q.now - WINDOW, true, q.now);
    CheckSane(s1, q, kept);
    CheckSane(s1, q, kept + [q.now]);
    CheckAgreesAll(s1, limit, qs, ans, q, |kept| < limit);
  }

  lemma Later(s: State, qs: seq<Request>, ans: seq<bool>, now: real, clock: real)
    requires |qs| == |ans| && Sane(s, now) && Agrees(s, qs, ans, now) && now <= clock
    ensures Sane(s, clock) && Agrees(s, qs, ans, clock)
  {
    forall k
      ensures UpTo(Get(s.store, k), clock)
    {
      assert UpTo(Get(s.store, k), now);
    }
  }

  /** Over every run with a clock that does not go back, the middleware answers as the full-history rule does.
      Pruning and the periodic deletion of stale buckets never change an answer. */
  lemma {:induction false} RunMatchesSpec(limit: int, qs: seq<Request>, clock: real)
    requires limit > 0 && Monotone(qs)
    requires forall i :: 0 <= i < |qs| ==> qs[i].now <= clock
    ensures Run(limit, qs).1 == Spec(limit, qs)
    ensures Sane(Run(limit, qs).0, clock) && Agrees(Run(limit, qs).0, qs, Spec(limit, qs), clock)
  {
    if qs == [] {
      assert forall k :: Get(Init().store, k) == [];
    } else {
      var p, q := qs[..|qs| - 1], qs[|qs| - 1];
      assert p + [q] == qs;
      RunMatchesSpec(limit, p, q.now);
      StepMatchesSpec(limit, p, q);
      Later(Run(limit, p + [q]).0, p + [q], Spec(limit, p + [q]), q.now, clock);
    }
  }

  lemma RunStep(limit: int, p: seq<Request>, q: Request)
    ensures Run(limit, p + [q])
         == (Check(Run(limit, p).0, limit, q).0, Run(limit, p).1 + [Check(Run(limit, p).0, limit, q).1])
  {
    assert (p + [q])[..|p|] == p;
  }

  lemma SpecStep(limit: int, p: seq<Request>, q: Request)
    ensures Spec(limit, p + [q])
         == Spec(limit, p) + [|Fresh(Admitted(p, Spec(limit, p), q.key), q.now - WINDOW)| < limit]
  {
    assert (p + [q])[..|p|] == p;
  }

  lemma StepMatchesSpec(limit: int, p: seq<Request>, q: Request)
    requires limit > 0 && Run(limit, p).1 == Spec(limit, p)
    requires Sane(Run(limit, p).0, q.now) && Agrees(Run(limit, p).0, p, Spec(limit, p), q.now)
    ensures Run(limit, p + [q]).1 == Spec(limit, p + [q])
    ensures Sane(Run(limit, p + [q]).0, q.now) && Agrees(Run(limit, p + [q]).0, p + [q], Spec(limit, p + [q]), q.now)
  {
    RunStep(limit, p, q);
    SpecStep(limit, p, q);
    CheckAgrees(Run(limit, p).0, limit, p, Spec(limit, p), q.now, q);
  }

  /** More than 300 seconds after the last one a request cleans up first: no bucket whose last admission is more than 60
      seconds old is kept. Before that nothing is deleted. */
  lemma CleanupIs(s: State, now: real)
    ensures now - s.lastCleanup <= 300.0 ==> Cleanup(s, now) == s
    ensures now - s.lastCleanup > 300.0 ==>
              var t := Cleanup(s, now);
              && t.lastCleanup == now
              && (forall k :: k in t.store <==>
                    (k in s.store && s.store[k] != [] && now - s.store[k][|s.store[k]| - 1] <= 60.0))
              && forall k :: k in t.store ==> t.store[k] == s.store[k]
  {}

  // ---------- who is admitted ----------

  /** Request j was admitted to the bucket of request i, less than 60 seconds before it. */
  predicate Counts(qs: seq<Request>, ans: seq<bool>, i: nat, j: nat)
    requires i < |qs| == |ans|
  {
    j < i && ans[j] && qs[j].key == qs[i].key && qs[i].now - qs[j].now < 60.0
  }

  lemma {:induction false} FreshCounts(qs: seq<Request>, ans: seq<bool>, i: nat, k: nat)
    requires k <= i < |qs| == |ans|
    ensures |Fresh(Admitted(qs[..k], ans[..k], qs[i].key), qs[i].now - WINDOW)|
         == |set j: nat | j < k && Counts(qs, ans, i, j)|
  {
    var c := qs[i].now - WINDOW;
    if k == 0 {
      assert (set j: nat | j < k && Counts(qs, ans, i, j)) == {};
    } else {
      FreshCounts(qs, ans, i, k - 1);
      var before := Admitted(qs[..k - 1], ans[..k - 1], qs[i].key);
      assert qs[..k] == qs[..k - 1] + [qs[k - 1]] && ans[..k] == ans[..k - 1] + [ans[k - 1]];
      AdmittedStep(qs[..k - 1], ans[..k - 1], qs[k - 1], ans[k - 1], qs[i].key);
      SinceAppend(before, [qs[k - 1].now], c, true);
      OneFresh(qs[k - 1].now, c);
      CountOneMore(qs, ans, i, k);
    }
  }

  lemma OneFresh(t: real, c: real)
    ensures |Since([t], c, true)| == if t > c then 1 else 0
  {
    assert [t][1..] == [];
  }

  lemma CountOneMore(qs: seq<Request>, ans: seq<bool>, i: nat, k: nat)
    requires 0 < k <= i < |qs| == |ans|
    ensures |set j: nat | j < k && Counts(qs, ans, i, j)|
         == |set j: nat | j < k - 1 && Counts(qs, ans, i, j)| + (if Counts(qs, ans, i, k - 1) then 1 else 0)
  {
    var all, before := set j: nat | j < k && Counts(qs, ans, i, j), set j: nat | j < k - 1 && Counts(qs, ans, i, j);
    assert all == if Counts(qs, ans, i, k - 1) then before + {k - 1} else before;
  }

  lemma {:induction false} SpecPrefix(limit: int, qs: seq<Request>, i: nat)
    requires i <= |qs|
    ensures Spec(limit, qs)[..i] == Spec(limit, qs[..i])
  {
    if i < |qs| {
      var n := |qs| - 1;
      SpecPrefix(limit, qs[..n], i);
      assert qs[..n][..i] == qs[..i] && Spec(limit, qs)[..n] == Spec(limit, qs[..n]);
      assert Spec(limit, qs)[..i] == Spec(limit, qs)[..n][..i];
    } else {
      assert qs[..i] == qs;
    }
  }

  lemma SpecAt(limit: int, qs: seq<Request>, i: nat)
    requires i < |qs|
    ensures Spec(limit, qs)[i]
       <==> |Fresh(Admitted(qs[..i], Spec(limit, qs[..i]), qs[i].key), qs[i].now - WINDOW)| < limit
  {
    SpecPrefix(limit, qs, i + 1);
    assert qs[..i + 1][..i] == qs[..i];
    assert Spec(limit, qs)[i] == Spec(limit, qs)[..i + 1][i];
  }

  /** The middleware admits a request if and only if fewer than `limit` requests of its bucket were admitted in the 60
      seconds before it: it refuses nobody else. */
  lemma AdmittedIff(limit: int, qs: seq<Request>, i: nat)
    requires limit > 0 && Monotone(qs) && i < |qs|
    ensures Run(limit, qs).1[i] <==> |set j: nat | j < i && Counts(qs, Run(limit, qs).1, i, j)| < limit
  {
    var ans := Run(limit, qs).1;
    RunMatchesSpec(limit, qs, qs[|qs| - 1].now);
    SpecAt(limit, qs, i);
    SpecPrefix(limit, qs, i);
    FreshCounts(qs, ans, i, i);
  }

  /** Without a positive limit everything is admitted. */
  lemma {:induction false} NoLimitAdmitsAll(limit: int, qs: seq<Request>, i: nat)
    requires limit <= 0 && i < |qs|
    ensures Run(limit, qs).1[i]
  {
    if i < |qs| - 1 { NoLimitAdmitsAll(limit, qs[..|qs| - 1], i); }
  }

  // ---------- the promise: at most `limit` in any 60 seconds ----------

  /** The timestamps in (a, a + 60]. */
  function Between(ts: seq<real>, a: real): seq<real> {
    if ts == [] then []
    else (if a < ts[0] <= a + WINDOW then [ts[0]] else []) + Between(ts[1..], a)
  }

  lemma {:induction false} BetweenIs(ts: seq<real>, a: real)
    ensures Between(ts, a) == Filter(ts, t => a < t <= a + 60.0)
  {
    if ts != [] {
      var n := |ts| - 1;
      BetweenIs(ts[..n], a);
      assert ts == ts[..n] + [ts[n]];
      BetweenAppend(ts[..n], [ts[n]], a);
    }
  }

  lemma {:induction false} BetweenAppend(s: seq<real>, t: seq<real>, a: real)
    ensures Between(s + t, a) == Between(s, a) + Between(t, a)
  {
    if s == [] {
      assert s + t == t;
    } else {
      assert (s + t)[1..] == s[1..] + t;
      BetweenAppend(s[1..], t, a);
    }
  }

  lemma {:induction false} BetweenAtMostFresh(ts: seq<real>, a: real, c: real)
    requires c <= a
    ensures |Between(ts, a)| <= |Fresh(ts, c)|
  {
    if ts != [] { BetweenAtMostFresh(ts[1..], a, c); }
  }

  lemma {:induction false} SpecWindowBound(limit: int, qs: seq<Request>, key: string, a: real)
    requires limit > 0 && Monotone(qs)
    ensures |Between(Admitted(qs, Spec(limit, qs), key), a)| <= limit
  {
    if qs != [] {
      var n := |qs| - 1;
      var ans := Spec(limit, qs[..n]);
      assert Spec(limit, qs)[..n] == ans;
      SpecWindowBound(limit, qs[..n], key, a);
      var before := Admitted(qs[..n], ans, key);
      if Spec(limit, qs)[n] && qs[n].key == key {
        BetweenAppend(before, [qs[n].now], a);
        if a < qs[n].now <= a + WINDOW {
          BetweenAtMostFresh(before, a, qs[n].now - WINDOW);
        }
      } else {
        assert before + [] == before;
      }
    }
  }

  /** Whatever the traffic, any window (a, a+60] holds at most `limit` admitted requests of a bucket. */
  lemma WindowBound(limit: int, qs: seq<Request>, key: string, a: real)
    requires limit > 0 && Monotone(qs)
    ensures |Between(Admitted(qs, Run(limit, qs).1, key), a)| <= limit
  {
    var clock := if qs == [] then 0.0 else qs[|qs| - 1].now;
    RunMatchesSpec(limit, qs, clock);
    SpecWindowBound(limit, qs, key, a);
  }

  // ---------- buckets do not interfere ----------

  function Project(qs: seq<Request>, key: string): seq<Request> {
    if qs == [] then []
    else
      var n := |qs| - 1;
      Project(qs[..n], key) + (if qs[n].key == key then [qs[n]] else [])
  }

  function ProjectAnswers(qs: seq<Request>, ans: seq<bool>, key: string): seq<bool>
    requires |qs| == |ans|
  {
    if qs == [] then []
    else
      var n := |qs| - 1;
      ProjectAnswers(qs[..n], ans[..n], key) + (if qs[n].key == key then [ans[n]] else [])
  }

  lemma {:induction false} ProjectFacts(qs: seq<Request>, ans: seq<bool>, key: string)
    requires |qs| == |ans|
    ensures |Project(qs, key)| == |ProjectAnswers(qs, ans, key)|
    ensures Admitted(Project(qs, key), ProjectAnswers(qs, ans, key), key) == Admitted(qs, ans, key)
  {
    if qs != [] {
      var n := |qs| - 1;
      ProjectFacts(qs[..n], ans[..n], key);
      var p, pa := Project(qs[..n], key), ProjectAnswers(qs[..n], ans[..n], key);
      if qs[n].key == key {
        assert (p + [qs[n]])[..|p|] == p && (pa + [ans[n]])[..|p|] == pa;
      } else {
        assert p + [] == p && pa + [] == pa;
      }
    }
  }

  lemma ProjectStep(p: seq<Request>, q: Request, ans: seq<bool>, ok: bool, key: string)
    requires |p| == |ans|
    ensures Project(p + [q], key) == if q.key == key then Project(p, key) + [q] else Project(p, key)
    ensures ProjectAnswers(p + [q], ans + [ok], key)
         == if q.key == key then ProjectAnswers(p, ans, key) + [ok] else ProjectAnswers(p, ans, key)
  {
    assert (p + [q])[..|p|] == p && (ans + [ok])[..|p|] == ans;
    assert Project(p, key) + [] == Project(p, key) && ProjectAnswers(p, ans, key) + [] == ProjectAnswers(p, ans, key);
  }

  lemma IsolatedStep(limit: int, p: seq<Request>, q: Request, key: string)
    requires Spec(limit, Project(p, key)) == ProjectAnswers(p, Spec(limit, p), key)
    ensures Spec(limit, Project(p + [q], key)) == ProjectAnswers(p + [q], Spec(limit, p + [q]), key)
  {
    SpecStep(limit, p, q);
    ProjectStep(p, q, Spec(limit, p), |Fresh(Admitted(p, Spec(limit, p), q.key), q.now - WINDOW)| < limit, key);
    ProjectFacts(p, Spec(limit, p), key);
    SpecStep(limit, Project(p, key), q);
  }

  /** The answers a bucket gets are those it would get if no other bucket existed. */
  lemma {:induction false} BucketsIsolated(limit: int, qs: seq<Request>, key: string)
    ensures Spec(limit, Project(qs, key)) == ProjectAnswers(qs, Spec(limit, qs), key)
  {
    if qs != [] {
      var n := |qs| - 1;
      BucketsIsolated(limit, qs[..n], key);
      IsolatedStep(limit, qs[..n], qs[n], key);
      assert qs[..n] + [qs[n]] == qs;
    }
  }

  // ---------- the middleware object ----------

  class RateLimiter {
    var store: map<string, seq<real>>
    var lastCleanup: real
    const limit: int
    /** Every counted request so far, and its answer. */
    ghost var requests: seq<Request>
    ghost var answers: seq<bool>

    ghost predicate Valid()
      reads this
    {
      (State(store, lastCleanup), answers) == Run(limit, requests)
    }

    constructor (limit: int)
      ensures Valid() && requests == [] && this.limit == limit
    {
      this.limit := limit;
      store, lastCleanup, requests, answers := map[], 0.0, [], [];
    }

    method DeleteStale(now: real)
      modifies this`store
      ensures store == DropStale(old(store), now)
    {
      var staleKeys := set k | k in store && Stale(store[k], now);
      ghost var all := staleKeys;
      while staleKeys != {}
        invariant staleKeys <= all
        invariant store == map k | k in old(store) && k !in all - staleKeys :: old(store)[k]
        decreases staleKeys
      {
        var k :| k in staleKeys;
        store := store - {k};
        staleKeys := staleKeys - {k};
      }
    }

    method Handle(q: Request) returns (admitted: bool)
      requires Valid()
      modifies this
      ensures Valid()
      ensures requests == old(requests) + [q] && answers == old(answers) + [admitted]
    {
      RunStep(limit, requests, q);
      admitted := Test(q);
      requests, answers := requests + [q], answers + [admitted];
    }

    method Test(q: Request) returns (admitted: bool)
      modifies this`store, this`lastCleanup
      ensures (State(store, lastCleanup), admitted) == Check(old(State(store, lastCleanup)), limit, q)
    {
      if limit <= 0 {
        return true;
      }
      if q.now - lastCleanup > CLEANUP_INTERVAL {
        lastCleanup := q.now;
        DeleteStale(q.now);
      }
      ghost var s1 := State(store, lastCleanup);
      assert s1 == Cleanup(old(State(store, lastCleanup)), q.now);
      var timestamps := Get(store, q.key);
      var kept := Fresh(timestamps, q.now - WINDOW);
      store := store[q.key := kept];
      if |kept| >= limit {
        admitted := false;
      } else {
        store := store[q.key := kept + [q.now]];
        assert store == s1.store[q.key := kept + [q.now]];
        admitted := true;
      }
    }
  }
}
