/** The cooldown map: a bounded ordered map from keys to the time they were last let through. The fast path asks
    whether a key may go now; the event bus asks the same question the other way round. */
module CooldownLru {
  import opened Common

  datatype Stamp = Stamp(key: string, at: real)

  datatype Call = Call(key: string, now: real)

  datatype Config = Config(ttl: real, max: nat)

  // ---------- ordered maps, oldest entry first ----------

  ghost predicate Distinct(keys: seq<string>) {
    forall i, j :: 0 <= i < j < |keys| ==> keys[i] != keys[j]
  }

  function KeysOf(es: seq<Stamp>): (r: seq<string>)
    ensures |r| == |es| && forall i :: 0 <= i < |r| ==> r[i] == es[i].key
  {
    seq(|es|, i requires 0 <= i < |es| => es[i].key)
  }

  /** The position of a key, or the length when it is absent. */
  function Find(keys: seq<string>, key: string): (p: nat)
    ensures p <= |keys|
    ensures p < |keys| ==> keys[p] == key
    ensures forall i :: 0 <= i < p ==> keys[i] != key
  {
    if keys == [] || keys[0] == key then 0 else 1 + Find(keys[1..], key)
  }

  function Cut<T>(s: seq<T>, p: nat): (r: seq<T>)
  {
    if p < |s| then s[..p] + s[p + 1..] else s
  }

  function Step(es: seq<Stamp>, c: Call, f: Config): (r: (seq<Stamp>, bool)) {
    var p := Find(KeysOf(es), c.key);
    if p < |es| && c.now - es[p].at < f.ttl
    then (Cut(es, p) + [es[p]], false)
    else (LastN(Cut(es, p) + [Stamp(c.key, c.now)], f.max), true)
  }

  function Cache(calls: seq<Call>, f: Config): seq<Stamp> {
    if calls == [] then [] else Step(Cache(calls[..|calls| - 1], f), calls[|calls| - 1], f).0
  }

  /** The answer to the last call of a run. */
  predicate Allowed(calls: seq<Call>, f: Config)
    requires calls != []
  {
    Step(Cache(calls[..|calls| - 1], f), calls[|calls| - 1], f).1
  }

  // ---------- the specification over the full history ----------

  function Touch(keys: seq<string>, key: string): seq<string> {
    Cut(keys, Find(keys, key)) + [key]
  }

  /** Every key ever asked about, in the order of its last call. */
  function Recency(calls: seq<Call>): seq<string> {
    if calls == [] then []
    else Touch(Recency(calls[..|calls| - 1]), calls[|calls| - 1].key)
  }

  function Answers(calls: seq<Call>, f: Config): (a: seq<bool>)
    ensures |a| == |calls|
  {
    if calls == [] then [] else Answers(calls[..|calls| - 1], f) + [Allowed(calls, f)]
  }

  /** The time of the last call of a key that was answered yes. */
  function LastYes(calls: seq<Call>, yes: seq<bool>, key: string): Option<real>
    requires |yes| == |calls|
  {
    if calls == [] then None
    else
      var n := |calls| - 1;
      if calls[n].key == key && yes[n] then Some(calls[n].now) else LastYes(calls[..n], yes[..n], key)
  }

  function LastAllowed(calls: seq<Call>, f: Config, key: string): Option<real> {
    LastYes(calls, Answers(calls, f), key)
  }

  lemma LastAllowedStep(calls: seq<Call>, f: Config, key: string)
    requires calls != []
    ensures LastAllowed(calls, f, key)
         == if calls[|calls| - 1].key == key && Allowed(calls, f) then Some(calls[|calls| - 1].now)
            else LastAllowed(calls[..|calls| - 1], f, key)
  {
    assert Answers(calls, f)[..|calls| - 1] == Answers(calls[..|calls| - 1], f);
  }

  lemma {:induction false} AnswerAt(calls: seq<Call>, f: Config, i: nat)
    requires i < |calls|
    ensures Answers(calls, f)[i] == Allowed(calls[..i + 1], f)
  {
    if i < |calls| - 1 {
      AnswerAt(calls[..|calls| - 1], f, i);
      assert calls[..|calls| - 1][..i + 1] == calls[..i + 1];
    } else {
      assert calls[..i + 1] == calls;
    }
  }

  lemma FindAt(keys: seq<string>, key: string, p: nat)
    requires Distinct(keys) && p < |keys| && keys[p] == key
    ensures Find(keys, key) == p
  {}

  lemma CutDistinct(keys: seq<string>, key: string)
    requires Distinct(keys)
    ensures Distinct(Cut(keys, Find(keys, key)) + [key])
  {
    var p := Find(keys, key);
    var r := Cut(keys, p);
    forall i | 0 <= i < |r|
      ensures r[i] != key
    {
      if p < |keys| && i >= p { assert r[i] == keys[i + 1]; }
    }
  }

  lemma {:induction false} RecencyDistinct(calls: seq<Call>)
    ensures Distinct(Recency(calls))
  {
    if calls != [] {
      RecencyDistinct(calls[..|calls| - 1]);
      CutDistinct(Recency(calls[..|calls| - 1]), calls[|calls| - 1].key);
    }
  }

  lemma SuffixIsLastN<T>(a: seq<T>, b: seq<T>, m: nat)
    requires |b| == m || (a == [] && |b| <= m)
    ensures LastN(a + b, m) == b
  {}

  lemma FindAbsent(keys: seq<string>, key: string)
    requires key !in keys
    ensures Find(keys, key) == |keys| && Touch(keys, key) == keys + [key]
  {}

  lemma CutSplits<T>(a: seq<T>, b: seq<T>, p: nat)
    requires p < |a| + |b|
    ensures Cut(a + b, p) == if p < |a| then Cut(a, p) + b else a + Cut(b, p - |a|)
  {}

  /** Moving a key to the end and keeping the last m commute. */
  lemma LastNMove(keys: seq<string>, key: string, m: nat)
    requires Distinct(keys)
    ensures LastN(Touch(LastN(keys, m), key), m) == LastN(Touch(keys, key), m)
  {
    var tail := LastN(keys, m);
    var head := keys[..|keys| - |tail|];
    assert keys == head + tail;
    if key in keys {
      MoveSplit(head, tail, key, Find(keys, key), m);
    } else {
      FindAbsent(keys, key);
      assert key !in tail;
      FindAbsent(tail, key);
      LastNAppend(keys, [key], m);
    }
  }

  lemma MoveSplit(head: seq<string>, tail: seq<string>, key: string, p: nat, m: nat)
    requires Distinct(head + tail) && p < |head + tail| && Find(head + tail, key) == p
    requires |tail| == m || (head == [] && |tail| <= m)
    ensures LastN(Touch(tail, key), m) == LastN(Touch(head + tail, key), m)
  {
    CutSplits(head, tail, p);
    if |head| <= p {
      MoveInTail(head, tail, key, p - |head|, m);
    } else {
      MoveFromHead(head, tail, key, p, m);
    }
  }

  lemma MoveInTail(head: seq<string>, tail: seq<string>, key: string, p: nat, m: nat)
    requires Distinct(head + tail) && p < |tail| && tail[p] == key
    requires |tail| == m || (head == [] && |tail| <= m)
    ensures LastN(Touch(tail, key), m) == LastN(head + Cut(tail, p) + [key], m)
  {
    assert Distinct(tail) by {
      forall i, j | 0 <= i < j < |tail| ensures tail[i] != tail[j] {
        assert (head + tail)[|head| + i] != (head + tail)[|head| + j];
      }
    }
    FindAt(tail, key, p);
    assert head + Cut(tail, p) + [key] == head + Touch(tail, key);
    SuffixIsLastN(head, Touch(tail, key), m);
  }

  lemma MoveFromHead(head: seq<string>, tail: seq<string>, key: string, p: nat, m: nat)
    requires Distinct(head + tail) && p < |head| && head[p] == key && |tail| == m
    ensures LastN(Touch(tail, key), m) == LastN(Cut(head, p) + tail + [key], m)
  {
    forall i | 0 <= i < |tail|
      ensures tail[i] != key
    {
      assert (head + tail)[p] != (head + tail)[|head| + i];
    }
    FindAbsent(tail, key);
    SuffixIsLastN(Cut(head, p), tail, m);
    LastNAppend(Cut(head, p) + tail, [key], m);
  }

  /** The cache holds exactly the `max` most recently asked keys, each with the time it was last let through. */
  ghost predicate Mirrors(es: seq<Stamp>, calls: seq<Call>, f: Config) {
    && KeysOf(es) == LastN(Recency(calls), f.max)
    && forall i :: 0 <= i < |es| ==> LastAllowed(calls, f, es[i].key) == Some(es[i].at)
  }

  /** A step moves the key to the end of the kept ones, and drops the oldest if it was not among them. */
  lemma StepKeys(es: seq<Stamp>, c: Call, f: Config)
    requires |es| <= f.max
    ensures KeysOf(Step(es, c, f).0) == LastN(Touch(KeysOf(es), c.key), f.max)
  {
    var p := Find(KeysOf(es), c.key);
    KeysCut(es, p, Stamp(c.key, c.now));
    if Step(es, c, f).1 {
      KeysLastN(Cut(es, p) + [Stamp(c.key, c.now)], f.max);
    } else {
      KeysCut(es, p, es[p]);
      assert |Touch(KeysOf(es), c.key)| == |es|;
    }
  }

  lemma KeysCut(es: seq<Stamp>, p: nat, e: Stamp)
    ensures KeysOf(Cut(es, p) + [e]) == Cut(KeysOf(es), p) + [e.key]
  {}

  lemma StepMirrors(calls: seq<Call>, f: Config)
    requires calls != [] && Mirrors(Cache(calls[..|calls| - 1], f), calls[..|calls| - 1], f)
    ensures KeysOf(Cache(calls, f)) == LastN(Recency(calls), f.max)
  {
    var n := |calls| - 1;
    RecencyDistinct(calls[..n]);
    StepKeys(Cache(calls[..n], f), calls[n], f);
    LastNMove(Recency(calls[..n]), calls[n].key, f.max);
  }

  lemma KeysLastN(es: seq<Stamp>, m: nat)
    ensures KeysOf(LastN(es, m)) == LastN(KeysOf(es), m)
  {}

  lemma {:induction false} CacheMirrors(calls: seq<Call>, f: Config)
    ensures Mirrors(Cache(calls, f), calls, f)
  {
    if calls != [] {
      var n := |calls| - 1;
      CacheMirrors(calls[..n], f);
      StepMirrors(calls, f);
      var es, c := Cache(calls[..n], f), calls[n];
      RecencyDistinct(calls);
      var next := Cache(calls, f);
      forall i | 0 <= i < |next|
        ensures LastAllowed(calls, f, next[i].key) == Some(next[i].at)
      {
        StampFrom(es, c, f, i);
        LastAllowedStep(calls, f, next[i].key);
        if next[i].key == c.key {
          LastIsNewest(calls, f, i);
        }
      }
    }
  }

  /** Each entry after a step is the new stamp, or one that was there before. */
  lemma StampFrom(es: seq<Stamp>, c: Call, f: Config, i: nat)
    requires i < |Step(es, c, f).0|
    ensures Step(es, c, f).0[i] in es || (Step(es, c, f).1 && Step(es, c, f).0[i] == Stamp(c.key, c.now))
  {
    var p := Find(KeysOf(es), c.key);
    var r := Step(es, c, f);
    var all := Cut(es, p) + [if r.1 then Stamp(c.key, c.now) else es[p]];
    assert r.0[i] == all[|all| - |r.0| + i];
    var j := |all| - |r.0| + i;
    if j < |Cut(es, p)| {
      assert all[j] == if j < p then es[j] else es[j + 1];
    }
  }

  /** The entry of the key just asked about is the last one. */
  lemma LastIsNewest(calls: seq<Call>, f: Config, i: nat)
    requires calls != [] && i < |Cache(calls, f)| && Cache(calls, f)[i].key == calls[|calls| - 1].key
    requires KeysOf(Cache(calls, f)) == LastN(Recency(calls), f.max) && Distinct(Recency(calls))
    ensures i == |Cache(calls, f)| - 1
    ensures Allowed(calls, f) ==> Cache(calls, f)[i].at == calls[|calls| - 1].now
  {
    LastOnly(Recency(calls), Cache(calls, f), f.max, i);
  }

  lemma LastOnly(keys: seq<string>, es: seq<Stamp>, m: nat, i: nat)
    requires keys != [] && Distinct(keys) && KeysOf(es) == LastN(keys, m)
    requires i < |es| && es[i].key == keys[|keys| - 1]
    ensures i == |es| - 1
  {
    assert KeysOf(es)[i] == keys[|keys| - |es| + i];
  }

  /** A call is refused exactly when its key is among the `max` most recently asked and was let through less than
      the cooldown ago. */
  lemma AnswerExact(calls: seq<Call>, f: Config)
    requires calls != []
    ensures var before, c := calls[..|calls| - 1], calls[|calls| - 1];
            var last := LastAllowed(before, f, c.key);
            !Allowed(calls, f) <==> c.key in LastN(Recency(before), f.max) && last.Some? && c.now - last.value < f.ttl
  {
    var before, c := calls[..|calls| - 1], calls[|calls| - 1];
    CacheMirrors(before, f);
    var es := Cache(before, f);
    var p := Find(KeysOf(es), c.key);
    if p < |es| {
      assert KeysOf(es)[p] == c.key;
    }
  }

  // ---------- when a key can be let through twice ----------

  /** The other keys asked about in calls[i..]. */
  function Others(calls: seq<Call>, i: nat, key: string): set<string>
  {
    set j: nat | i <= j < |calls| && calls[j].key != key :: calls[j].key
  }

  /** Whatever stands behind a key in the order was asked about after that key's call. */
  lemma {:induction false} NewerAreOthers(calls: seq<Call>, i: nat, p: nat, q: nat)
    requires i < |calls| && p < |Recency(calls)| && Recency(calls)[p] == calls[i].key && p < q < |Recency(calls)|
    ensures Recency(calls)[q] in Others(calls, i + 1, calls[i].key)
  {
    var n := |calls| - 1;
    NotTheNewest(calls, i, p);
    if q < |Recency(calls)| - 1 {
      var p0 := BeforeTouch(Recency(calls[..n]), calls[n].key, p);
      var q0 := BeforeTouch(Recency(calls[..n]), calls[n].key, q);
      NewerAreOthers(calls[..n], i, p0, q0);
      OthersGrow(calls, i + 1, calls[i].key, Recency(calls)[q]);
    }
  }

  /** A key that is not last in the order is not the one just asked about. */
  lemma NotTheNewest(calls: seq<Call>, i: nat, p: nat)
    requires i < |calls| && p < |Recency(calls)| - 1 && Recency(calls)[p] == calls[i].key
    ensures i < |calls| - 1 && calls[|calls| - 1].key != calls[i].key
    ensures Recency(calls)[|Recency(calls)| - 1] == calls[|calls| - 1].key
  {
    RecencyDistinct(calls);
    assert Recency(calls)[|Recency(calls)| - 1] == calls[|calls| - 1].key;
  }

  /** Where a key other than the one just asked about stood before the call; the order of such keys is kept. */
  function BeforeTouch(keys: seq<string>, key: string, p: nat): (p0: nat)
    requires p < |Touch(keys, key)| - 1
    ensures p0 < |keys| && keys[p0] == Touch(keys, key)[p]
    ensures p0 == if p < Find(keys, key) then p else p + 1
  {
    if p < Find(keys, key) then p else p + 1
  }

  lemma OthersGrow(calls: seq<Call>, i: nat, key: string, k: string)
    requires calls != [] && k in Others(calls[..|calls| - 1], i, key)
    ensures k in Others(calls, i, key)
  {
    var before := calls[..|calls| - 1];
    var j: nat :| i <= j < |before| && before[j].key != key && before[j].key == k;
    assert calls[j].key == k;
  }

  lemma TouchMembers(keys: seq<string>, key: string, k: string)
    requires k in keys || k == key
    ensures k in Touch(keys, key)
  {
    var p := Find(keys, key);
    var r := Touch(keys, key);
    if k == key {
      assert r[|r| - 1] == k;
    } else {
      var q: nat :| q < |keys| && keys[q] == k;
      assert r[if q < p then q else q - 1] == k;
    }
  }

  lemma {:induction false} AskedIsRecent(calls: seq<Call>, i: nat)
    requires i < |calls|
    ensures calls[i].key in Recency(calls)
  {
    var n := |calls| - 1;
    if i < n {
      AskedIsRecent(calls[..n], i);
    }
    TouchMembers(Recency(calls[..n]), calls[n].key, calls[i].key);
  }

  /** A distinct sequence inside a set is no longer than the set. */
  lemma {:induction false} DistinctFits(keys: seq<string>, s: set<string>)
    requires Distinct(keys) && forall i :: 0 <= i < |keys| ==> keys[i] in s
    ensures |keys| <= |s|
  {
    if keys != [] {
      var n := |keys| - 1;
      forall i | 0 <= i < n
        ensures keys[..n][i] in s - {keys[n]}
      {
        assert keys[i] != keys[n];
      }
      DistinctFits(keys[..n], s - {keys[n]});
    }
  }

  /** At most as many keys stand behind a key as others were asked about since its call. */
  lemma BehindBound(calls: seq<Call>, i: nat) returns (p: nat)
    requires i < |calls|
    ensures p < |Recency(calls)| && Recency(calls)[p] == calls[i].key
    ensures |Recency(calls)| - 1 - p <= |Others(calls, i + 1, calls[i].key)|
  {
    var keys := Recency(calls);
    AskedIsRecent(calls, i);
    RecencyDistinct(calls);
    p := Find(keys, calls[i].key);
    var behind := keys[p + 1..];
    forall k | 0 <= k < |behind|
      ensures behind[k] in Others(calls, i + 1, calls[i].key)
    {
      NewerAreOthers(calls, i, p, p + 1 + k);
    }
    DistinctFits(behind, Others(calls, i + 1, calls[i].key));
  }

  lemma InTail(keys: seq<string>, p: nat, m: nat)
    requires p < |keys| && |keys| - p <= m
    ensures keys[p] in LastN(keys, m)
  {
    var tail := LastN(keys, m);
    assert tail[p - (|keys| - |tail|)] == keys[p];
  }

  /** A key asked about at call i is still among the last `max` unless `max` other keys were asked about since. */
  lemma StaysRecent(calls: seq<Call>, i: nat, m: nat)
    requires i < |calls| && |Others(calls, i + 1, calls[i].key)| < m
    ensures calls[i].key in LastN(Recency(calls), m)
  {
    var p := BehindBound(calls, i);
    InTail(Recency(calls), p, m);
  }

  ghost predicate Monotone(calls: seq<Call>) {
    forall i, j :: 0 <= i <= j < |calls| ==> calls[i].now <= calls[j].now
  }

  lemma {:induction false} LastYesAfter(calls: seq<Call>, yes: seq<bool>, i: nat)
    requires |yes| == |calls| && i < |calls| && yes[i] && Monotone(calls)
    ensures LastYes(calls, yes, calls[i].key).Some? && LastYes(calls, yes, calls[i].key).value >= calls[i].now
  {
    var n := |calls| - 1;
    if i < n {
      LastYesAfter(calls[..n], yes[..n], i);
    }
  }

  /** While fewer than `max` other keys were asked about since some call of a key, its next answer depends on the
      time since it was last let through alone. No clock assumption is needed. */
  lemma AnswerByTime(calls: seq<Call>, f: Config, i: nat, at: real)
    requires i + 1 < |calls| && calls[i].key == calls[|calls| - 1].key
    requires LastAllowed(calls[..|calls| - 1], f, calls[i].key) == Some(at)
    requires |Others(calls[..|calls| - 1], i + 1, calls[i].key)| < f.max
    ensures Allowed(calls, f) <==> calls[|calls| - 1].now - at >= f.ttl
  {
    AnswerExact(calls, f);
    StaysRecent(calls[..|calls| - 1], i, f.max);
  }

  lemma PassedBefore(calls: seq<Call>, f: Config, i: nat) returns (at: real)
    requires i + 1 < |calls| && Allowed(calls[..i + 1], f) && Monotone(calls)
    ensures LastAllowed(calls[..|calls| - 1], f, calls[i].key) == Some(at) && at >= calls[i].now
  {
    var before := calls[..|calls| - 1];
    assert before[..i + 1] == calls[..i + 1];
    AnswerAt(before, f, i);
    LastYesAfter(before, Answers(before, f), i);
    at := LastAllowed(before, f, calls[i].key).value;
  }

  /** On a clock that does not run backwards, a key is let through twice within the cooldown only if at least `max`
      other keys were asked about in between. */
  lemma CooldownHolds(calls: seq<Call>, f: Config, i: nat)
    requires Monotone(calls) && i + 1 < |calls| && calls[i].key == calls[|calls| - 1].key
    requires Allowed(calls[..i + 1], f) && Allowed(calls, f)
    ensures calls[|calls| - 1].now - calls[i].now >= f.ttl
         || |Others(calls[..|calls| - 1], i + 1, calls[i].key)| >= f.max
  {
    var at := PassedBefore(calls, f, i);
    if |Others(calls[..|calls| - 1], i + 1, calls[i].key)| < f.max {
      AnswerByTime(calls, f, i, at);
    }
  }

  // ---------- the map itself ----------

  class CooldownMap {
    const config: Config
    var entries: seq<Stamp>

    constructor (config: Config)
      ensures this.config == config && entries == []
    {
      this.config := config;
      entries := [];
    }

    method MoveToEnd(p: nat)
      requires p < |entries|
      modifies this
      ensures entries == Cut(old(entries), p) + [old(entries)[p]]
    {
      entries := entries[..p] + entries[p + 1..] + [entries[p]];
    }

    /** Insert or overwrite a key, put it last, then drop the oldest entries beyond the maximum. */
    method Put(key: string, now: real)
      modifies this
      ensures entries == LastN(Cut(old(entries), Find(KeysOf(old(entries)), key)) + [Stamp(key, now)], config.max)
    {
      var p := Find(KeysOf(entries), key);
      if p < |entries| {
        entries := entries[p := Stamp(key, now)];
        MoveToEnd(p);
      } else {
        entries := entries + [Stamp(key, now)];
      }
      assert entries == Cut(old(entries), p) + [Stamp(key, now)];
      EvictOldest();
    }

    method EvictOldest()
      modifies this
      ensures entries == LastN(old(entries), config.max)
    {
      ghost var full := entries;
      while |entries| > config.max
        invariant |entries| >= Min(|full|, config.max) && |entries| <= |full|
        invariant entries == full[|full| - |entries|..]
      {
        entries := entries[1..];
      }
    }

    method FastpathAllow(key: string, now: real) returns (ok: bool)
      modifies this
      ensures (entries, ok) == Step(old(entries), Call(key, now), config)
    {
      var p := Find(KeysOf(entries), key);
      if p < |entries| && now - entries[p].at < config.ttl {
        MoveToEnd(p);
        return false;
      }
      Put(key, now);
      return true;
    }

    method RedisRecentlySeen(key: string, now: real) returns (seen: bool)
      modifies this
      ensures (entries, !seen) == Step(old(entries), Call(key, now), config)
    {
      var p := Find(KeysOf(entries), key);
      if p < |entries| && now - entries[p].at < config.ttl {
        MoveToEnd(p);
        return true;
      }
      Put(key, now);
      return false;
    }
  }
}
