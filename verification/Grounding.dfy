/** Grounding verification of a claim against the events it cites: seven layers and one weighted score.
    Arithmetic is exact over the reals. Text work enters as facts: which addresses and severity a summary mentions,
    and whether the knowledge base matches the claim's type. */
module Grounding {
  import opened Common

  const TTL: real := 86400.0

  /** `severity` and `kind` are already in the letter case the layers compare in; blank fields are "". */
  datatype Event = Event(fields: seq<string>, src: string, dst: string, severity: string, kind: string,
                         ts: Option<real>)

  datatype Claim = Claim(ids: seq<int>, quotes: seq<string>, severity: string,
                         mentionedIps: seq<string>, mentionedSeverity: Option<string>, knowledgeMatch: bool)

  type Index = map<int, Event>

  // ---------- layer 1: do the ids exist ----------

  function Missing(ids: seq<int>, index: Index): (r: seq<int>)
    ensures |r| <= |ids|
  {
    if ids == [] then []
    else Missing(ids[..|ids| - 1], index) + (if ids[|ids| - 1] in index then [] else [ids[|ids| - 1]])
  }

  function Referenced(ids: seq<int>, index: Index): (r: seq<Event>)
    ensures |r| + |Missing(ids, index)| == |ids|
  {
    if ids == [] then []
    else Referenced(ids[..|ids| - 1], index) + (if ids[|ids| - 1] in index then [index[ids[|ids| - 1]]] else [])
  }

  // ---------- layer 2: do the quotes occur ----------

  predicate Contains(text: string, part: string) {
    part <= text || (text != "" && Contains(text[1..], part))
  }

  /** A blank quote counts as found; blank fields are never searched. */
  predicate Occurs(norm: string -> string, quote: string, events: seq<Event>) {
    norm(quote) == "" ||
    exists e, f :: e in events && f in e.fields && norm(f) != "" && Contains(norm(f), norm(quote))
  }

  /** The text part stands in text at position i. */
  predicate StandsAt(text: string, part: string, i: nat) {
    i + |part| <= |text| && text[i..i + |part|] == part
  }

  /** A cited event has a field in which the quote stands. */
  ghost predicate Stands(norm: string -> string, quote: string, events: seq<Event>) {
    exists e, f, i: nat :: e in events && f in e.fields && norm(f) != "" && StandsAt(norm(f), norm(quote), i)
  }

  lemma {:induction false} ContainsIff(text: string, part: string)
    ensures Contains(text, part) <==> exists i: nat :: StandsAt(text, part, i)
  {
    if part <= text { assert StandsAt(text, part, 0); }
    if text != "" {
      ContainsIff(text[1..], part);
      if i: nat :| StandsAt(text[1..], part, i) {
        assert text[1..][i..i + |part|] == text[i + 1..i + 1 + |part|];
        assert StandsAt(text, part, i + 1);
      }
      if i: nat :| StandsAt(text, part, i) {
        if i > 0 {
          assert text[1..][i - 1..i - 1 + |part|] == text[i..i + |part|];
          assert StandsAt(text[1..], part, i - 1);
        } else {
          assert part == text[..|part|];
        }
      }
    }
  }

  /** A quote that is not blank is found exactly when it stands somewhere in a field of a cited event. */
  lemma OccursIff(norm: string -> string, quote: string, events: seq<Event>)
    ensures Occurs(norm, quote, events) <==> norm(quote) == "" || Stands(norm, quote, events)
  {
    if norm(quote) != "" {
      if Occurs(norm, quote, events) {
        var e, f :| e in events && f in e.fields && norm(f) != "" && Contains(norm(f), norm(quote));
        ContainsIff(norm(f), norm(quote));
        var i: nat :| StandsAt(norm(f), norm(quote), i);
        assert e in events && f in e.fields && norm(f) != "" && StandsAt(norm(f), norm(quote), i);
      }
      if Stands(norm, quote, events) {
        var e, f, i: nat :| e in events && f in e.fields && norm(f) != "" && StandsAt(norm(f), norm(quote), i);
        ContainsIff(norm(f), norm(quote));
      }
    }
  }

  function Found(norm: string -> string, quotes: seq<string>, events: seq<Event>): (n: nat)
    ensures n <= |quotes|
  {
    if quotes == [] then 0
    else Found(norm, quotes[..|quotes| - 1], events) + (if Occurs(norm, quotes[|quotes| - 1], events) then 1 else 0)
  }

  function Ratio(a: nat, b: nat): (r: real)
    requires b > 0
    ensures a <= b ==> 0.0 <= r <= 1.0
  {
    a as real / b as real
  }

  function GroundingRatio(norm: string -> string, quotes: seq<string>, events: seq<Event>): (r: real)
    ensures 0.0 <= r <= 1.0
  {
    if quotes == [] then 1.0
    else if events == [] then 0.0
    else Ratio(Found(norm, quotes, events), |quotes|)
  }

  // ---------- layer 3: addresses and severity ----------

  function Verified(ips: seq<string>, events: seq<Event>): (r: seq<string>)
    ensures |r| <= |ips|
  {
    if ips == [] then []
    else
      var ip := ips[|ips| - 1];
      Verified(ips[..|ips| - 1], events) +
        (if ip != "" && exists e :: e in events && (e.src == ip || e.dst == ip) then [ip] else [])
  }

  function Level(s: string): int {
    if s == "critical" then 4 else if s == "high" then 3 else if s == "medium" then 2
    else if s == "low" then 1 else if s == "info" then 0 else -1
  }

  predicate SeverityConsistent(c: Claim, events: seq<Event>) {
    match c.mentionedSeverity
    case None => true
    case Some(s) =>
      if events == [] then c.severity == s
      else exists e :: e in events && e.severity != "" && (e.severity == s || Level(e.severity) >= Level(s) >= 0)
  }

  function EntityScore(c: Claim, events: seq<Event>): (r: real)
    ensures 0.0 <= r <= 1.0
  {
    var ipRatio := if c.mentionedIps == [] then 1.0 else Ratio(|Verified(c.mentionedIps, events)|, |c.mentionedIps|);
    var severity := if SeverityConsistent(c, events) then 1.0 else 0.0;
    if c.mentionedIps == [] && c.mentionedSeverity == None then 1.0
    else if c.mentionedSeverity == None then ipRatio
    else if c.mentionedIps == [] then severity
    else ipRatio * 0.6 + severity * 0.4
  }

  // ---------- layer 4: knowledge needs valid evidence beside it ----------

  predicate KnowledgeSupported(c: Claim, index: Index) {
    c.knowledgeMatch && c.ids != [] && Missing(c.ids, index) == []
  }

  // ---------- layer 5: freshness ----------

  predicate IsStale(id: int, index: Index, now: real) {
    id in index && index[id].ts.Some? && now - index[id].ts.value > TTL
  }

  function Stale(ids: seq<int>, index: Index, now: real): (n: nat)
    ensures n <= |ids|
  {
    if ids == [] then 0
    else Stale(ids[..|ids| - 1], index, now) + (if IsStale(ids[|ids| - 1], index, now) then 1 else 0)
  }

  function Freshness(ids: seq<int>, index: Index, now: real): (r: real)
    ensures 0.0 <= r <= 1.0
  {
    if ids == [] then 1.0 else 1.0 - Ratio(Stale(ids, index, now), |ids|)
  }

  // ---------- layer 6: conflicts between events of one source ----------

  function OfSource(events: seq<Event>, ip: string): (r: seq<Event>)
    ensures |r| <= |events|
  {
    if events == [] then []
    else OfSource(events[..|events| - 1], ip) + (if events[|events| - 1].src == ip then [events[|events| - 1]] else [])
  }

  /** The non-blank sources in order of their first event. */
  function Sources(events: seq<Event>): seq<string> {
    if events == [] then []
    else
      var before, ip := Sources(events[..|events| - 1]), events[|events| - 1].src;
      if ip == "" || ip in before then before else before + [ip]
  }

  predicate SomeSeverity(es: seq<Event>, s: string) { exists e :: e in es && e.severity == s }

  predicate SomeKind(es: seq<Event>, kinds: set<string>) { exists e :: e in es && e.kind in kinds }

  const LOGINS: set<string> := {"USER_LOGIN", "SUSPICIOUS_LOGIN"}
  const ATTACKS: set<string> := {"BRUTE_FORCE", "PORT_SCAN", "C2_BEACON"}

  function Bit(b: bool): nat { if b then 1 else 0 }

  function ConflictsOf(es: seq<Event>): (n: nat)
    ensures n <= 2
  {
    if |es| < 2 then 0
    else
      Bit(SomeSeverity(es, "info") && (SomeSeverity(es, "critical") || SomeSeverity(es, "high"))) +
      Bit(SomeKind(es, LOGINS) && SomeKind(es, ATTACKS))
  }

  function PairsOf(n: nat): (p: nat)
    ensures n >= 2 ==> p >= 1
    ensures n >= 3 ==> p >= 2
  {
    if n == 0 then 0 else PairsOf(n - 1) + (n - 1)
  }

  /** The code writes the number of pairs as n * (n - 1) // 2. */
  lemma {:induction false} PairsFormula(n: nat)
    ensures PairsOf(n) == n * (n - 1) / 2
  {
    if n > 0 {
      PairsFormula(n - 1);
      assert n * (n - 1) == (n - 1) * (n - 2) + 2 * (n - 1);
    }
  }

  function Conflicts(events: seq<Event>, ips: seq<string>): nat {
    if ips == [] then 0 else Conflicts(events, ips[..|ips| - 1]) + ConflictsOf(OfSource(events, ips[|ips| - 1]))
  }

  function Pairs(events: seq<Event>, ips: seq<string>): nat {
    if ips == [] then 0 else Pairs(events, ips[..|ips| - 1]) + PairsOf(|OfSource(events, ips[|ips| - 1])|)
  }

  function RealMax(a: real, b: real): real { if a >= b then a else b }

  function RealMin(a: real, b: real): real { if a <= b then a else b }

  function RawConsistency(events: seq<Event>): real {
    if |events| < 2 then 1.0
    else 1.0 - Conflicts(events, Sources(events)) as real / Max(Pairs(events, Sources(events)), 1) as real
  }

  function SourceConsistency(events: seq<Event>): (r: real)
    ensures 0.0 <= r <= 1.0
  {
    var p: nat := Max(Pairs(events, Sources(events)), 1);
    assert Conflicts(events, Sources(events)) as real / p as real >= 0.0;
    RealMax(RawConsistency(events), 0.0)
  }

  // ---------- layer 7: order in time and jumps between ids ----------

  function Times(ids: seq<int>, index: Index): (r: seq<real>)
    ensures |r| <= |ids|
  {
    if ids == [] then []
    else
      var id := ids[|ids| - 1];
      Times(ids[..|ids| - 1], index) + (if id in index && index[id].ts.Some? then [index[id].ts.value] else [])
  }

  function Reversals(ts: seq<real>): (n: nat)
    ensures n <= Max(|ts| - 1, 0)
  {
    if |ts| < 2 then 0 else Reversals(ts[..|ts| - 1]) + Bit(ts[|ts| - 1] < ts[|ts| - 2])
  }

  predicate Jump(a: int, b: int) { b - a > 100 || a - b > 100 }

  function Jumps(ids: seq<int>): (n: nat)
    ensures n <= Max(|ids| - 1, 0)
  {
    if |ids| < 2 then 0 else Jumps(ids[..|ids| - 1]) + Bit(Jump(ids[|ids| - 2], ids[|ids| - 1]))
  }

  function Breaks(ids: seq<int>, index: Index): (n: nat)
    ensures |ids| >= 2 ==> n <= 2 * (|ids| - 1)
  {
    if |ids| < 2 then 0 else Reversals(Times(ids, index)) + Jumps(ids)
  }

  /** Before its clamp: at most two breaks per neighbouring pair, so it is never negative. */
  function RawIntegrity(ids: seq<int>, index: Index): (r: real)
    ensures 0.0 <= r <= 1.0
  {
    if |ids| < 2 then 1.0 else 1.0 - Ratio(Breaks(ids, index), Max(|ids| - 1, 1) * 2)
  }

  function ChainIntegrity(ids: seq<int>, index: Index): real { RealMax(RawIntegrity(ids, index), 0.0) }

  // ---------- what the layers count ----------

  /** Ids without an event, events of the others, and ids whose event is more than a day old. */
  lemma {:induction false} CitedAre(ids: seq<int>, index: Index, now: real)
    ensures Missing(ids, index) == Filter(ids, id => id !in index)
    ensures |Referenced(ids, index)| == |Filter(ids, id => id in index)|
    ensures forall e :: e in Referenced(ids, index) <==> exists id :: id in ids && id in index && index[id] == e
    ensures Stale(ids, index, now)
         == |Filter(ids, id => id in index && index[id].ts.Some? && now - index[id].ts.value > 86400.0)|
  {
    if ids != [] {
      CitedAre(ids[..|ids| - 1], index, now);
      assert ids == ids[..|ids| - 1] + [ids[|ids| - 1]];
    }
  }

  lemma {:induction false} FoundIs(norm: string -> string, quotes: seq<string>, events: seq<Event>)
    ensures Found(norm, quotes, events) == |Filter(quotes, q => Occurs(norm, q, events))|
  {
    if quotes != [] { FoundIs(norm, quotes[..|quotes| - 1], events); }
  }

  lemma {:induction false} VerifiedIs(ips: seq<string>, events: seq<Event>)
    ensures Verified(ips, events)
         == Filter(ips, ip => ip != "" && exists e :: e in events && (e.src == ip || e.dst == ip))
  {
    if ips != [] { VerifiedIs(ips[..|ips| - 1], events); }
  }

  /** A summary that names nothing is consistent; otherwise addresses count three fifths and the severity two, or
      whichever of the two is named counts alone. */
  lemma EntityScoreIs(c: Claim, events: seq<Event>)
    ensures var share := if c.mentionedIps == [] then 1.0
                         else |Verified(c.mentionedIps, events)| as real / |c.mentionedIps| as real;
            var severity := if SeverityConsistent(c, events) then 1.0 else 0.0;
            EntityScore(c, events)
            == if c.mentionedSeverity == None then share
               else if c.mentionedIps == [] then severity else share * 0.6 + severity * 0.4
  {}

  const LEVELS: seq<string> := ["info", "low", "medium", "high", "critical"]

  /** A named severity is borne out by a cited event of the same severity or of a higher level; with no event left, by
      the claim's own. */
  lemma SeverityConsistentIff(c: Claim, events: seq<Event>, k: nat)
    requires k < |LEVELS| && c.mentionedSeverity == Some(LEVELS[k])
    ensures SeverityConsistent(c, events) <==>
            if events == [] then c.severity == LEVELS[k]
            else exists e, m: nat :: e in events && k <= m < |LEVELS| && e.severity == LEVELS[m]
  {
    assert forall m: nat :: m < |LEVELS| ==> Level(LEVELS[m]) == m && LEVELS[m] != "";
    assert forall s :: Level(s) >= 0 ==> s == LEVELS[Level(s)];
    if events != [] && SeverityConsistent(c, events) {
      var e :| e in events && e.severity != "" && (e.severity == LEVELS[k] || Level(e.severity) >= k);
      assert e in events && e.severity == LEVELS[Level(e.severity)];
    }
  }

  /** Two events of one source conflict when one is informational and one severe, or one is a login and one an attack;
      each kind of conflict counts once. */
  lemma ConflictsOfIs(es: seq<Event>)
    ensures var severities := exists i, j :: 0 <= i < |es| && 0 <= j < |es| && es[i].severity == "info"
                                && (es[j].severity == "critical" || es[j].severity == "high");
            var kinds := exists i, j :: 0 <= i < |es| && 0 <= j < |es| && es[i].kind in LOGINS && es[j].kind in ATTACKS;
            ConflictsOf(es) == (if severities then 1 else 0) + (if kinds then 1 else 0)
  {
    TwoOf(es);
  }

  lemma TwoOf(es: seq<Event>)
    ensures (SomeSeverity(es, "info") && (SomeSeverity(es, "critical") || SomeSeverity(es, "high"))) <==>
            exists i, j :: 0 <= i < |es| && 0 <= j < |es| && es[i].severity == "info"
              && (es[j].severity == "critical" || es[j].severity == "high")
    ensures (SomeKind(es, LOGINS) && SomeKind(es, ATTACKS)) <==>
            exists i, j :: 0 <= i < |es| && 0 <= j < |es| && es[i].kind in LOGINS && es[j].kind in ATTACKS
    ensures |es| < 2 ==> !(SomeSeverity(es, "info") && (SomeSeverity(es, "critical") || SomeSeverity(es, "high")))
    ensures |es| < 2 ==> !(SomeKind(es, LOGINS) && SomeKind(es, ATTACKS))
  {
  }

  predicate Earlier(ts: seq<real>, j: int) { 0 < j < |ts| && ts[j] < ts[j - 1] }

  predicate Far(ids: seq<int>, j: int) { 0 < j < |ids| && !(-100 <= ids[j] - ids[j - 1] <= 100) }

  lemma EarlierStep(ts: seq<real>, k: nat)
    requires 2 <= k <= |ts|
    ensures Reversals(ts[..k]) == Reversals(ts[..k - 1]) + Bit(Earlier(ts, k - 1))
  {
    assert ts[..k][..k - 1] == ts[..k - 1];
  }

  lemma EarlierSet(ts: seq<real>, k: nat)
    requires 2 <= k
    ensures |set j | 0 < j < k && Earlier(ts, j)| == |set j | 0 < j < k - 1 && Earlier(ts, j)| + Bit(Earlier(ts, k - 1))
  {
    var all, before := set j | 0 < j < k && Earlier(ts, j), set j | 0 < j < k - 1 && Earlier(ts, j);
    assert all == if Earlier(ts, k - 1) then before + {k - 1} else before;
  }

  lemma {:induction false} ReversalsUpTo(ts: seq<real>, k: nat)
    requires k <= |ts|
    ensures Reversals(ts[..k]) == |set j | 0 < j < k && Earlier(ts, j)|
  {
    if k < 2 {
      assert (set j | 0 < j < k && Earlier(ts, j)) == {};
    } else {
      ReversalsUpTo(ts, k - 1);
      EarlierStep(ts, k);
      EarlierSet(ts, k);
    }
  }

  lemma FarStep(ids: seq<int>, k: nat)
    requires 2 <= k <= |ids|
    ensures Jumps(ids[..k]) == Jumps(ids[..k - 1]) + Bit(Far(ids, k - 1))
  {
    assert ids[..k][..k - 1] == ids[..k - 1];
  }

  lemma FarSet(ids: seq<int>, k: nat)
    requires 2 <= k
    ensures |set j | 0 < j < k && Far(ids, j)| == |set j | 0 < j < k - 1 && Far(ids, j)| + Bit(Far(ids, k - 1))
  {
    var all, before := set j | 0 < j < k && Far(ids, j), set j | 0 < j < k - 1 && Far(ids, j);
    assert all == if Far(ids, k - 1) then before + {k - 1} else before;
  }

  lemma {:induction false} JumpsUpTo(ids: seq<int>, k: nat)
    requires k <= |ids|
    ensures Jumps(ids[..k]) == |set j | 0 < j < k && Far(ids, j)|
  {
    if k < 2 {
      assert (set j | 0 < j < k && Far(ids, j)) == {};
    } else {
      JumpsUpTo(ids, k - 1);
      FarStep(ids, k);
      FarSet(ids, k);
    }
  }

  /** How often a known time is earlier than the one cited before it, and how often the next id is over 100 away. */
  lemma BreaksAre(ids: seq<int>, index: Index)
    requires |ids| >= 2
    ensures var ts := Times(ids, index);
            Breaks(ids, index) == |set j | 0 < j < |ts| && Earlier(ts, j)| + |set j | 0 < j < |ids| && Far(ids, j)|
  {
    var ts := Times(ids, index);
    ReversalsUpTo(ts, |ts|);
    JumpsUpTo(ids, |ids|);
    assert ts[..|ts|] == ts && ids[..|ids|] == ids;
  }

  /** The known times in the order cited. */
  lemma {:induction false} TimesAre(ids: seq<int>, index: Index)
    ensures var known := Filter(ids, id => id in index && index[id].ts.Some?);
            |Times(ids, index)| == |known|
            && forall k :: 0 <= k < |known| ==>
                 known[k] in index && index[known[k]].ts == Some(Times(ids, index)[k])
  {
    if ids != [] { TimesAre(ids[..|ids| - 1], index); }
  }

  // ---------- the score ----------

  datatype Layers = Layers(idValidity: real, grounding: real, entity: real, knowledge: real,
                           freshness: real, source: real, chain: real)

  ghost predicate Unit(x: real) { 0.0 <= x <= 1.0 }

  ghost predicate AllUnit(l: Layers) {
    && Unit(l.idValidity) && Unit(l.grounding) && Unit(l.entity) && Unit(l.knowledge)
    && Unit(l.freshness) && Unit(l.source) && Unit(l.chain)
  }

  function LayersOf(norm: string -> string, c: Claim, index: Index, now: real): Layers {
    var events := Referenced(c.ids, index);
    Layers(if c.ids == [] then 1.0 else Ratio(|c.ids| - |Missing(c.ids, index)|, |c.ids|),
           GroundingRatio(norm, c.quotes, events),
           EntityScore(c, events),
           if KnowledgeSupported(c, index) then 1.0 else 0.0,
           Freshness(c.ids, index, now),
           SourceConsistency(events),
           ChainIntegrity(c.ids, index))
  }

  function Weighted(l: Layers): real {
    l.idValidity * 0.15 + l.grounding * 0.40 + l.entity * 0.15 + l.knowledge * 0.10 + l.freshness * 0.10
      + (l.source * 0.5 + l.chain * 0.5) * 0.10
  }

  /** Rounding to four digits, ties to the even one. */
  function Round4(x: real): real {
    var y := x * 10000.0;
    var f := y.Floor;
    var d := y - f as real;
    (if d < 0.5 || (d == 0.5 && f % 2 == 0) then f else f + 1) as real / 10000.0
  }

  datatype Verdict = Grounded | PartiallyGrounded | Ungrounded

  function Judge(score: real): Verdict {
    if score >= 0.8 then Grounded else if score >= 0.4 then PartiallyGrounded else Ungrounded
  }

  function Score(norm: string -> string, c: Claim, index: Index, now: real): real {
    Round4(RealMin(RealMax(Weighted(LayersOf(norm, c, index, now)), 0.0), 1.0))
  }

  /** The share each layer has in the score. */
  lemma WeightsAre(l: Layers, d: real)
    ensures Weighted(l.(idValidity := l.idValidity + d)) == Weighted(l) + 0.15 * d
    ensures Weighted(l.(grounding := l.grounding + d)) == Weighted(l) + 0.40 * d
    ensures Weighted(l.(entity := l.entity + d)) == Weighted(l) + 0.15 * d
    ensures Weighted(l.(knowledge := l.knowledge + d)) == Weighted(l) + 0.10 * d
    ensures Weighted(l.(freshness := l.freshness + d)) == Weighted(l) + 0.10 * d
    ensures Weighted(l.(source := l.source + d)) == Weighted(l) + 0.05 * d
    ensures Weighted(l.(chain := l.chain + d)) == Weighted(l) + 0.05 * d
    ensures Weighted(Layers(0.0, 0.0, 0.0, 0.0, 0.0, 0.0, 0.0)) == 0.0
  {}

  /** The share of the cited ids that exist, and of those that are fresh. */
  lemma IdLayersAre(norm: string -> string, c: Claim, index: Index, now: real)
    ensures var l, n := LayersOf(norm, c, index, now), |c.ids|;
            && l.idValidity == (if n == 0 then 1.0 else |Filter(c.ids, id => id in index)| as real / n as real)
            && l.freshness == (if n == 0 then 1.0 else 1.0 - Stale(c.ids, index, now) as real / n as real)
  {
    CitedAre(c.ids, index, now);
  }

  lemma {:induction false} NoneMissingIff(ids: seq<int>, index: Index)
    ensures Missing(ids, index) == [] <==> forall i :: 0 <= i < |ids| ==> ids[i] in index
  {
    if ids != [] { NoneMissingIff(ids[..|ids| - 1], index); }
  }

  /** Knowledge counts only beside cited events that all exist. */
  lemma KnowledgeLayerIs(norm: string -> string, c: Claim, index: Index, now: real)
    ensures LayersOf(norm, c, index, now).knowledge
         == if c.knowledgeMatch && c.ids != [] && (forall i :: 0 <= i < |c.ids| ==> c.ids[i] in index) then 1.0 else 0.0
  {
    NoneMissingIff(c.ids, index);
    assert LayersOf(norm, c, index, now).knowledge == if KnowledgeSupported(c, index) then 1.0 else 0.0;
  }

  lemma LayersAreUnit(norm: string -> string, c: Claim, index: Index, now: real)
    ensures AllUnit(LayersOf(norm, c, index, now))
  {}

  lemma WeightedUnit(l: Layers)
    requires AllUnit(l)
    ensures Unit(Weighted(l))
    ensures Weighted(l) <= 0.60 + l.grounding * 0.40
  {}

  /** Rounding moves a value by at most half a unit of the last digit. */
  lemma Round4Near(x: real)
    ensures x - 0.00005 <= Round4(x) <= x + 0.00005
  {}

  lemma Round4Unit(x: real)
    requires Unit(x)
    ensures Unit(Round4(x))
  {
    var y := x * 10000.0;
    if y.Floor >= 10000 { assert y == 10000.0; }
  }

  /** Every layer lies between 0 and 1, so the final clamp never changes the score, and neither does the one on the
      chain layer. */
  lemma ClampsNeverBind(norm: string -> string, c: Claim, index: Index, now: real)
    ensures Score(norm, c, index, now) == Round4(Weighted(LayersOf(norm, c, index, now)))
    ensures ChainIntegrity(c.ids, index) == RawIntegrity(c.ids, index)
    ensures Unit(Score(norm, c, index, now))
  {
    LayersAreUnit(norm, c, index, now);
    WeightedUnit(LayersOf(norm, c, index, now));
    Round4Unit(Weighted(LayersOf(norm, c, index, now)));
  }

  lemma {:induction false} AllMissingFacts(ids: seq<int>, index: Index, now: real)
    requires forall i :: 0 <= i < |ids| ==> ids[i] !in index
    ensures |Missing(ids, index)| == |ids| && Referenced(ids, index) == [] && Stale(ids, index, now) == 0
    ensures Times(ids, index) == []
  {
    if ids != [] { AllMissingFacts(ids[..|ids| - 1], index, now); }
  }

  lemma FabricatedLayers(norm: string -> string, c: Claim, index: Index, now: real)
    requires c.quotes != [] && c.ids != [] && forall i :: 0 <= i < |c.ids| ==> c.ids[i] !in index
    ensures var l := LayersOf(norm, c, index, now); l.idValidity == 0.0 && l.grounding == 0.0 && l.knowledge == 0.0
  {
    AllMissingFacts(c.ids, index, now);
  }

  lemma WeightedWithoutEvidence(l: Layers)
    requires AllUnit(l) && l.idValidity == 0.0 && l.grounding == 0.0 && l.knowledge == 0.0
    ensures Weighted(l) <= 0.35
  {}

  /** A claim that quotes something and cites only events that do not exist scores at most 0.35 and is ungrounded,
      whatever its summary, its type and the knowledge base. */
  lemma FabricatedIsUngrounded(norm: string -> string, c: Claim, index: Index, now: real)
    requires c.quotes != [] && c.ids != [] && forall i :: 0 <= i < |c.ids| ==> c.ids[i] !in index
    ensures Score(norm, c, index, now) <= 0.35 && Judge(Score(norm, c, index, now)) == Ungrounded
  {
    var l := LayersOf(norm, c, index, now);
    FabricatedLayers(norm, c, index, now);
    LayersAreUnit(norm, c, index, now);
    WeightedWithoutEvidence(l);
    ClampsNeverBind(norm, c, index, now);
    Round4AtMost(Weighted(l));
  }

  lemma Round4AtMost(x: real)
    requires x <= 0.35
    ensures Round4(x) <= 0.35
  {
    var y := x * 10000.0;
    if y.Floor >= 3500 { assert y == 3500.0; }
  }

  /** The bound is reached: one missing id, one quote and a summary that names nothing. */
  lemma FabricatedBoundTight(norm: string -> string, quote: string, now: real)
    ensures Score(norm, Claim([1], [quote], "", [], None, true), map[], now) == 0.35
  {
    var c := Claim([1], [quote], "", [], None, true);
    var none: Index := map[];
    AllMissingFacts(c.ids, none, now);
    ClampsNeverBind(norm, c, none, now);
    var l := LayersOf(norm, c, none, now);
    assert l.freshness == 1.0 && l.source == 1.0 && l.chain == 1.0 && l.entity == 1.0;
    assert l.idValidity == 0.0 && l.grounding == 0.0 && l.knowledge == 0.0;
    assert Weighted(l) * 10000.0 == 3500.0;
  }

  /** A claim is grounded exactly when its weighted layers reach 0.8 up to the rounding, and likewise partially
      grounded at 0.4. */
  lemma VerdictIff(norm: string -> string, c: Claim, index: Index, now: real)
    ensures var w, v := Weighted(LayersOf(norm, c, index, now)), Judge(Score(norm, c, index, now));
            && (v == Grounded <==> w >= 0.79995) && (v == Ungrounded <==> w < 0.39995)
  {
    ClampsNeverBind(norm, c, index, now);
    RoundReaches(Weighted(LayersOf(norm, c, index, now)), 8000);
    RoundReaches(Weighted(LayersOf(norm, c, index, now)), 4000);
  }

  /** Rounding reaches an even value from half a unit below on. */
  lemma RoundReaches(x: real, k: int)
    requires k % 2 == 0
    ensures Round4(x) >= k as real / 10000.0 <==> x >= (k as real - 0.5) / 10000.0
  {
    var y := x * 10000.0;
    var f := y.Floor;
    var d := y - f as real;
    var n := if d < 0.5 || (d == 0.5 && f % 2 == 0) then f else f + 1;
    assert Round4(x) == n as real / 10000.0;
    RoundedAtLeast(y, f, n, k);
    assert n as real / 10000.0 >= k as real / 10000.0 <==> n >= k;
  }

  lemma RoundedAtLeast(y: real, f: int, n: int, k: int)
    requires k % 2 == 0 && f as real <= y < f as real + 1.0
    requires n == if y - f as real < 0.5 || (y - f as real == 0.5 && f % 2 == 0) then f else f + 1
    ensures n >= k <==> y >= k as real - 0.5
  {
    if f == k - 1 {
      assert f % 2 == 1;
    }
  }

  lemma {:induction false} NothingFound(norm: string -> string, quotes: seq<string>, events: seq<Event>)
    requires forall q :: q in quotes ==> norm(q) != "" && !Stands(norm, q, events)
    ensures Found(norm, quotes, events) == 0
  {
    if quotes != [] {
      var n := |quotes| - 1;
      NothingFound(norm, quotes[..n], events);
      assert quotes[n] in quotes;
      OccursIff(norm, quotes[n], events);
    }
  }

  /** The score is at most 0.6 and two fifths of the quote ratio, up to the rounding. */
  lemma RatioBoundsScore(norm: string -> string, c: Claim, index: Index, now: real)
    ensures Score(norm, c, index, now)
         <= 0.60005 + GroundingRatio(norm, c.quotes, Referenced(c.ids, index)) * 0.40
  {
    var l := LayersOf(norm, c, index, now);
    ClampsNeverBind(norm, c, index, now);
    LayersAreUnit(norm, c, index, now);
    WeightedUnit(l);
    Round4Near(Weighted(l));
  }

  lemma UnquotedRatio(norm: string -> string, quotes: seq<string>, events: seq<Event>)
    requires quotes != [] && forall q :: q in quotes ==> norm(q) != "" && !Stands(norm, q, events)
    ensures GroundingRatio(norm, quotes, events) == 0.0
  {
    NothingFound(norm, quotes, events);
  }

  /** None of the quotes stands in a cited event: the claim has a ratio of 0 and is never grounded, even when all it
      cites exists and everything else about it is in order. */
  lemma UnquotedNeverGrounded(norm: string -> string, c: Claim, index: Index, now: real)
    requires c.quotes != []
    requires forall q :: q in c.quotes ==> norm(q) != "" && !Stands(norm, q, Referenced(c.ids, index))
    ensures GroundingRatio(norm, c.quotes, Referenced(c.ids, index)) == 0.0
    ensures Score(norm, c, index, now) <= 0.60005 && Judge(Score(norm, c, index, now)) != Grounded
  {
    UnquotedRatio(norm, c.quotes, Referenced(c.ids, index));
    RatioBoundsScore(norm, c, index, now);
  }

  /** A grounded verdict needs about half of the quotes found; no other layer can make up for them. */
  lemma GroundedNeedsQuotes(norm: string -> string, c: Claim, index: Index, now: real)
    requires Judge(Score(norm, c, index, now)) == Grounded
    ensures GroundingRatio(norm, c.quotes, Referenced(c.ids, index)) >= 0.499875
  {
    ClampsNeverBind(norm, c, index, now);
    LayersAreUnit(norm, c, index, now);
    var l := LayersOf(norm, c, index, now);
    WeightedUnit(l);
    Round4Near(Weighted(l));
  }

  lemma Round4Monotone(x: real, y: real)
    requires x <= y
    ensures Round4(x) <= Round4(y)
  {
    var a, b := x * 10000.0, y * 10000.0;
    assert a.Floor <= b.Floor;
  }

  ghost predicate NoWorse(a: Layers, b: Layers) {
    && a.idValidity <= b.idValidity && a.grounding <= b.grounding && a.entity <= b.entity && a.knowledge <= b.knowledge
    && a.freshness <= b.freshness && a.source <= b.source && a.chain <= b.chain
  }

  /** A claim that does no worse in any layer never scores lower. */
  lemma ScoreMonotone(norm: string -> string, c: Claim, d: Claim, index: Index, now: real)
    requires NoWorse(LayersOf(norm, c, index, now), LayersOf(norm, d, index, now))
    ensures Score(norm, c, index, now) <= Score(norm, d, index, now)
  {
    ClampsNeverBind(norm, c, index, now);
    ClampsNeverBind(norm, d, index, now);
    Round4Monotone(Weighted(LayersOf(norm, c, index, now)), Weighted(LayersOf(norm, d, index, now)));
  }

  // ---------- the clamp that does bind ----------

  lemma QuotientBelow(n: nat, p: nat)
    requires p > 0
    ensures 1.0 - n as real / p as real < 0.0 <==> n > p
  {
    var q := n as real / p as real;
    assert q * p as real == n as real;
    if n > p {
      assert q > 1.0;
    } else {
      assert q <= 1.0;
    }
  }

  /** A source that conflicts has a pair of events. */
  lemma {:induction false} ConflictNeedsPair(events: seq<Event>, ips: seq<string>)
    ensures Conflicts(events, ips) > 0 ==> Pairs(events, ips) > 0 && |events| >= 2
  {
    if ips != [] {
      var n := |ips| - 1;
      ConflictNeedsPair(events, ips[..n]);
      assert |OfSource(events, ips[n])| <= |events|;
    }
  }

  /** The clamp on the source layer is needed exactly when the sources show more conflicts than pairs of events. */
  lemma SourceClampBindsIff(events: seq<Event>)
    ensures RawConsistency(events) < 0.0 <==> Conflicts(events, Sources(events)) > Pairs(events, Sources(events))
  {
    var n, p := Conflicts(events, Sources(events)), Pairs(events, Sources(events));
    ConflictNeedsPair(events, Sources(events));
    QuotientBelow(n, Max(p, 1));
  }

  ghost predicate NoBarePair(events: seq<Event>, ips: seq<string>) {
    forall i :: 0 <= i < |ips| ==> |OfSource(events, ips[i])| != 2 || ConflictsOf(OfSource(events, ips[i])) < 2
  }

  lemma {:induction false} ConflictsWithinPairs(events: seq<Event>, ips: seq<string>)
    requires NoBarePair(events, ips)
    ensures Conflicts(events, ips) <= Pairs(events, ips)
  {
    if ips != [] {
      ConflictsWithinPairs(events, ips[..|ips| - 1]);
    }
  }

  /** So it is idle unless some source has exactly two events that conflict both ways. */
  lemma SourceClampIdle(events: seq<Event>)
    requires NoBarePair(events, Sources(events))
    ensures RawConsistency(events) >= 0.0
  {
    ConflictsWithinPairs(events, Sources(events));
    SourceClampBindsIff(events);
  }

  lemma PairSources(a: Event, b: Event)
    requires a.src == b.src != ""
    ensures Sources([a, b]) == [a.src] && OfSource([a, b], a.src) == [a, b]
  {
    assert [a, b][..1] == [a] && [a][..0] == [];
    assert Sources([a]) == [a.src];
    assert OfSource([a], a.src) == [a];
  }

  lemma PairConflicts(a: Event, b: Event)
    requires a.severity == "info" && b.severity == "critical" && a.kind == "USER_LOGIN" && b.kind == "BRUTE_FORCE"
    ensures ConflictsOf([a, b]) == 2
  {
    var es := [a, b];
    assert es[0] in es && es[1] in es;
    assert SomeSeverity(es, "info") && SomeSeverity(es, "critical");
    assert SomeKind(es, LOGINS) && SomeKind(es, ATTACKS);
  }

  lemma OneSource(events: seq<Event>, ip: string)
    ensures Conflicts(events, [ip]) == ConflictsOf(OfSource(events, ip))
    ensures Pairs(events, [ip]) == PairsOf(|OfSource(events, ip)|)
  {
    assert [ip][..0] == [];
  }

  /** With such a pair alone the value falls to -1, and the clamp is needed. */
  lemma SourceClampBinds(a: Event, b: Event)
    requires a.src == b.src != "" && a.severity == "info" && b.severity == "critical"
    requires a.kind == "USER_LOGIN" && b.kind == "BRUTE_FORCE"
    ensures RawConsistency([a, b]) == -1.0 && SourceConsistency([a, b]) == 0.0
  {
    PairSources(a, b);
    PairConflicts(a, b);
    OneSource([a, b], a.src);
    PairsFormula(2);
  }

  // ---------- the layers as the loops they are ----------

  method VerifyIdExistence(ids: seq<int>, index: Index) returns (valid: bool, missing: seq<int>)
    ensures missing == Missing(ids, index) && (valid <==> missing == [])
  {
    missing := [];
    for i := 0 to |ids|
      invariant missing == Missing(ids[..i], index)
    {
      assert ids[..i + 1][..i] == ids[..i];
      if ids[i] !in index { missing := missing + [ids[i]]; }
    }
    assert ids[..|ids|] == ids;
    valid := |missing| == 0;
  }

  method VerifyFieldGrounding(norm: string -> string, quotes: seq<string>, events: seq<Event>)
      returns (found: nat, ungrounded: seq<string>, ratio: real)
    ensures found + |ungrounded| == |quotes|
    ensures events != [] ==> found == Found(norm, quotes, events)
    ensures ratio == GroundingRatio(norm, quotes, events)
    ensures events != [] ==>
              forall q :: q in ungrounded <==> q in quotes && norm(q) != "" && !Stands(norm, q, events)
    ensures events == [] ==> ungrounded == quotes
    ensures quotes != [] ==> ratio == (|quotes| - |ungrounded|) as real / |quotes| as real
  {
    if quotes == [] {
      return 0, [], 1.0;
    }
    if events == [] {
      return 0, quotes, 0.0;
    }
    found, ungrounded := 0, [];
    for i := 0 to |quotes|
      invariant found == Found(norm, quotes[..i], events) && found + |ungrounded| == i
      invariant forall q :: q in ungrounded <==> q in quotes[..i] && norm(q) != "" && !Stands(norm, q, events)
    {
      assert quotes[..i + 1][..i] == quotes[..i] && quotes[..i + 1] == quotes[..i] + [quotes[i]];
      OccursIff(norm, quotes[i], events);
      if Occurs(norm, quotes[i], events) { found := found + 1; } else { ungrounded := ungrounded + [quotes[i]]; }
    }
    assert quotes[..|quotes|] == quotes;
    ratio := Ratio(found, |quotes|);
  }

  method VerifyEvidenceFreshness(ids: seq<int>, index: Index, now: real) returns (stale: seq<int>, freshness: real)
    ensures |stale| == Stale(ids, index, now)
    ensures forall id :: id in stale <==>
              id in ids && id in index && index[id].ts.Some? && now - index[id].ts.value > 86400.0
    ensures freshness == Freshness(ids, index, now)
  {
    stale := [];
    if ids == [] {
      return [], 1.0;
    }
    for i := 0 to |ids|
      invariant |stale| == Stale(ids[..i], index, now)
      invariant forall id :: id in stale <==> id in ids[..i] && IsStale(id, index, now)
    {
      assert ids[..i + 1][..i] == ids[..i] && ids[..i + 1] == ids[..i] + [ids[i]];
      if ids[i] in index && index[ids[i]].ts.Some? {
        var age := now - index[ids[i]].ts.value;
        if age > TTL { stale := stale + [ids[i]]; }
      }
    }
    assert ids[..|ids|] == ids;
    freshness := RealMax(1.0 - Ratio(|stale|, Max(|ids|, 1)), 0.0);
  }

  method GroupBySource(events: seq<Event>) returns (order: seq<string>, byIp: map<string, seq<Event>>)
    ensures order == Sources(events)
    ensures forall ip :: ip in order ==> ip in byIp && byIp[ip] == OfSource(events, ip)
  {
    order, byIp := [], map[];
    for i := 0 to |events|
      invariant order == Sources(events[..i])
      invariant forall ip :: ip in byIp <==> ip in order
      invariant forall ip :: ip in byIp ==> byIp[ip] == OfSource(events[..i], ip)
    {
      assert events[..i + 1][..i] == events[..i];
      var src := events[i].src;
      if src != "" {
        NewSourceIsEmpty(events[..i], src);
        if src in byIp {
          byIp := byIp[src := byIp[src] + [events[i]]];
        } else {
          order := order + [src];
          byIp := byIp[src := [events[i]]];
        }
      }
      assert "" !in byIp by { NoBlankSource(events[..i + 1]); }
    }
    assert events[..|events|] == events;
  }

  lemma {:induction false} NewSourceIsEmpty(events: seq<Event>, ip: string)
    requires ip != ""
    ensures ip !in Sources(events) ==> OfSource(events, ip) == []
  {
    if events != [] { NewSourceIsEmpty(events[..|events| - 1], ip); }
  }

  lemma {:induction false} NoBlankSource(events: seq<Event>)
    ensures "" !in Sources(events)
  {
    if events != [] { NoBlankSource(events[..|events| - 1]); }
  }

  method CompareSource(es: seq<Event>) returns (conflicts: nat, pairs: nat)
    ensures conflicts == ConflictsOf(es) && pairs == PairsOf(|es|)
  {
    conflicts := 0;
    if |es| >= 2 {
      if SomeSeverity(es, "info") && (SomeSeverity(es, "critical") || SomeSeverity(es, "high")) {
        conflicts := conflicts + 1;
      }
      if SomeKind(es, LOGINS) && SomeKind(es, ATTACKS) {
        conflicts := conflicts + 1;
      }
    }
    PairsFormula(|es|);
    pairs := |es| * (|es| - 1) / 2;
  }

  method VerifyCrossSource(events: seq<Event>) returns (conflicts: nat, consistency: real)
    ensures |events| >= 2 ==> conflicts == Conflicts(events, Sources(events))
    ensures consistency == SourceConsistency(events)
  {
    if |events| < 2 {
      return 0, 1.0;
    }
    var order, byIp := GroupBySource(events);
    conflicts := 0;
    var pairs: nat := 0;
    for i := 0 to |order|
      invariant conflicts == Conflicts(events, order[..i]) && pairs == Pairs(events, order[..i])
    {
      assert order[..i + 1][..i] == order[..i];
      var es := byIp[order[i]];
      var n, p := CompareSource(es);
      conflicts, pairs := conflicts + n, pairs + p;
    }
    assert order[..|order|] == order;
    consistency := ConsistencyFrom(events, conflicts, pairs);
  }

  method ConsistencyFrom(events: seq<Event>, conflicts: nat, pairs: nat) returns (consistency: real)
    requires |events| >= 2 && conflicts == Conflicts(events, Sources(events)) && pairs == Pairs(events, Sources(events))
    ensures consistency == SourceConsistency(events)
  {
    consistency := RealMax(1.0 - conflicts as real / Max(pairs, 1) as real, 0.0);
  }

  method CollectTimes(ids: seq<int>, index: Index) returns (times: seq<real>)
    ensures times == Times(ids, index)
  {
    times := [];
    for i := 0 to |ids|
      invariant times == Times(ids[..i], index)
    {
      assert ids[..i + 1][..i] == ids[..i];
      if ids[i] in index && index[ids[i]].ts.Some? { times := times + [index[ids[i]].ts.value]; }
    }
    assert ids[..|ids|] == ids;
  }

  method CountReversals(times: seq<real>) returns (n: nat)
    ensures n == Reversals(times)
  {
    n := 0;
    if times == [] {
      return;
    }
    for j := 1 to |times|
      invariant n == Reversals(times[..j])
    {
      assert times[..j + 1][..j] == times[..j];
      if times[j] < times[j - 1] { n := n + 1; }
    }
    assert times[..|times|] == times;
  }

  method VerifyChainIntegrity(ids: seq<int>, index: Index) returns (breaks: nat, integrity: real)
    ensures breaks == Breaks(ids, index) && integrity == ChainIntegrity(ids, index)
  {
    if |ids| < 2 {
      return 0, 1.0;
    }
    var times := CollectTimes(ids, index);
    breaks := CountReversals(times);
    ghost var reversals := breaks;
    for k := 1 to |ids|
      invariant breaks == reversals + Jumps(ids[..k])
    {
      assert ids[..k + 1][..k] == ids[..k];
      if Jump(ids[k - 1], ids[k]) { breaks := breaks + 1; }
    }
    assert ids[..|ids|] == ids;
    integrity := RealMax(1.0 - Ratio(breaks, Max(|ids| - 1, 1) * 2), 0.0);
  }

  datatype Report = Report(score: real, verdict: Verdict)

  /** The second layer alone. */
  method QuoteRatio(norm: string -> string, quotes: seq<string>, events: seq<Event>) returns (ratio: real)
    ensures ratio == GroundingRatio(norm, quotes, events)
  {
    var found, ungrounded;
    found, ungrounded, ratio := VerifyFieldGrounding(norm, quotes, events);
  }

  method VerifyClaim(norm: string -> string, c: Claim, index: Index, now: real) returns (r: Report)
    ensures r == Report(Score(norm, c, index, now), Judge(Score(norm, c, index, now)))
  {
    var valid, missing := VerifyIdExistence(c.ids, index);
    var events := Referenced(c.ids, index);
    var ratio := QuoteRatio(norm, c.quotes, events);
    var entity := EntityScore(c, events);
    var supported := c.knowledgeMatch && c.ids != [] && valid;
    var idRatio := if c.ids == [] then 1.0 else Ratio(|c.ids| - |missing|, |c.ids|);
    var stale, freshness := VerifyEvidenceFreshness(c.ids, index, now);
    var conflicts, consistency := VerifyCrossSource(events);
    var breaks, integrity := VerifyChainIntegrity(c.ids, index);
    var l := Layers(idRatio, ratio, entity, if supported then 1.0 else 0.0, freshness, consistency, integrity);
    var score := Round4(RealMin(RealMax(Weighted(l), 0.0), 1.0));
    r := Report(score, Judge(score));
  }

  // ---------- a whole chunk ----------

  function SumScores(rs: seq<Report>): real {
    if rs == [] then 0.0 else SumScores(rs[..|rs| - 1]) + rs[|rs| - 1].score
  }

  function Count(rs: seq<Report>, v: Verdict): nat {
    if rs == [] then 0 else Count(rs[..|rs| - 1], v) + Bit(rs[|rs| - 1].verdict == v)
  }

  lemma {:induction false} SumSplits(a: seq<Report>, b: seq<Report>)
    ensures SumScores(a + b) == SumScores(a) + SumScores(b)
    ensures SumScores([]) == 0.0 && forall r :: SumScores([r]) == r.score
  {
    if b == [] {
      assert a + b == a;
    } else {
      assert (a + b)[..|a + b| - 1] == a + b[..|b| - 1];
      SumSplits(a, b[..|b| - 1]);
    }
    assert forall r: Report :: [r][..0] == [];
  }

  lemma {:induction false} CountIs(rs: seq<Report>, v: Verdict)
    ensures Count(rs, v) == |Filter(rs, (r: Report) => r.verdict == v)|
  {
    if rs != [] { CountIs(rs[..|rs| - 1], v); }
  }

  /** The verdict totals add up to the number of claims, and the scores to at most that number. */
  lemma {:induction false} TotalsAddUp(rs: seq<Report>)
    requires forall i :: 0 <= i < |rs| ==> Unit(rs[i].score)
    ensures Count(rs, Grounded) + Count(rs, PartiallyGrounded) + Count(rs, Ungrounded) == |rs|
    ensures 0.0 <= SumScores(rs) <= |rs| as real
  {
    if rs != [] { TotalsAddUp(rs[..|rs| - 1]); }
  }

  method VerifyChunk(norm: string -> string, claims: seq<Claim>, index: Index, now: real)
      returns (reports: seq<Report>, grounded: nat, partial: nat, ungrounded: nat, overall: real)
    ensures |reports| == |claims|
    ensures forall i :: 0 <= i < |claims| ==>
              reports[i] == Report(Score(norm, claims[i], index, now), Judge(Score(norm, claims[i], index, now)))
    ensures grounded == Count(reports, Grounded) && partial == Count(reports, PartiallyGrounded)
    ensures grounded + partial + ungrounded == |claims|
    ensures overall == if claims == [] then 1.0 else Round4(SumScores(reports) / |claims| as real)
    ensures 0.0 <= overall <= 1.0
  {
    reports, grounded, partial, ungrounded := [], 0, 0, 0;
    for i := 0 to |claims|
      invariant |reports| == i
      invariant forall k :: 0 <= k < i ==>
                  reports[k] == Report(Score(norm, claims[k], index, now), Judge(Score(norm, claims[k], index, now)))
    {
      var r := VerifyClaim(norm, claims[i], index, now);
      reports := reports + [r];
    }
    forall i | 0 <= i < |reports|
      ensures Unit(reports[i].score)
    {
      ClampsNeverBind(norm, claims[i], index, now);
    }
    grounded, partial, ungrounded := Tally(reports);
    TotalsAddUp(reports);
    overall := 1.0;
    if claims != [] {
      MeanUnit(SumScores(reports), |claims|);
      Round4Unit(SumScores(reports) / |claims| as real);
      overall := Round4(SumScores(reports) / |claims| as real);
    }
  }

  lemma MeanUnit(total: real, n: nat)
    requires n > 0 && 0.0 <= total <= n as real
    ensures Unit(total / n as real)
  {}

  method Tally(rs: seq<Report>) returns (g: nat, p: nat, u: nat)
    ensures g == Count(rs, Grounded) && p == Count(rs, PartiallyGrounded) && u == Count(rs, Ungrounded)
  {
    g, p, u := 0, 0, 0;
    for i := 0 to |rs|
      invariant g == Count(rs[..i], Grounded) && p == Count(rs[..i], PartiallyGrounded)
      invariant u == Count(rs[..i], Ungrounded)
    {
      assert rs[..i + 1][..i] == rs[..i];
      match rs[i].verdict
      case Grounded => g := g + 1;
      case PartiallyGrounded => p := p + 1;
      case Ungrounded => u := u + 1;
    }
    assert rs[..|rs|] == rs;
  }
}
