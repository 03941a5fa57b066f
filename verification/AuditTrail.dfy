/** The hash-linked audit log: direct writes, an offline buffer of 500 entries, flushes, and verification.
    The row hash is an uninterpreted function of the entry and the previous hash. */
module AuditTrail {
  import opened Common

  const FALLBACK_MAX: nat := 500

  type Hash = string

  const GENESIS: Hash := "0000000000000000000000000000000000000000000000000000000000000000"

  /** The fields that enter the hash, as one value. */
  type Entry = string

  datatype Row = Row(entry: Entry, prev: Hash, hash: Hash)

  /** Hex digests are never empty. */
  ghost predicate Digest(h: (Entry, Hash) -> Hash) {
    forall e, p :: h(e, p) != ""
  }

  /** `prev_hash or GENESIS_HASH` */
  function OrGenesis(p: Hash): Hash { if p == "" then GENESIS else p }

  function LatestHash(rows: seq<Row>): Hash {
    if rows == [] then GENESIS else OrGenesis(rows[|rows| - 1].hash)
  }

  /** `read` says whether the query for the latest hash succeeds; a failure starts again from genesis. */
  function Start(rows: seq<Row>, read: bool): Hash {
    if read then LatestHash(rows) else GENESIS
  }

  /** The row of a direct write; `failed` says that the hash computation fails, which stores empty hashes. */
  function Written(h: (Entry, Hash) -> Hash, prev: Hash, e: Entry, failed: bool): Row {
    if failed then Row(e, "", "") else Row(e, prev, h(e, OrGenesis(prev)))
  }

  /** The hash a flush links its next row to, after it added `batch`; `fails` are the positions whose hash fails. */
  function Tip(h: (Entry, Hash) -> Hash, prev: Hash, batch: seq<Entry>, fails: set<nat>): Hash {
    if batch == [] then prev
    else
      var n := |batch| - 1;
      var p := Tip(h, prev, batch[..n], fails);
      var rh := FlushHash(h, p, batch[n], n in fails);
      if rh == "" then p else rh
  }

  function FlushHash(h: (Entry, Hash) -> Hash, prev: Hash, e: Entry, failed: bool): Hash {
    if failed then "" else h(e, OrGenesis(prev))
  }

  /** The rows a flush adds. */
  function Linked(h: (Entry, Hash) -> Hash, prev: Hash, batch: seq<Entry>, fails: set<nat>): (r: seq<Row>)
    ensures |r| == |batch|
    ensures forall i :: 0 <= i < |r| ==> r[i].entry == batch[i]
  {
    if batch == [] then []
    else
      var n := |batch| - 1;
      var p := Tip(h, prev, batch[..n], fails);
      Linked(h, prev, batch[..n], fails) + [Row(batch[n], p, FlushHash(h, p, batch[n], n in fails))]
  }

  /** Keep the last 500. */
  function Enqueue(buffer: seq<Entry>, e: Entry): seq<Entry> {
    LastN(buffer + [e], FALLBACK_MAX)
  }

  function EnqueueAll(buffer: seq<Entry>, es: seq<Entry>): seq<Entry>
    decreases es
  {
    if es == [] then buffer else EnqueueAll(Enqueue(buffer, es[0]), es[1..])
  }

  lemma {:induction false} EnqueueAllIsLastN(buffer: seq<Entry>, es: seq<Entry>)
    requires |buffer| <= FALLBACK_MAX
    ensures EnqueueAll(buffer, es) == LastN(buffer + es, FALLBACK_MAX)
    decreases es
  {
    if es == [] {
      assert buffer + es == buffer;
    } else {
      EnqueueAllIsLastN(Enqueue(buffer, es[0]), es[1..]);
      LastNAppend(buffer + [es[0]], es[1..], FALLBACK_MAX);
      assert buffer + [es[0]] + es[1..] == buffer + es;
    }
  }

  // ---------- verification ----------

  predicate RowOk(h: (Entry, Hash) -> Hash, r: Row) {
    h(r.entry, OrGenesis(r.prev)) == r.hash
  }

  predicate AllOk(h: (Entry, Hash) -> Hash, rows: seq<Row>) {
    forall i :: 0 <= i < |rows| ==> RowOk(h, rows[i])
  }

  datatype Verdict = Verdict(ok: bool, checked: nat, firstBreak: Option<nat>)

  /** `ok` exactly when every row matches its own hash; otherwise the first that does not, after that many good ones. */
  method VerifyChain(h: (Entry, Hash) -> Hash, rows: seq<Row>) returns (v: Verdict)
    ensures v.ok <==> AllOk(h, rows)
    ensures v.checked <= |rows|
    ensures forall i :: 0 <= i < v.checked ==> RowOk(h, rows[i])
    ensures v.ok ==> v.checked == |rows| && v.firstBreak == None
    ensures !v.ok ==> v.checked < |rows| && v.firstBreak == Some(v.checked) && !RowOk(h, rows[v.checked])
  {
    var checked := 0;
    while checked < |rows|
      invariant 0 <= checked <= |rows|
      invariant forall i :: 0 <= i < checked ==> RowOk(h, rows[i])
    {
      var recomputed := h(rows[checked].entry, OrGenesis(rows[checked].prev));
      if recomputed != rows[checked].hash {
        return Verdict(false, checked, Some(checked));
      }
      checked := checked + 1;
    }
    return Verdict(true, checked, None);
  }

  // ---------- runs ----------

  /** A coroutine between two of its awaits: a direct write, or a flush with the batch it copied.
      `tip` is the latest hash once it is read; a flush stays in flight from its commit to its deletion. */
  datatype Flight =
    | Writing(entry: Entry, tip: Option<Hash>)
    | Flushing(batch: seq<Entry>, tip: Option<Hash>, committed: bool)

  datatype State = State(rows: seq<Row>, buffer: seq<Entry>, flights: map<nat, Flight>)

  /** The stretches of code between awaits; any number of writes and flushes may be in flight, in any interleaving.
      `fails` are the positions whose hash computation fails, position 0 for a direct write. */
  datatype Op =
    | Defer(entry: Entry)
    | Begin(id: nat, entry: Entry)
    | Copy(id: nat)
    | Read(id: nat, ok: bool)
    | Commit(id: nat, fails: set<nat>)
    | Delete(id: nat)
    | Fail(id: nat)

  /** What is left after `del buffer[:n]`. */
  function Deleted<T>(buffer: seq<T>, n: nat): seq<T> {
    if |buffer| <= n then [] else buffer[n..]
  }

  /** In flight, and the commit has not taken effect. */
  predicate Open(s: State, id: nat) {
    id in s.flights && !(s.flights[id].Flushing? && s.flights[id].committed)
  }

  predicate CanCommit(s: State, id: nat) {
    Open(s, id) && s.flights[id].tip.Some?
  }

  predicate CanDelete(s: State, id: nat) {
    id in s.flights && s.flights[id].Flushing? && s.flights[id].committed
  }

  /** The rows a commit adds. */
  function Added(h: (Entry, Hash) -> Hash, f: Flight, fails: set<nat>): seq<Row>
    requires f.tip.Some?
  {
    match f
    case Writing(e, tip) => [Written(h, tip.value, e, 0 in fails)]
    case Flushing(batch, tip, _) => Linked(h, tip.value, batch, fails)
  }

  /** One step; a step that is not possible changes nothing. An empty buffer ends a flush before its first await. */
  function Apply(h: (Entry, Hash) -> Hash, s: State, op: Op): State {
    match op
    case Defer(e) => s.(buffer := Enqueue(s.buffer, e))
    case Begin(id, e) => if id in s.flights then s else s.(flights := s.flights[id := Writing(e, None)])
    case Copy(id) =>
      if id in s.flights || s.buffer == [] then s
      else s.(flights := s.flights[id := Flushing(s.buffer, None, false)])
    case Read(id, ok) =>
      if id !in s.flights || s.flights[id].tip.Some? then s
      else s.(flights := s.flights[id := s.flights[id].(tip := Some(Start(s.rows, ok)))])
    case Commit(id, fails) =>
      if !CanCommit(s, id) then s
      else
        var f := s.flights[id];
        s.(rows := s.rows + Added(h, f, fails),
           flights := if f.Writing? then s.flights - {id} else s.flights[id := f.(committed := true)])
    case Delete(id) =>
      if !CanDelete(s, id) then s
      else State(s.rows, Deleted(s.buffer, |s.flights[id].batch|), s.flights - {id})
    case Fail(id) =>
      if !Open(s, id) then s
      else
        var f := s.flights[id];
        State(s.rows, if f.Writing? then Enqueue(s.buffer, f.entry) else s.buffer, s.flights - {id})
  }

  function Run(h: (Entry, Hash) -> Hash, ops: seq<Op>): State {
    if ops == [] then State([], [], map[]) else Apply(h, Run(h, ops[..|ops| - 1]), ops[|ops| - 1])
  }

  // ---------- the chain ----------

  ghost predicate Link(h: (Entry, Hash) -> Hash, r: Row, prev: Hash) {
    RowOk(h, r) && r.hash != "" && r.prev == prev
  }

  ghost predicate Chained(h: (Entry, Hash) -> Hash, rows: seq<Row>) {
    forall i :: 0 <= i < |rows| ==> Link(h, rows[i], Before(rows, i))
  }

  /** The hash a row of an unbroken chain must link to. */
  function Before(rows: seq<Row>, i: nat): Hash
    requires i <= |rows|
  {
    if i == 0 then GENESIS else rows[i - 1].hash
  }

  /** No hash of the rows a flight adds fails. */
  predicate NoneFails(f: Flight, fails: set<nat>) {
    if f.Writing? then 0 !in fails else NoneOf(|f.batch|, fails)
  }

  lemma ChainPrefix(h: (Entry, Hash) -> Hash, rows: seq<Row>, r: Row)
    requires Chained(h, rows + [r])
    ensures Chained(h, rows) && Link(h, r, Before(rows, |rows|))
  {
    var all := rows + [r];
    forall i | 0 <= i < |rows|
      ensures Link(h, rows[i], Before(rows, i))
    {
      assert all[i] == rows[i] && Before(all, i) == Before(rows, i);
    }
    assert all[|rows|] == r && Before(all, |rows|) == Before(rows, |rows|);
  }

  lemma ChainExtend(h: (Entry, Hash) -> Hash, rows: seq<Row>, r: Row)
    requires Chained(h, rows) && Link(h, r, Before(rows, |rows|))
    ensures Chained(h, rows + [r])
  {
    var all := rows + [r];
    forall i | 0 <= i < |all|
      ensures Link(h, all[i], Before(all, i))
    {
      assert Before(all, i) == Before(rows, i);
      assert all[i] == if i < |rows| then rows[i] else r;
    }
  }

  lemma LatestIsBefore(h: (Entry, Hash) -> Hash, rows: seq<Row>)
    requires Chained(h, rows)
    ensures LatestHash(rows) == Before(rows, |rows|)
  {
    if rows != [] {
      assert Link(h, rows[|rows| - 1], Before(rows, |rows| - 1));
    }
  }

  /** One more row keeps the chain exactly when it is sound itself and carries the latest hash. */
  lemma ChainOneMore(h: (Entry, Hash) -> Hash, rows: seq<Row>, r: Row)
    ensures Chained(h, rows + [r]) <==> Chained(h, rows) && Link(h, r, LatestHash(rows))
  {
    if Chained(h, rows + [r]) {
      ChainPrefix(h, rows, r);
      LatestIsBefore(h, rows);
    }
    if Chained(h, rows) && Link(h, r, LatestHash(rows)) {
      LatestIsBefore(h, rows);
      ChainExtend(h, rows, r);
    }
  }

  predicate NoneOf(n: nat, fails: set<nat>) { forall i: nat :: i < n ==> i !in fails }

  /** What a batch does to a table: its rows start from the hash `tip`, the next row would get `end`. */
  ghost predicate BatchChains(h: (Entry, Hash) -> Hash, rows: seq<Row>, tip: Hash, all: seq<Row>, end: Hash,
                              sound: bool)
  {
    && (Chained(h, all) <==> Chained(h, rows) && tip == LatestHash(rows) && sound)
    && (Chained(h, all) ==> LatestHash(all) == end)
    && end != ""
  }

  lemma BatchRow(h: (Entry, Hash) -> Hash, prev: Hash, e: Entry, failed: bool)
    requires Digest(h) && prev != ""
    ensures var r := Row(e, prev, FlushHash(h, prev, e, failed)); RowOk(h, r) && r.hash != "" <==> !failed
  {}

  /** One more row of a batch. */
  lemma BatchStep(h: (Entry, Hash) -> Hash, rows: seq<Row>, tip: Hash, part: seq<Row>, p: Hash, sound: bool, e: Entry,
                  failed: bool)
    requires Digest(h) && BatchChains(h, rows, tip, part, p, sound)
    ensures var rh := FlushHash(h, p, e, failed);
            BatchChains(h, rows, tip, part + [Row(e, p, rh)], if rh == "" then p else rh, sound && !failed)
  {
    ChainOneMore(h, part, Row(e, p, FlushHash(h, p, e, failed)));
    BatchRow(h, p, e, failed);
  }

  /** The first row of a batch. */
  lemma BatchFirst(h: (Entry, Hash) -> Hash, rows: seq<Row>, tip: Hash, e: Entry, failed: bool)
    requires Digest(h) && tip != ""
    ensures var rh := FlushHash(h, tip, e, failed);
            BatchChains(h, rows, tip, rows + [Row(e, tip, rh)], if rh == "" then tip else rh, !failed)
  {
    ChainOneMore(h, rows, Row(e, tip, FlushHash(h, tip, e, failed)));
    BatchRow(h, tip, e, failed);
  }

  lemma LinkedLast(h: (Entry, Hash) -> Hash, rows: seq<Row>, tip: Hash, batch: seq<Entry>, fails: set<nat>)
    requires batch != []
    ensures var n := |batch| - 1;
            var p := Tip(h, tip, batch[..n], fails);
            rows + Linked(h, tip, batch, fails)
            == rows + Linked(h, tip, batch[..n], fails) + [Row(batch[n], p, FlushHash(h, p, batch[n], n in fails))]
  {}

  /** A batch keeps the chain exactly when no hash fails and it starts from the latest hash. */
  lemma {:induction false} LinkedChainsIff(h: (Entry, Hash) -> Hash, rows: seq<Row>, tip: Hash, batch: seq<Entry>,
                                           fails: set<nat>)
    requires Digest(h) && tip != "" && batch != []
    ensures BatchChains(h, rows, tip, rows + Linked(h, tip, batch, fails), Tip(h, tip, batch, fails),
                        NoneOf(|batch|, fails))
  {
    var n := |batch| - 1;
    LinkedLast(h, rows, tip, batch, fails);
    assert NoneOf(n + 1, fails) <==> NoneOf(n, fails) && n !in fails;
    if n == 0 {
      assert rows + Linked(h, tip, batch[..n], fails) == rows;
      BatchFirst(h, rows, tip, batch[n], n in fails);
    } else {
      LinkedChainsIff(h, rows, tip, batch[..n], fails);
      BatchStep(h, rows, tip, rows + Linked(h, tip, batch[..n], fails), Tip(h, tip, batch[..n], fails),
                NoneOf(n, fails), batch[n], n in fails);
    }
  }

  /** The commit finds the hash it read still the latest, and no hash it computes fails. */
  predicate LinksOn(s: State, op: Op) {
    op.Commit? && CanCommit(s, op.id) ==>
      s.flights[op.id].tip.value == LatestHash(s.rows) && NoneFails(s.flights[op.id], op.fails)
  }

  predicate AllLinkOn(h: (Entry, Hash) -> Hash, ops: seq<Op>) {
    ops == [] || (AllLinkOn(h, ops[..|ops| - 1]) && LinksOn(Run(h, ops[..|ops| - 1]), ops[|ops| - 1]))
  }

  predicate FlightsOk(s: State) {
    forall id :: id in s.flights ==>
      s.flights[id].tip != Some("") && (s.flights[id].Flushing? ==> s.flights[id].batch != [])
  }

  lemma {:induction false} RunFlightsOk(h: (Entry, Hash) -> Hash, ops: seq<Op>)
    ensures FlightsOk(Run(h, ops))
  {
    if ops != [] {
      RunFlightsOk(h, ops[..|ops| - 1]);
    }
  }

  lemma AddedChainsIff(h: (Entry, Hash) -> Hash, rows: seq<Row>, f: Flight, fails: set<nat>)
    requires Digest(h) && f.tip.Some? && f.tip != Some("") && (f.Flushing? ==> f.batch != [])
    ensures Chained(h, rows + Added(h, f, fails)) <==>
            Chained(h, rows) && f.tip.value == LatestHash(rows) && NoneFails(f, fails)
  {
    match f
    case Writing(e, tip) => ChainOneMore(h, rows, Written(h, tip.value, e, 0 in fails));
    case Flushing(batch, tip, _) => LinkedChainsIff(h, rows, tip.value, batch, fails);
  }

  /** The table of a run is one unbroken chain from genesis exactly when each commit found the hash it had read
      still the latest and no hash failed: two writers that overlap between read and commit fork it. */
  lemma {:induction false} ChainedIff(h: (Entry, Hash) -> Hash, ops: seq<Op>)
    requires Digest(h)
    ensures Chained(h, Run(h, ops).rows) <==> AllLinkOn(h, ops)
  {
    if ops != [] {
      var n := |ops| - 1;
      ChainedIff(h, ops[..n]);
      var s := Run(h, ops[..n]);
      RunFlightsOk(h, ops[..n]);
      if ops[n].Commit? && CanCommit(s, ops[n].id) {
        AddedChainsIff(h, s.rows, s.flights[ops[n].id], ops[n].fails);
      }
    }
  }

  /** Steps none of which commits leave a hash that was read the latest: commits that do not overlap link on. */
  lemma {:induction false} TipStays(h: (Entry, Hash) -> Hash, ops: seq<Op>, id: nat, more: seq<Op>)
    requires id in Run(h, ops).flights && Run(h, ops).flights[id].tip.None? && Open(Run(h, ops), id)
    requires forall i :: 0 <= i < |more| ==> !more[i].Commit? && more[i] != Fail(id)
    ensures var s := Run(h, ops + [Read(id, true)] + more);
            Open(s, id) && s.flights[id].tip == Some(LatestHash(s.rows))
  {
    var start := ops + [Read(id, true)];
    if more == [] {
      assert start + more == start;
      RunStep(h, ops, Read(id, true));
    } else {
      var n := |more| - 1;
      assert start + more == start + more[..n] + [more[n]];
      TipStays(h, ops, id, more[..n]);
      TipStep(h, start + more[..n], id, more[n]);
    }
  }

  lemma TipStep(h: (Entry, Hash) -> Hash, ops: seq<Op>, id: nat, op: Op)
    requires !op.Commit? && op != Fail(id)
    requires var s := Run(h, ops); Open(s, id) && s.flights[id].tip == Some(LatestHash(s.rows))
    ensures var s := Run(h, ops + [op]); Open(s, id) && s.flights[id].tip == Some(LatestHash(s.rows))
  {
    RunStep(h, ops, op);
    TipApply(h, Run(h, ops), id, op);
  }

  lemma TipApply(h: (Entry, Hash) -> Hash, s: State, id: nat, op: Op)
    requires !op.Commit? && op != Fail(id) && Open(s, id) && s.flights[id].tip.Some?
    ensures Apply(h, s, op).rows == s.rows && Open(Apply(h, s, op), id)
    ensures Apply(h, s, op).flights[id].tip == s.flights[id].tip
  {}

  lemma RunStep(h: (Entry, Hash) -> Hash, ops: seq<Op>, op: Op)
    ensures Run(h, ops + [op]) == Apply(h, Run(h, ops), op)
  {
    assert (ops + [op])[..|ops|] == ops;
  }

  /** A flushed row verifies exactly when its own hash did not fail, whatever happened to the rows around it. */
  lemma {:induction false} FlushedRowOk(h: (Entry, Hash) -> Hash, prev: Hash, batch: seq<Entry>, fails: set<nat>)
    requires Digest(h)
    ensures forall i: nat :: i < |batch| ==> (RowOk(h, Linked(h, prev, batch, fails)[i]) <==> i !in fails)
  {
    if batch != [] {
      FlushedRowOk(h, prev, batch[..|batch| - 1], fails);
    }
  }

  predicate NoDigestError(s: State, op: Op) {
    op.Commit? && CanCommit(s, op.id) ==> NoneFails(s.flights[op.id], op.fails)
  }

  predicate NoDigestErrors(h: (Entry, Hash) -> Hash, ops: seq<Op>) {
    ops == [] || (NoDigestErrors(h, ops[..|ops| - 1]) && NoDigestError(Run(h, ops[..|ops| - 1]), ops[|ops| - 1]))
  }

  lemma AllOkAppend(h: (Entry, Hash) -> Hash, a: seq<Row>, b: seq<Row>)
    ensures AllOk(h, a + b) <==> AllOk(h, a) && AllOk(h, b)
  {
    if AllOk(h, a + b) {
      forall i | 0 <= i < |a| ensures RowOk(h, a[i]) { assert (a + b)[i] == a[i]; }
      forall i | 0 <= i < |b| ensures RowOk(h, b[i]) { assert (a + b)[|a| + i] == b[i]; }
    }
  }

  lemma AddedOkIff(h: (Entry, Hash) -> Hash, f: Flight, fails: set<nat>)
    requires Digest(h) && f.tip.Some?
    ensures AllOk(h, Added(h, f, fails)) <==> NoneFails(f, fails)
  {
    match f
    case Writing(e, tip) => assert RowOk(h, Added(h, f, fails)[0]) <==> 0 !in fails;
    case Flushing(batch, tip, _) => FlushedRowOk(h, tip.value, batch, fails);
  }

  /** Verification accepts the table of a run exactly when no committed row's hash computation failed.
      It looks at no link: it accepts every fork that overlapping writers leave. */
  lemma {:induction false} AcceptedIffNoDigestError(h: (Entry, Hash) -> Hash, ops: seq<Op>)
    requires Digest(h)
    ensures AllOk(h, Run(h, ops).rows) <==> NoDigestErrors(h, ops)
  {
    if ops != [] {
      var n := |ops| - 1;
      AcceptedIffNoDigestError(h, ops[..n]);
      var s := Run(h, ops[..n]);
      if ops[n].Commit? && CanCommit(s, ops[n].id) {
        AddedOkIff(h, s.flights[ops[n].id], ops[n].fails);
        AllOkAppend(h, s.rows, Added(h, s.flights[ops[n].id], ops[n].fails));
      }
    }
  }

  /** Verification looks at no link: it still accepts a chain after any of its rows but the last is taken out,
      although that breaks the chain. */
  lemma GapsPass(h: (Entry, Hash) -> Hash, rows: seq<Row>, i: nat)
    requires Chained(h, rows) && i + 1 < |rows| && rows[i].prev != rows[i].hash
    ensures AllOk(h, rows[..i] + rows[i + 1..]) && !Chained(h, rows[..i] + rows[i + 1..])
  {
    var cut := rows[..i] + rows[i + 1..];
    forall k | 0 <= k < |cut|
      ensures RowOk(h, cut[k])
    {
      assert cut[k] == rows[if k < i then k else k + 1];
    }
    assert Before(cut, i) == Before(rows, i);
    assert cut[i] == rows[i + 1];
    LinkAt(h, rows, i);
    LinkAt(h, rows, i + 1);
    if Chained(h, cut) {
      LinkAt(h, cut, i);
      assert false;
    }
  }

  lemma LinkAt(h: (Entry, Hash) -> Hash, rows: seq<Row>, i: nat)
    requires Chained(h, rows) && i < |rows|
    ensures rows[i].prev == Before(rows, i)
  {}

  // ---------- what the rows hold ----------

  function Texts(rows: seq<Row>): (r: seq<Entry>)
    ensures |r| == |rows| && forall i :: 0 <= i < |r| ==> r[i] == rows[i].entry
  {
    seq(|rows|, i requires 0 <= i < |rows| => rows[i].entry)
  }

  /** What a step commits: the entry of a direct write, or a whole batch. */
  function Content(s: State, op: Op): seq<Entry> {
    if !op.Commit? || !CanCommit(s, op.id) then []
    else match s.flights[op.id] case Writing(e, _) => [e] case Flushing(batch, _, _) => batch
  }

  function AllContent(h: (Entry, Hash) -> Hash, ops: seq<Op>): seq<Entry> {
    if ops == [] then []
    else AllContent(h, ops[..|ops| - 1]) + Content(Run(h, ops[..|ops| - 1]), ops[|ops| - 1])
  }

  /** Over every run the table holds just what was committed, entry by entry, in the order of the commits. */
  lemma {:induction false} TableIs(h: (Entry, Hash) -> Hash, ops: seq<Op>)
    ensures Texts(Run(h, ops).rows) == AllContent(h, ops)
  {
    if ops != [] {
      var n := |ops| - 1;
      TableIs(h, ops[..n]);
      var s := Run(h, ops[..n]);
      if ops[n].Commit? && CanCommit(s, ops[n].id) {
        AddedTexts(h, s.flights[ops[n].id], ops[n].fails);
        TextsAppend(s.rows, Added(h, s.flights[ops[n].id], ops[n].fails));
      }
    }
  }

  lemma AddedTexts(h: (Entry, Hash) -> Hash, f: Flight, fails: set<nat>)
    requires f.tip.Some?
    ensures Texts(Added(h, f, fails)) == if f.Writing? then [f.entry] else f.batch
  {}

  lemma TextsAppend(a: seq<Row>, b: seq<Row>)
    ensures Texts(a + b) == Texts(a) + Texts(b)
  {}

  /** A direct write in flight carries the entry it began with, whatever else happens. */
  lemma {:induction false} WriteKeepsEntry(h: (Entry, Hash) -> Hash, ops: seq<Op>, id: nat, e: Entry, more: seq<Op>)
    requires id !in Run(h, ops).flights
    requires forall i :: 0 <= i < |more| && About(more[i], id) ==> more[i].Read?
    ensures var s := Run(h, ops + [Begin(id, e)] + more);
            id in s.flights && s.flights[id].Writing? && s.flights[id].entry == e
  {
    var start := ops + [Begin(id, e)];
    if more == [] {
      assert start + more == start;
      RunStep(h, ops, Begin(id, e));
    } else {
      var n := |more| - 1;
      assert start + more == start + more[..n] + [more[n]];
      WriteKeepsEntry(h, ops, id, e, more[..n]);
      RunStep(h, start + more[..n], more[n]);
      if !About(more[n], id) {
        OtherStep(h, Run(h, start + more[..n]), more[n], id);
      }
    }
  }

  /** A read that fails starts again from the genesis hash. */
  lemma FailedReadStartsOver(h: (Entry, Hash) -> Hash, s: State, id: nat)
    requires id in s.flights && s.flights[id].tip.None?
    ensures Apply(h, s, Read(id, false)).flights[id].tip == Some(GENESIS)
    ensures Apply(h, s, Read(id, false)).rows == s.rows
  {}

  /** Within a batch each row links to the row before, or past it to what that one linked to when its hash failed. */
  lemma {:induction false} LinkedPrev(h: (Entry, Hash) -> Hash, tip: Hash, batch: seq<Entry>, fails: set<nat>, i: nat)
    requires Digest(h) && i < |batch|
    ensures var rows := Linked(h, tip, batch, fails);
            && (i == 0 ==> rows[i].prev == tip)
            && (i > 0 && i - 1 !in fails ==> rows[i].prev == rows[i - 1].hash)
            && (i > 0 && i - 1 in fails ==> rows[i].prev == rows[i - 1].prev)
            && rows[i].hash == (if i in fails then "" else h(batch[i], OrGenesis(rows[i].prev)))
  {
    var n := |batch| - 1;
    var part := Linked(h, tip, batch[..n], fails);
    assert Linked(h, tip, batch, fails)[..n] == part;
    if i < n {
      LinkedPrev(h, tip, batch[..n], fails, i);
      assert Linked(h, tip, batch, fails)[i] == part[i];
      assert i > 0 ==> Linked(h, tip, batch, fails)[i - 1] == part[i - 1];
    } else if n > 0 {
      TipIsLast(h, tip, batch[..n], fails);
      assert Linked(h, tip, batch, fails)[n - 1] == part[n - 1];
    }
  }

  lemma TipIsLast(h: (Entry, Hash) -> Hash, tip: Hash, batch: seq<Entry>, fails: set<nat>)
    requires Digest(h) && batch != []
    ensures var n := |batch| - 1; var last := Linked(h, tip, batch, fails)[n];
            Tip(h, tip, batch, fails) == if n in fails then last.prev else last.hash
  {}

  // ---------- where every deferred entry is ----------

  /** A flush in flight: it copied the indices lo..hi of everything deferred. `moved`: another flush deleted since.
      `hit`: another flush committed one of these entries, since the copy or without having deleted by then. */
  datatype Mark = Mark(lo: nat, hi: nat, committed: bool, moved: bool, hit: bool)

  /** Every entry the buffer was given, by its index: the buffer holds from..total. `evicted` were pushed out past 500
      unwritten, `dropped` deleted by a flush unwritten. */
  datatype Ledger = Ledger(from: nat, total: nat, written: seq<nat>, evicted: set<nat>, dropped: set<nat>,
                           marks: map<nat, Mark>)

  function Range(lo: nat, hi: nat): (r: seq<nat>)
    requires lo <= hi
    ensures |r| == hi - lo
    ensures forall i :: 0 <= i < |r| ==> r[i] == lo + i
    ensures forall k: nat :: k in r <==> lo <= k < hi
  {
    var r := seq(hi - lo, i requires 0 <= i => lo + i);
    RangeMembers(r, lo, hi);
    r
  }

  lemma RangeMembers(r: seq<nat>, lo: nat, hi: nat)
    requires lo <= hi && |r| == hi - lo
    requires forall i :: 0 <= i < |r| ==> r[i] == lo + i
    ensures forall k: nat :: k in r <==> lo <= k < hi
  {
    forall k: nat | lo <= k < hi
      ensures k in r
    {
      assert r[k - lo] == k;
    }
  }

  predicate Within(i: nat, lo: nat, hi: nat) { lo <= i < hi }

  function Unwritten(l: Ledger, lo: nat, hi: nat): set<nat> {
    set i: nat | i < hi && Within(i, lo, hi) && i !in l.written
  }

  predicate Overlap(a: Mark, b: Mark) { a.lo < b.hi && b.lo < a.hi }

  /** Written by a flush that has not deleted yet. */
  ghost predicate Covered(marks: map<nat, Mark>, k: nat) {
    exists id :: id in marks && marks[id].committed && Within(k, marks[id].lo, marks[id].hi)
  }

  predicate Taken(marks: map<nat, Mark>, m: Mark) {
    exists id :: id in marks && marks[id].committed && Overlap(marks[id], m)
  }

  function Arrives(l: Ledger): Ledger {
    var kept: nat := Max(l.from, l.total + 1 - FALLBACK_MAX);
    l.(total := l.total + 1, from := kept, evicted := l.evicted + Unwritten(l, l.from, kept))
  }

  function Copies(l: Ledger, id: nat): Ledger {
    var m := Mark(l.from, l.total, false, false, false);
    l.(marks := l.marks[id := m.(hit := Taken(l.marks, m))])
  }

  function Commits(l: Ledger, id: nat): Ledger
    requires id in l.marks && l.marks[id].lo <= l.marks[id].hi
  {
    var mine := l.marks[id];
    var marks := map j | j in l.marks ::
      if j == id then mine.(committed := true) else l.marks[j].(hit := l.marks[j].hit || Overlap(l.marks[j], mine));
    l.(written := l.written + Range(mine.lo, mine.hi), marks := marks)
  }

  /** Where the buffer begins after the deletion of as many entries as the batch had. */
  function End(l: Ledger, m: Mark): nat
    requires m.lo <= m.hi
  {
    Min(l.total, l.from + (m.hi - m.lo))
  }

  function Deletes(l: Ledger, id: nat): Ledger
    requires id in l.marks && l.marks[id].lo <= l.marks[id].hi
  {
    var end := End(l, l.marks[id]);
    l.(from := end, dropped := l.dropped + Unwritten(l, l.from, end),
       marks := map j | j in l.marks - {id} :: l.marks[j].(moved := true))
  }

  /** What a step hands to the buffer: a deferred entry, or that of a direct write that failed. */
  function Deferred(s: State, op: Op): seq<Entry> {
    match op
    case Defer(e) => [e]
    case Fail(id) => if Open(s, id) && s.flights[id].Writing? then [s.flights[id].entry] else []
    case _ => []
  }

  /** What a step writes from the buffer. */
  function Flushed(s: State, op: Op): seq<Entry> {
    if op.Commit? && CanCommit(s, op.id) && s.flights[op.id].Flushing? then s.flights[op.id].batch else []
  }

  predicate Known(l: Ledger, id: nat) { id in l.marks && l.marks[id].lo <= l.marks[id].hi }

  function Advance(s: State, l: Ledger, op: Op): Ledger {
    match op
    case Copy(id) => if id in s.flights || s.buffer == [] then l else Copies(l, id)
    case Commit(id, _) => if CanCommit(s, id) && Known(l, id) then Commits(l, id) else l
    case Delete(id) => if CanDelete(s, id) && Known(l, id) then Deletes(l, id) else l
    case Fail(id) =>
      if !Open(s, id) then l else if s.flights[id].Writing? then Arrives(l) else l.(marks := l.marks - {id})
    case Defer(_) => Arrives(l)
    case _ => l
  }

  function AllDeferred(h: (Entry, Hash) -> Hash, ops: seq<Op>): seq<Entry> {
    if ops == [] then []
    else AllDeferred(h, ops[..|ops| - 1]) + Deferred(Run(h, ops[..|ops| - 1]), ops[|ops| - 1])
  }

  /** The entries that committed flushes added to the table, in order. */
  function AllFlushed(h: (Entry, Hash) -> Hash, ops: seq<Op>): seq<Entry> {
    if ops == [] then []
    else AllFlushed(h, ops[..|ops| - 1]) + Flushed(Run(h, ops[..|ops| - 1]), ops[|ops| - 1])
  }

  function Book(h: (Entry, Hash) -> Hash, ops: seq<Op>): Ledger {
    if ops == [] then Ledger(0, 0, [], {}, {}, map[])
    else Advance(Run(h, ops[..|ops| - 1]), Book(h, ops[..|ops| - 1]), ops[|ops| - 1])
  }

  // ---------- what every step keeps of the ledger ----------

  ghost predicate Meets(written: seq<nat>, m: Mark) {
    exists k: nat :: k in written && Within(k, m.lo, m.hi)
  }

  /** Within the buffer's bound, and every index below it has a fate. */
  ghost predicate Placed(l: Ledger) {
    && l.from <= l.total <= l.from + FALLBACK_MAX
    && (forall i :: 0 <= i < |l.written| ==> l.written[i] < l.total)
    && (forall k: nat :: k in l.evicted ==> k < l.from)
    && (forall k: nat :: k < l.from ==> k in l.written || k in l.evicted || k in l.dropped)
  }

  /** The buffer still begins with the batch exactly when no other flush deleted since the copy and the batch and
      all that arrived after it fit the bound. */
  predicate MarkPlaced(from: nat, total: nat, m: Mark) {
    m.lo < m.hi <= total && m.lo <= from && (from == m.lo <==> !m.moved && total - m.lo <= FALLBACK_MAX)
  }

  ghost predicate MarksPlaced(l: Ledger) {
    forall id :: id in l.marks ==> MarkPlaced(l.from, l.total, l.marks[id])
  }

  /** What is still buffered is written exactly when a flush that has not deleted yet wrote it. */
  ghost predicate Pending(l: Ledger) {
    && (forall id, k: nat :: id in l.marks && l.marks[id].committed && Within(k, l.marks[id].lo, l.marks[id].hi)
                             ==> k in l.written)
    && (forall k: nat :: k in l.written && l.from <= k ==> Covered(l.marks, k))
  }

  ghost predicate HitsExact(l: Ledger) {
    forall id :: id in l.marks && !l.marks[id].committed ==> (l.marks[id].hit <==> Meets(l.written, l.marks[id]))
  }

  ghost predicate LedgerOk(l: Ledger) { Placed(l) && MarksPlaced(l) && Pending(l) && HitsExact(l) }

  lemma ArrivesKeeps(l: Ledger)
    requires LedgerOk(l)
    ensures LedgerOk(Arrives(l))
  {}

  lemma CopiesKeeps(l: Ledger, id: nat)
    requires LedgerOk(l) && id !in l.marks && l.from < l.total
    ensures LedgerOk(Copies(l, id))
  {
    var l1 := Copies(l, id);
    var m := Mark(l.from, l.total, false, false, false);
    TakenExact(l, m);
    assert Meets(l1.written, l1.marks[id]) <==> Meets(l.written, m);
    forall k: nat | k in l1.written && l1.from <= k
      ensures Covered(l1.marks, k)
    {
      var j := CoveredBy(l.marks, k);
      assert l1.marks[j] == l.marks[j];
    }
  }

  lemma CoveredBy(marks: map<nat, Mark>, k: nat) returns (id: nat)
    requires Covered(marks, k)
    ensures id in marks && marks[id].committed && Within(k, marks[id].lo, marks[id].hi)
  {
    id :| id in marks && marks[id].committed && Within(k, marks[id].lo, marks[id].hi);
  }

  /** A copy of the buffer holds a written entry exactly when it overlaps a flush that has not deleted yet. */
  lemma TakenExact(l: Ledger, m: Mark)
    requires LedgerOk(l) && m.lo == l.from < l.total == m.hi
    ensures Taken(l.marks, m) <==> Meets(l.written, m)
  {
    if Taken(l.marks, m) {
      var id :| id in l.marks && l.marks[id].committed && Overlap(l.marks[id], m);
      assert MarkPlaced(l.from, l.total, l.marks[id]);
      var k: nat := Max(l.marks[id].lo, m.lo);
      assert Within(k, l.marks[id].lo, l.marks[id].hi) && Within(k, m.lo, m.hi);
    }
    if Meets(l.written, m) {
      var k: nat :| k in l.written && Within(k, m.lo, m.hi);
      var id := CoveredBy(l.marks, k);
      assert Overlap(l.marks[id], m);
    }
  }

  lemma CommitsKeeps(l: Ledger, id: nat)
    requires LedgerOk(l) && id in l.marks && !l.marks[id].committed
    ensures LedgerOk(Commits(l, id))
  {
    assert MarkPlaced(l.from, l.total, l.marks[id]);
    CommitsPlaced(l, id);
    CommitsPending(l, id);
    forall j | j in l.marks && j != id && !l.marks[j].committed
      ensures Commits(l, id).marks[j].hit <==> Meets(Commits(l, id).written, Commits(l, id).marks[j])
    {
      assert MarkPlaced(l.from, l.total, l.marks[j]);
      MeetsMore(l.written, l.marks[id], l.marks[j]);
      assert Meets(Commits(l, id).written, Commits(l, id).marks[j]) <==> Meets(Commits(l, id).written, l.marks[j]);
    }
  }

  lemma MeetsMore(written: seq<nat>, mine: Mark, m: Mark)
    requires mine.lo < mine.hi && m.lo < m.hi
    ensures Meets(written + Range(mine.lo, mine.hi), m) <==> Meets(written, m) || Overlap(m, mine)
  {
    var more := written + Range(mine.lo, mine.hi);
    if Overlap(m, mine) {
      var k: nat := Max(m.lo, mine.lo);
      assert k in more && Within(k, m.lo, m.hi);
    }
    if Meets(written, m) {
      var k: nat :| k in written && Within(k, m.lo, m.hi);
      assert k in more;
    }
  }

  lemma CommitsPlaced(l: Ledger, id: nat)
    requires LedgerOk(l) && id in l.marks && l.marks[id].lo <= l.marks[id].hi
    ensures Placed(Commits(l, id)) && MarksPlaced(Commits(l, id))
  {
    var l1 := Commits(l, id);
    forall j | j in l1.marks ensures MarkPlaced(l1.from, l1.total, l1.marks[j]) {
      assert MarkPlaced(l.from, l.total, l.marks[j]);
    }
  }

  lemma CommitsPending(l: Ledger, id: nat)
    requires LedgerOk(l) && id in l.marks && l.marks[id].lo <= l.marks[id].hi
    ensures Pending(Commits(l, id))
  {
    var l1 := Commits(l, id);
    forall k: nat | k in l1.written && l1.from <= k
      ensures Covered(l1.marks, k)
    {
      if k in l.written {
        var j := CoveredBy(l.marks, k);
        assert l1.marks[j].committed && Within(k, l1.marks[j].lo, l1.marks[j].hi);
      } else {
        assert l1.marks[id].committed && Within(k, l1.marks[id].lo, l1.marks[id].hi);
      }
    }
  }

  lemma DeletesKeeps(l: Ledger, id: nat)
    requires LedgerOk(l) && id in l.marks
    ensures l.marks[id].lo <= l.marks[id].hi && LedgerOk(Deletes(l, id))
  {
    assert MarkPlaced(l.from, l.total, l.marks[id]);
    var l1 := Deletes(l, id);
    forall j | j in l1.marks
      ensures MarkPlaced(l1.from, l1.total, l1.marks[j])
      ensures Meets(l1.written, l1.marks[j]) <==> Meets(l.written, l.marks[j])
    {
      assert MarkPlaced(l.from, l.total, l.marks[j]);
    }
    forall k: nat | k in l1.written && l1.from <= k
      ensures Covered(l1.marks, k)
    {
      var j := CoveredBy(l.marks, k);
      assert l1.marks[j].committed && Within(k, l1.marks[j].lo, l1.marks[j].hi);
    }
  }

  lemma QuitsKeeps(l: Ledger, id: nat)
    requires LedgerOk(l) && id in l.marks && !l.marks[id].committed
    ensures LedgerOk(l.(marks := l.marks - {id}))
  {
    var l1 := l.(marks := l.marks - {id});
    forall k: nat | k in l1.written && l1.from <= k
      ensures Covered(l1.marks, k)
    {
      var j := CoveredBy(l.marks, k);
      assert j in l1.marks && l1.marks[j] == l.marks[j];
    }
  }

  // ---------- the ledger is that of the run ----------

  function Pick(all: seq<Entry>, at: seq<nat>): (r: seq<Entry>)
    requires forall i :: 0 <= i < |at| ==> at[i] < |all|
    ensures |r| == |at| && forall i :: 0 <= i < |r| ==> r[i] == all[at[i]]
  {
    seq(|at|, i requires 0 <= i < |at| => all[at[i]])
  }

  ghost predicate FlightMarked(all: seq<Entry>, f: Flight, m: Mark) {
    f.Flushing? && f.committed == m.committed && m.lo <= m.hi <= |all| && f.batch == all[m.lo..m.hi]
  }

  ghost predicate FlightsMarked(s: State, all: seq<Entry>, l: Ledger) {
    && (forall id :: id in l.marks ==> id in s.flights && FlightMarked(all, s.flights[id], l.marks[id]))
    && (forall id :: id in s.flights && s.flights[id].Flushing? ==> id in l.marks)
  }

  /** The buffer and every batch in flight are stretches of everything deferred, and the flushes wrote just the
      entries of `written`, in that order. */
  ghost predicate Accounts(s: State, all: seq<Entry>, done: seq<Entry>, l: Ledger) {
    && LedgerOk(l)
    && l.total == |all|
    && s.buffer == all[l.from..]
    && FlightsMarked(s, all, l)
    && done == Pick(all, l.written)
  }

  lemma EnqueueSuffix(all: seq<Entry>, from: nat, e: Entry)
    requires from <= |all|
    ensures var kept: nat := Max(from, |all| + 1 - FALLBACK_MAX);
            Enqueue(all[from..], e) == (all + [e])[kept..]
  {
    DropAppend(all, from, [e]);
    var part := (all + [e])[from..];
    LastNIsDrop(part, FALLBACK_MAX);
    DropTwice(all + [e], from, |part| - Min(|part|, FALLBACK_MAX));
  }

  lemma DropAppend<T>(all: seq<T>, from: nat, more: seq<T>)
    requires from <= |all|
    ensures all[from..] + more == (all + more)[from..]
  {}

  lemma DropTwice<T>(s: seq<T>, i: nat, j: nat)
    requires i + j <= |s|
    ensures s[i..][j..] == s[i + j..]
  {}

  /** More entries move no stretch. */
  lemma StretchStays<T>(all: seq<T>, lo: nat, hi: nat, more: seq<T>)
    requires lo <= hi <= |all|
    ensures (all + more)[lo..hi] == all[lo..hi]
  {}

  lemma ArrivesAccounts(s: State, all: seq<Entry>, done: seq<Entry>, l: Ledger, e: Entry)
    requires Accounts(s, all, done, l)
    ensures Accounts(s.(buffer := Enqueue(s.buffer, e)), all + [e], done, Arrives(l))
  {
    ArrivesKeeps(l);
    EnqueueSuffix(all, l.from, e);
    forall id | id in l.marks
      ensures FlightMarked(all + [e], s.flights[id], l.marks[id])
    {
      StretchStays(all, l.marks[id].lo, l.marks[id].hi, [e]);
    }
    assert Pick(all + [e], l.written) == Pick(all, l.written);
  }

  /** A direct write leaves the ledger alone. */
  lemma WritingAccounts(s: State, all: seq<Entry>, done: seq<Entry>, l: Ledger, s1: State)
    requires Accounts(s, all, done, l) && s1.buffer == s.buffer
    requires forall id :: id in l.marks ==> id in s1.flights && s1.flights[id].Flushing?
    requires forall id :: id in l.marks ==> s1.flights[id].batch == s.flights[id].batch
    requires forall id :: id in l.marks ==> s1.flights[id].committed == s.flights[id].committed
    requires forall id :: id in s1.flights && s1.flights[id].Flushing? ==> id in l.marks
    ensures Accounts(s1, all, done, l)
  {}

  lemma CopyAccounts(s: State, all: seq<Entry>, done: seq<Entry>, l: Ledger, id: nat)
    requires Accounts(s, all, done, l) && id !in s.flights && s.buffer != []
    ensures Accounts(s.(flights := s.flights[id := Flushing(s.buffer, None, false)]), all, done, Copies(l, id))
  {
    CopiesKeeps(l, id);
    assert all[l.from..l.total] == all[l.from..];
  }

  lemma CommitAccounts(s: State, all: seq<Entry>, done: seq<Entry>, l: Ledger, id: nat, rows: seq<Row>)
    requires Accounts(s, all, done, l) && Open(s, id) && s.flights[id].Flushing?
    ensures Known(l, id) && Accounts(State(rows, s.buffer, s.flights[id := s.flights[id].(committed := true)]), all,
                                     done + s.flights[id].batch, Commits(l, id))
  {
    CommitsKeeps(l, id);
    PickRange(all, l.written, l.marks[id].lo, l.marks[id].hi);
  }

  lemma PickRange(all: seq<Entry>, written: seq<nat>, lo: nat, hi: nat)
    requires lo <= hi <= |all| && forall i :: 0 <= i < |written| ==> written[i] < |all|
    ensures Pick(all, written + Range(lo, hi)) == Pick(all, written) + all[lo..hi]
  {}

  lemma DeleteAccounts(s: State, all: seq<Entry>, done: seq<Entry>, l: Ledger, id: nat)
    requires Accounts(s, all, done, l) && CanDelete(s, id)
    ensures Known(l, id) && Accounts(State(s.rows, Deleted(s.buffer, |s.flights[id].batch|), s.flights - {id}), all,
                                     done, Deletes(l, id))
  {
    DeletesKeeps(l, id);
    var n := |s.flights[id].batch|;
    if n < |s.buffer| {
      DropTwice(all, l.from, n);
    }
  }

  lemma FailAccounts(s: State, all: seq<Entry>, done: seq<Entry>, l: Ledger, id: nat)
    requires Accounts(s, all, done, l) && Open(s, id) && s.flights[id].Flushing?
    ensures Accounts(s.(flights := s.flights - {id}), all, done, l.(marks := l.marks - {id}))
  {
    QuitsKeeps(l, id);
  }

  lemma AdvanceAccounts(h: (Entry, Hash) -> Hash, s: State, all: seq<Entry>, done: seq<Entry>, l: Ledger, op: Op)
    requires Accounts(s, all, done, l)
    ensures Accounts(Apply(h, s, op), all + Deferred(s, op), done + Flushed(s, op), Advance(s, l, op))
  {
    assert all + [] == all && done + [] == done;
    match op
    case Defer(e) => ArrivesAccounts(s, all, done, l, e);
    case Copy(id) => if id !in s.flights && s.buffer != [] { CopyAccounts(s, all, done, l, id); }
    case Commit(id, fails) => if CanCommit(s, id) { CommitStep(h, s, all, done, l, id, fails); }
    case Delete(id) => if CanDelete(s, id) { DeleteAccounts(s, all, done, l, id); }
    case Fail(id) => if Open(s, id) { FailStep(h, s, all, done, l, id); }
    case _ => WritingAccounts(s, all, done, l, Apply(h, s, op));
  }

  lemma CommitStep(h: (Entry, Hash) -> Hash, s: State, all: seq<Entry>, done: seq<Entry>, l: Ledger, id: nat,
                   fails: set<nat>)
    requires Accounts(s, all, done, l) && CanCommit(s, id)
    ensures var op := Commit(id, fails); Accounts(Apply(h, s, op), all, done + Flushed(s, op), Advance(s, l, op))
  {
    if s.flights[id].Writing? {
      assert done + [] == done;
      WritingAccounts(s, all, done, l, Apply(h, s, Commit(id, fails)));
    } else {
      CommitAccounts(s, all, done, l, id, s.rows + Added(h, s.flights[id], fails));
    }
  }

  lemma FailStep(h: (Entry, Hash) -> Hash, s: State, all: seq<Entry>, done: seq<Entry>, l: Ledger, id: nat)
    requires Accounts(s, all, done, l) && Open(s, id)
    ensures Accounts(Apply(h, s, Fail(id)), all + Deferred(s, Fail(id)), done, Advance(s, l, Fail(id)))
  {
    if s.flights[id].Writing? {
      WritingAccounts(s, all, done, l, s.(flights := s.flights - {id}));
      ArrivesAccounts(s.(flights := s.flights - {id}), all, done, l, s.flights[id].entry);
    } else {
      assert all + [] == all;
      FailAccounts(s, all, done, l, id);
    }
  }

  /** Over every run, whatever overlaps: the buffer and every batch in flight are stretches of everything deferred,
      the flushes wrote just the entries the ledger says, and each entry that has left the buffer was written, pushed
      out past 500, or deleted by a flush unwritten. */
  lemma {:induction false} RunsAccount(h: (Entry, Hash) -> Hash, ops: seq<Op>)
    ensures Accounts(Run(h, ops), AllDeferred(h, ops), AllFlushed(h, ops), Book(h, ops))
  {
    if ops != [] {
      var n := |ops| - 1;
      RunsAccount(h, ops[..n]);
      var before := ops[..n];
      AdvanceAccounts(h, Run(h, before), AllDeferred(h, before), AllFlushed(h, before), Book(h, before), ops[n]);
    }
  }

  // ---------- exactly once, in order ----------

  /** In every reachable state: a commit that is due would write an entry again exactly when another flush committed one
      of them, since its copy or without having deleted by then. */
  lemma WritesTwiceIff(h: (Entry, Hash) -> Hash, ops: seq<Op>, id: nat)
    requires id in Book(h, ops).marks && !Book(h, ops).marks[id].committed
    ensures Meets(Book(h, ops).written, Book(h, ops).marks[id]) <==> Book(h, ops).marks[id].hit
  {
    RunsAccount(h, ops);
  }

  /** A deletion takes an unwritten entry exactly when it reaches past what the flushes in flight have committed. */
  lemma DropsIff(l: Ledger, id: nat)
    requires LedgerOk(l) && Known(l, id)
    ensures Unwritten(l, l.from, End(l, l.marks[id])) == {} <==>
            forall k: nat :: l.from <= k < End(l, l.marks[id]) ==> Covered(l.marks, k)
  {
    var end := End(l, l.marks[id]);
    if Unwritten(l, l.from, end) == {} {
      forall k: nat | l.from <= k < end
        ensures Covered(l.marks, k)
      {
        assert k !in Unwritten(l, l.from, end);
      }
    } else {
      var k :| k in Unwritten(l, l.from, end);
      if Covered(l.marks, k) {
        var j := CoveredBy(l.marks, k);
        assert false;
      }
    }
  }

  /** With no other commit waiting for its deletion, a deletion takes an unwritten entry exactly when the front of the
      buffer has moved since the copy, the buffer is not empty, and something arrived after the copy; the front has
      moved exactly when another flush deleted since or batch and arrivals exceed the bound. */
  lemma LoneDropsIff(l: Ledger, id: nat)
    requires LedgerOk(l) && id in l.marks && l.marks[id].committed && Known(l, id)
    requires forall j :: j in l.marks && l.marks[j].committed ==> j == id
    ensures var m := l.marks[id];
            && (Unwritten(l, l.from, End(l, m)) != {} <==> l.from > m.lo && l.from < l.total && m.hi < l.total)
            && (l.from > m.lo <==> m.moved || l.total - m.lo > FALLBACK_MAX)
  {
    var m := l.marks[id];
    assert MarkPlaced(l.from, l.total, m);
    DropsIff(l, id);
    if l.from > m.lo && l.from < l.total && m.hi < l.total {
      var k: nat := Max(l.from, m.hi);
      if Covered(l.marks, k) {
        var j := CoveredBy(l.marks, k);
        assert false;
      }
    } else {
      forall k: nat | l.from <= k < End(l, m)
        ensures Covered(l.marks, k)
      {
        assert Within(k, m.lo, m.hi);
      }
    }
  }

  predicate Distinct(s: seq<nat>) { forall i, j :: 0 <= i < j < |s| ==> s[i] != s[j] }

  lemma SameAt(a: seq<nat>, b: seq<nat>, i: nat, j: nat)
    requires i < |a| && j < |b| && a[i] == b[j]
    ensures !Distinct(a + b)
  {
    assert (a + b)[i] == (a + b)[|a| + j];
  }

  lemma DistinctMore(written: seq<nat>, m: Mark)
    requires m.lo <= m.hi
    ensures Distinct(written + Range(m.lo, m.hi)) <==> Distinct(written) && !Meets(written, m)
  {
    var r := Range(m.lo, m.hi);
    var all := written + r;
    if Distinct(all) {
      forall i, j | 0 <= i < j < |written| ensures written[i] != written[j] {
        assert all[i] == written[i] && all[j] == written[j];
      }
      if Meets(written, m) {
        var k: nat :| k in written && Within(k, m.lo, m.hi);
        var i :| 0 <= i < |written| && written[i] == k;
        SameAt(written, r, i, k - m.lo);
        assert false;
      }
    } else {
      var i, j :| 0 <= i < j < |all| && all[i] == all[j];
      if !Meets(written, m) && i < |written| <= j {
        assert written[i] in written && Within(written[i], m.lo, m.hi);
        assert false;
      }
    }
  }

  ghost predicate CleanStep(s: State, l: Ledger, op: Op) {
    match op
    case Commit(id, _) => CanCommit(s, id) && Known(l, id) ==> !l.marks[id].hit
    case Delete(id) =>
      CanDelete(s, id) && Known(l, id) ==>
        forall k: nat :: l.from <= k < End(l, l.marks[id]) ==> Covered(l.marks, k)
    case _ => true
  }

  ghost predicate CleanRun(h: (Entry, Hash) -> Hash, ops: seq<Op>) {
    ops == [] || (CleanRun(h, ops[..|ops| - 1])
                  && CleanStep(Run(h, ops[..|ops| - 1]), Book(h, ops[..|ops| - 1]), ops[|ops| - 1]))
  }

  predicate OnceEach(l: Ledger) { Distinct(l.written) && l.dropped == {} }

  lemma StepCleanIff(s: State, all: seq<Entry>, done: seq<Entry>, l: Ledger, op: Op)
    requires Accounts(s, all, done, l)
    ensures OnceEach(Advance(s, l, op)) <==> OnceEach(l) && CleanStep(s, l, op)
  {
    match op
    case Commit(id, _) =>
      if CanCommit(s, id) && Known(l, id) {
        assert Meets(l.written, l.marks[id]) <==> l.marks[id].hit;
        DistinctMore(l.written, l.marks[id]);
      }
    case Delete(id) =>
      if CanDelete(s, id) && Known(l, id) {
        DropsIff(l, id);
      }
    case _ =>
  }

  /** Over every run: no deferred entry is written twice and none is deleted unwritten if and only if no commit met an
      entry another flush had committed and no deletion reached past the commits in flight. */
  lemma {:induction false} OnceEachIff(h: (Entry, Hash) -> Hash, ops: seq<Op>)
    ensures OnceEach(Book(h, ops)) <==> CleanRun(h, ops)
  {
    if ops != [] {
      var n := |ops| - 1;
      OnceEachIff(h, ops[..n]);
      RunsAccount(h, ops[..n]);
      StepCleanIff(Run(h, ops[..n]), AllDeferred(h, ops[..n]), AllFlushed(h, ops[..n]), Book(h, ops[..n]), ops[n]);
    }
  }

  // ---------- flushes that do not overlap ----------

  /** No other flush deleted since the copy, and the batch and what arrived after it fit the bound. */
  predicate Undisturbed(l: Ledger, id: nat)
    requires Known(l, id)
  {
    !l.marks[id].moved && l.total - l.marks[id].lo <= FALLBACK_MAX
  }

  predicate QuietStep(s: State, l: Ledger, op: Op) {
    match op
    case Commit(id, _) =>
      CanCommit(s, id) && Known(l, id) ==>
        Undisturbed(l, id) && forall j :: j in l.marks ==> !l.marks[j].committed
    case Delete(id) => CanDelete(s, id) && Known(l, id) ==> Undisturbed(l, id)
    case _ => true
  }

  predicate QuietRun(h: (Entry, Hash) -> Hash, ops: seq<Op>) {
    ops == [] || (QuietRun(h, ops[..|ops| - 1])
                  && QuietStep(Run(h, ops[..|ops| - 1]), Book(h, ops[..|ops| - 1]), ops[|ops| - 1]))
  }

  predicate Ascending(s: seq<nat>) { forall i, j :: 0 <= i < j < |s| ==> s[i] < s[j] }

  /** Written once each, in order; what has left the buffer was either written or pushed out past 500. */
  ghost predicate Settled(l: Ledger) {
    && Ascending(l.written)
    && l.dropped == {}
    && forall k: nat :: k in l.written ==> k !in l.evicted
  }

  lemma QuietCommitSettles(l: Ledger, id: nat)
    requires LedgerOk(l) && Settled(l) && Known(l, id) && Undisturbed(l, id)
    requires forall j :: j in l.marks ==> !l.marks[j].committed
    ensures Settled(Commits(l, id))
  {
    assert MarkPlaced(l.from, l.total, l.marks[id]);
    forall i | 0 <= i < |l.written|
      ensures l.written[i] < l.from
    {
      if l.from <= l.written[i] {
        assert l.written[i] in l.written;
        var j := CoveredBy(l.marks, l.written[i]);
        assert false;
      }
    }
  }

  lemma QuietDeleteSettles(l: Ledger, id: nat)
    requires LedgerOk(l) && Settled(l) && Known(l, id) && Undisturbed(l, id) && l.marks[id].committed
    ensures Settled(Deletes(l, id)) && Deletes(l, id).from == l.marks[id].hi
  {
    assert MarkPlaced(l.from, l.total, l.marks[id]);
    forall k: nat | l.from <= k < End(l, l.marks[id])
      ensures Covered(l.marks, k)
    {
      assert Within(k, l.marks[id].lo, l.marks[id].hi);
    }
    DropsIff(l, id);
  }

  lemma QuietStepSettles(s: State, all: seq<Entry>, done: seq<Entry>, l: Ledger, op: Op)
    requires Accounts(s, all, done, l) && Settled(l) && QuietStep(s, l, op)
    ensures Settled(Advance(s, l, op))
  {
    match op
    case Commit(id, _) => if CanCommit(s, id) && Known(l, id) { QuietCommitSettles(l, id); }
    case Delete(id) => if CanDelete(s, id) && Known(l, id) { QuietDeleteSettles(l, id); }
    case _ =>
  }

  /** When each flush commits and deletes with no other flush between copy and deletion and within the bound, every
      entry is written at most once, in the order it was deferred, and none is deleted unwritten. */
  lemma {:induction false} QuietRunsSettle(h: (Entry, Hash) -> Hash, ops: seq<Op>)
    requires QuietRun(h, ops)
    ensures Settled(Book(h, ops))
  {
    if ops != [] {
      var n := |ops| - 1;
      QuietRunsSettle(h, ops[..n]);
      RunsAccount(h, ops[..n]);
      QuietStepSettles(Run(h, ops[..n]), AllDeferred(h, ops[..n]), AllFlushed(h, ops[..n]), Book(h, ops[..n]), ops[n]);
    }
  }

  // ---------- flushes that do not commit ----------

  predicate About(op: Op, id: nat) { !op.Defer? && op.id == id }

  function Without(ops: seq<Op>, id: nat): seq<Op> {
    if ops == [] then []
    else Without(ops[..|ops| - 1], id) + if About(ops[|ops| - 1], id) then [] else [ops[|ops| - 1]]
  }

  /** A flush that does not commit is invisible, wherever its steps fall: table, buffer and all other flights are those
      of the run without it. */
  lemma {:induction false} FailedFlushInvisible(h: (Entry, Hash) -> Hash, ops: seq<Op>, id: nat)
    requires forall i :: 0 <= i < |ops| && About(ops[i], id) ==> ops[i].Copy? || ops[i].Read? || ops[i].Fail?
    ensures var s, s1 := Run(h, ops), Run(h, Without(ops, id));
            && s1 == s.(flights := s.flights - {id})
            && (id in s.flights ==> s.flights[id].Flushing? && !s.flights[id].committed)
  {
    if ops != [] {
      var n := |ops| - 1;
      FailedFlushInvisible(h, ops[..n], id);
      if About(ops[n], id) {
        assert Without(ops, id) == Without(ops[..n], id);
        HiddenStep(h, Run(h, ops[..n]), ops[n], id);
      } else {
        RunStep(h, Without(ops[..n], id), ops[n]);
        OtherStep(h, Run(h, ops[..n]), ops[n], id);
      }
    }
  }

  lemma HiddenStep(h: (Entry, Hash) -> Hash, s: State, op: Op, id: nat)
    requires About(op, id) && (op.Copy? || op.Read? || op.Fail?)
    requires id in s.flights ==> s.flights[id].Flushing? && !s.flights[id].committed
    ensures var t := Apply(h, s, op);
            && t.rows == s.rows && t.buffer == s.buffer && t.flights - {id} == s.flights - {id}
            && (id in t.flights ==> t.flights[id].Flushing? && !t.flights[id].committed)
  {}

  lemma OtherStep(h: (Entry, Hash) -> Hash, s: State, op: Op, id: nat)
    requires !About(op, id)
    ensures var s1 := s.(flights := s.flights - {id});
            Apply(h, s1, op) == Apply(h, s, op).(flights := Apply(h, s, op).flights - {id})
    ensures id in Apply(h, s, op).flights <==> id in s.flights
    ensures id in s.flights ==> Apply(h, s, op).flights[id] == s.flights[id]
  {}

  /** Two flushes copy the same entry: it is written twice, both rows linked to the same hash, and the second flush
      deletes an entry that arrived in between, which no row holds. The buffer never held more than one entry. */
  lemma TwoFlushesLose(h: (Entry, Hash) -> Hash, x: Entry, y: Entry)
    requires x != y
    ensures var ops := [Defer(x), Copy(0), Copy(1), Read(0, true), Read(1, true), Commit(0, {}), Delete(0), Defer(y),
                        Commit(1, {}), Delete(1)];
            var row := Row(x, GENESIS, h(x, GENESIS));
            Run(h, ops) == State([row, row], [], map[])
  {
    var row := Row(x, GENESIS, h(x, GENESIS));
    OneRow(h, x);
    var a, b := Flushing([x], None, false), Flushing([x], Some(GENESIS), false);
    var o1 := [Defer(x)];
    RunStep(h, [], Defer(x));
    assert [] + o1 == o1 && Run(h, o1) == State([], [x], map[]);
    var o3 := o1 + [Copy(0)] + [Copy(1)];
    RunStep(h, o1, Copy(0));
    RunStep(h, o1 + [Copy(0)], Copy(1));
    assert Run(h, o3) == State([], [x], map[0 := a, 1 := a]);
    var o5 := o3 + [Read(0, true)] + [Read(1, true)];
    RunStep(h, o3, Read(0, true));
    RunStep(h, o3 + [Read(0, true)], Read(1, true));
    assert Run(h, o5) == State([], [x], map[0 := b, 1 := b]);
    var o7 := o5 + [Commit(0, {})] + [Delete(0)];
    RunStep(h, o5, Commit(0, {}));
    RunStep(h, o5 + [Commit(0, {})], Delete(0));
    assert Run(h, o7) == State([row], [], map[1 := b]);
    var o8 := o7 + [Defer(y)];
    RunStep(h, o7, Defer(y));
    assert Run(h, o8) == State([row], [y], map[1 := b]);
    RunStep(h, o8, Commit(1, {}));
    RunStep(h, o8 + [Commit(1, {})], Delete(1));
    assert o8 + [Commit(1, {})] + [Delete(1)]
        == [Defer(x), Copy(0), Copy(1), Read(0, true), Read(1, true), Commit(0, {}), Delete(0), Defer(y),
            Commit(1, {}), Delete(1)];
  }

  lemma OneRow(h: (Entry, Hash) -> Hash, x: Entry)
    ensures Linked(h, GENESIS, [x], {}) == [Row(x, GENESIS, h(x, GENESIS))]
  {
    assert [x][..0] == [];
    assert Linked(h, GENESIS, [], {}) == [];
  }

  // ---------- the log itself ----------

  /** Table and buffer, which all coroutines share; what a coroutine holds in its local variables between two awaits
      is passed in and out, and `flights` records it. */
  class AuditLog {
    var rows: seq<Row>
    var buffer: seq<Entry>
    ghost var flights: map<nat, Flight>

    constructor ()
      ensures Now() == State([], [], map[])
    {
      rows, buffer, flights := [], [], map[];
    }

    ghost function Now(): State
      reads this
    {
      State(rows, buffer, flights)
    }

    method EnqueueFallback(h: (Entry, Hash) -> Hash, e: Entry)
      modifies this`buffer
      ensures Now() == Apply(h, old(Now()), Defer(e))
    {
      buffer := buffer + [e];
      if |buffer| > FALLBACK_MAX {
        buffer := buffer[|buffer| - FALLBACK_MAX..];
      }
    }

    /** The hash the next row links to; a failed query starts again from genesis. */
    method LatestRowHash(h: (Entry, Hash) -> Hash, ghost id: nat, ok: bool) returns (tip: Hash)
      requires id in flights && flights[id].tip.None?
      modifies this`flights
      ensures Now() == Apply(h, old(Now()), Read(id, ok)) && flights[id].tip == Some(tip)
    {
      tip := GENESIS;
      if ok && rows != [] && rows[|rows| - 1].hash != "" {
        tip := rows[|rows| - 1].hash;
      }
      flights := flights[id := flights[id].(tip := Some(tip))];
    }

    /** The commit of a direct write that read `tip`. */
    method PersistEntry(h: (Entry, Hash) -> Hash, ghost id: nat, e: Entry, tip: Hash, fails: set<nat>)
      requires id in flights && flights[id] == Writing(e, Some(tip))
      modifies this`rows, this`flights
      ensures Now() == Apply(h, old(Now()), Commit(id, fails))
    {
      var row := Row(e, "", "");
      if 0 !in fails {
        row := Row(e, tip, h(e, OrGenesis(tip)));
      }
      rows := rows + [row];
      flights := flights - {id};
    }

    /** A direct write that raised leaves its entry in the buffer. */
    method PersistFails(h: (Entry, Hash) -> Hash, ghost id: nat, e: Entry)
      requires id in flights && flights[id].Writing? && flights[id].entry == e
      modifies this`buffer, this`flights
      ensures Now() == Apply(h, old(Now()), Fail(id))
    {
      EnqueueFallback(h, e);
      flights := flights - {id};
    }

    /** Up to the first await of a flush: none of it happens on an empty buffer. */
    method BeginFlush(h: (Entry, Hash) -> Hash, ghost id: nat) returns (batch: seq<Entry>)
      requires id !in flights
      modifies this`flights
      ensures Now() == Apply(h, old(Now()), Copy(id)) && batch == buffer
    {
      batch := buffer;
      if buffer != [] {
        flights := flights[id := Flushing(batch, None, false)];
      }
    }

    /** The rows of a batch, each linked to the one before. */
    method LinkBatch(h: (Entry, Hash) -> Hash, tip: Hash, batch: seq<Entry>, fails: set<nat>)
        returns (added: seq<Row>, n: nat)
      ensures added == Linked(h, tip, batch, fails) && n == |batch|
    {
      var prev := tip;
      n, added := 0, [];
      while n < |batch|
        invariant 0 <= n <= |batch|
        invariant added == Linked(h, tip, batch[..n], fails)
        invariant prev == Tip(h, tip, batch[..n], fails)
      {
        assert batch[..n + 1][..n] == batch[..n];
        var rowHash := FlushHash(h, prev, batch[n], n in fails);
        added := added + [Row(batch[n], prev, rowHash)];
        prev := if rowHash == "" then prev else rowHash;
        n := n + 1;
      }
      assert batch[..n] == batch;
    }

    method CommitFlush(h: (Entry, Hash) -> Hash, ghost id: nat, batch: seq<Entry>, tip: Hash, fails: set<nat>)
        returns (n: nat)
      requires id in flights && flights[id] == Flushing(batch, Some(tip), false)
      modifies this`rows, this`flights
      ensures Now() == Apply(h, old(Now()), Commit(id, fails)) && n == |batch|
    {
      var added: seq<Row>;
      added, n := LinkBatch(h, tip, batch, fails);
      rows := rows + added;
      flights := flights[id := Flushing(batch, Some(tip), true)];
    }

    /** After the commit: as many entries as were written leave the front of the buffer, whatever it holds by then. */
    method DequeueFlushed(h: (Entry, Hash) -> Hash, ghost id: nat, n: nat)
      requires id in flights && flights[id].Flushing? && flights[id].committed && n == |flights[id].batch|
      modifies this`buffer, this`flights
      ensures Now() == Apply(h, old(Now()), Delete(id))
    {
      buffer := Deleted(buffer, n);
      flights := flights - {id};
    }
  }
}
