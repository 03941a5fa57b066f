/** Idempotent event storage: a batch insert with rollback and per-item fallback, against one-by-one inserts.
    Other writers may insert rows wherever a call awaits: between lookup and commit, and between items. */
module EventStore {
  import opened Common

  /** What a caller hands in. An empty `eventId` means the event has none. */
  datatype Item = Item(eventId: string, session: string, score: real, correlation: string, data: string)

  function Upstream(it: Item): Option<string> {
    if it.eventId == "" then None else Some(it.eventId)
  }

  datatype Row = Row(id: nat, upstream: Option<string>, item: Item, analyzed: bool)

  /** The `security_events` table with its id sequence. */
  datatype Table = Table(rows: seq<Row>, nextId: nat)

  /** What a call returns for one item: the row it stands for, by position, and the `analyzed` flag it reports. */
  datatype Stored = Stored(pos: nat, id: nat, created: bool, item: Item, analyzed: bool)

  predicate Has(t: Table, e: Option<string>) {
    e.Some? && exists i :: 0 <= i < |t.rows| && t.rows[i].upstream == e
  }

  /** The first row with this upstream id. */
  function Find(rows: seq<Row>, e: string): (p: nat)
    ensures p <= |rows|
    ensures p < |rows| ==> rows[p].upstream == Some(e)
    ensures forall i :: 0 <= i < p ==> rows[i].upstream != Some(e)
  {
    if rows == [] || rows[0].upstream == Some(e) then 0
    else
      assert forall i :: 0 <= i < |rows[1..]| ==> rows[1..][i] == rows[i + 1];
      1 + Find(rows[1..], e)
  }

  /** The unique index on `event_id`, and surrogate ids from the sequence. */
  ghost predicate Valid(t: Table) {
    && (forall i, j :: 0 <= i < j < |t.rows| && t.rows[i].upstream.Some? ==> t.rows[i].upstream != t.rows[j].upstream)
    && (forall i, j :: 0 <= i < j < |t.rows| ==> t.rows[i].id != t.rows[j].id)
    && (forall i :: 0 <= i < |t.rows| ==> t.rows[i].id < t.nextId)
  }

  /** Later states of the table, as far as other writers are concerned: rows are only added. */
  ghost predicate Extends(t0: Table, t1: Table) {
    Valid(t1) && t0.rows <= t1.rows && t0.nextId <= t1.nextId
  }

  function Insert(t: Table, it: Item): Table {
    Table(t.rows + [Row(t.nextId, Upstream(it), it, false)], t.nextId + 1)
  }

  /** A rolled-back insert may leave a gap in the id sequence. */
  function Burn(t: Table, n: nat): Table { t.(nextId := t.nextId + n) }

  function FreshResult(t: Table, it: Item): Stored { Stored(|t.rows|, t.nextId, true, it, false) }

  /** `get_by_upstream_id` reports the stored row, with `analyzed` at its default. */
  function FoundResult(t: Table, e: string): Stored
    requires Has(t, Some(e))
  {
    var p := Find(t.rows, e);
    Stored(p, t.rows[p].id, false, t.rows[p].item, false)
  }

  /** `_to_stored` reports the row's own flag. */
  function FoundInBatch(t: Table, e: string): Stored
    requires Has(t, Some(e))
  {
    var p := Find(t.rows, e);
    Stored(p, t.rows[p].id, false, t.rows[p].item, t.rows[p].analyzed)
  }

  // ---------- one item ----------

  /** The sequential meaning of `store`: reuse the row of this upstream id, or add one. */
  function StoreOne(t: Table, it: Item): (Table, Stored) {
    var e := Upstream(it);
    if Has(t, e) then (t, FoundResult(t, e.value)) else (Insert(t, it), FreshResult(t, it))
  }

  /** `store` as coded: look up in t0, insert into what the table is by then, and on a conflict look up again. */
  function StoreRacing(t0: Table, t1: Table, it: Item, burn: nat): (Table, Stored) {
    var e := Upstream(it);
    if Has(t0, e) then (t1, FoundResult(t0, e.value))
    else if Has(t1, e) then (Burn(t1, burn), FoundResult(t1, e.value))
    else (Insert(t1, it), FreshResult(t1, it))
  }

  // ---------- many items ----------

  function Fold(t: Table, its: seq<Item>): (r: (Table, seq<Stored>))
    ensures |r.1| == |its|
  {
    if its == [] then (t, [])
    else
      var (t', rs) := Fold(t, its[..|its| - 1]);
      var (t'', r) := StoreOne(t', its[|its| - 1]);
      (t'', rs + [r])
  }

  /** Items whose id was not found by the batch's single lookup. */
  predicate IsNew(t0: Table, it: Item) { !Has(t0, Upstream(it)) }

  /** The one commit fails when a new item's id is in the table by then, or twice among the new items. */
  predicate Conflict(t0: Table, t1: Table, its: seq<Item>) {
    exists i :: 0 <= i < |its| && IsNew(t0, its[i]) && Upstream(its[i]).Some?
      && (Has(t1, Upstream(its[i])) || exists j :: 0 <= j < i && Upstream(its[j]) == Upstream(its[i]))
  }

  /** All new items inserted, in order. */
  function InsertNew(t0: Table, t1: Table, its: seq<Item>): Table {
    if its == [] then t1
    else
      var it := its[|its| - 1];
      var t := InsertNew(t0, t1, its[..|its| - 1]);
      if IsNew(t0, it) then Insert(t, it) else t
  }

  function BatchResults(t0: Table, t1: Table, its: seq<Item>): (r: seq<Stored>)
    ensures |r| == |its|
  {
    if its == [] then []
    else
      var it := its[|its| - 1];
      var before := its[..|its| - 1];
      BatchResults(t0, t1, before)
      + [if IsNew(t0, it) then FreshResult(InsertNew(t0, t1, before), it) else FoundInBatch(t0, Upstream(it).value)]
  }

  /** What other writers store around one item of the fallback: before its lookup, and between lookup and commit. */
  datatype Gap = Gap(before: seq<Item>, during: seq<Item>, burn: nat)

  /** One `store` of the fallback. */
  function StoreInGap(t: Table, it: Item, gap: Gap): (Table, Stored) {
    var seen := Fold(t, gap.before).0;
    StoreRacing(seen, Fold(seen, gap.during).0, it, gap.burn)
  }

  /** Every item through `store`, with other writers in all gaps. */
  function FoldRacing(t: Table, its: seq<Item>, gaps: seq<Gap>): (r: (Table, seq<Stored>))
    requires |gaps| == |its|
    ensures |r.1| == |its|
  {
    if its == [] then (t, [])
    else
      var n := |its| - 1;
      var (t1, rs) := FoldRacing(t, its[..n], gaps[..n]);
      var (t2, r) := StoreInGap(t1, its[n], gaps[n]);
      (t2, rs + [r])
  }

  /** The items of all writers in the order of their commits. */
  function Woven(its: seq<Item>, gaps: seq<Gap>): seq<Item>
    requires |gaps| == |its|
  {
    if its == [] then []
    else
      var n := |its| - 1;
      Woven(its[..n], gaps[..n]) + gaps[n].before + gaps[n].during + [its[n]]
  }

  /** `store_batch`: t0 is what its lookup saw, t1 what its commit met; the gaps are those of the fallback. */
  function StoreBatch(t0: Table, t1: Table, its: seq<Item>, burn: nat, gaps: seq<Gap>): (Table, seq<Stored>)
    requires |gaps| == |its|
  {
    if Conflict(t0, t1, its) then FoldRacing(Burn(t1, burn), its, gaps)
    else (InsertNew(t0, t1, its), BatchResults(t0, t1, its))
  }

  // ---------- basic facts ----------

  lemma InsertValid(t: Table, it: Item)
    requires Valid(t) && !Has(t, Upstream(it))
    ensures Valid(Insert(t, it)) && Extends(t, Insert(t, it))
  {}

  lemma StoreOneExtends(t: Table, it: Item)
    requires Valid(t)
    ensures Extends(t, StoreOne(t, it).0) && (Upstream(it).Some? ==> Has(StoreOne(t, it).0, Upstream(it)))
  {
    if !Has(t, Upstream(it)) {
      InsertValid(t, it);
      var t' := Insert(t, it);
      assert t'.rows[|t.rows|].upstream == Upstream(it);
    }
  }

  lemma {:induction false} FoldExtends(t: Table, its: seq<Item>)
    requires Valid(t)
    ensures Extends(t, Fold(t, its).0)
  {
    if its != [] {
      var n := |its| - 1;
      FoldExtends(t, its[..n]);
      StoreOneExtends(Fold(t, its[..n]).0, its[n]);
    }
  }

  /** Lookups agree in every later table. */
  lemma FindStable(t0: Table, t1: Table, e: string)
    requires Extends(t0, t1) && Has(t0, Some(e))
    ensures Has(t1, Some(e)) && Find(t1.rows, e) == Find(t0.rows, e) < |t0.rows|
    ensures t1.rows[Find(t1.rows, e)] == t0.rows[Find(t0.rows, e)]
  {
    var i :| 0 <= i < |t0.rows| && t0.rows[i].upstream == Some(e);
    assert t1.rows[i] == t0.rows[i];
    var p0, p1 := Find(t0.rows, e), Find(t1.rows, e);
    assert p0 <= i && p1 <= i;
    assert t1.rows[p0] == t0.rows[p0] && t1.rows[p1] == t0.rows[p1];
  }

  // ---------- store is atomic ----------

  /** Whatever other writers do between the lookup and the commit, `store` acts as one step on the later table. */
  lemma StoreLinearizes(t0: Table, t1: Table, it: Item, burn: nat)
    requires Extends(t0, t1)
    ensures StoreRacing(t0, t1, it, burn).1 == StoreOne(t1, it).1
    ensures StoreRacing(t0, t1, it, burn).0.rows == StoreOne(t1, it).0.rows
    ensures Extends(t1, StoreRacing(t0, t1, it, burn).0)
  {
    var e := Upstream(it);
    if Has(t0, e) { FindStable(t0, t1, e.value); }
    StoreOneExtends(t1, it);
  }

  // ---------- the batch refines the fold ----------

  lemma ConflictGrows(t0: Table, t1: Table, its: seq<Item>)
    requires its != [] && Conflict(t0, t1, its[..|its| - 1])
    ensures Conflict(t0, t1, its)
  {
    var pre := its[..|its| - 1];
    var i :| 0 <= i < |pre| && IsNew(t0, pre[i]) && Upstream(pre[i]).Some?
      && (Has(t1, Upstream(pre[i])) || exists j :: 0 <= j < i && Upstream(pre[j]) == Upstream(pre[i]));
    assert its[i] == pre[i];
    if !Has(t1, Upstream(pre[i])) {
      var j :| 0 <= j < i && Upstream(pre[j]) == Upstream(pre[i]);
      assert its[j] == pre[j];
    }
  }

  /** The ids in the table after the inserts are those of t1 and of the new items. */
  lemma {:induction false} InsertNewHas(t0: Table, t1: Table, its: seq<Item>, e: Option<string>)
    requires Has(InsertNew(t0, t1, its), e)
    ensures Has(t1, e) || exists j :: 0 <= j < |its| && Upstream(its[j]) == e
  {
    if its != [] {
      var n := |its| - 1;
      var t := InsertNew(t0, t1, its[..n]);
      var i :| 0 <= i < |InsertNew(t0, t1, its).rows| && InsertNew(t0, t1, its).rows[i].upstream == e;
      if i < |t.rows| {
        assert Has(t, e);
        InsertNewHas(t0, t1, its[..n], e);
        if !Has(t1, e) {
          var j :| 0 <= j < |its[..n]| && Upstream(its[..n][j]) == e;
          assert Upstream(its[j]) == e;
        }
      } else {
        assert Upstream(its[n]) == e;
      }
    }
  }

  /** A new item whose id is already there when its turn comes is a conflict. */
  lemma TakenMeansConflict(t0: Table, t1: Table, its: seq<Item>)
    requires its != [] && IsNew(t0, its[|its| - 1])
    requires Has(InsertNew(t0, t1, its[..|its| - 1]), Upstream(its[|its| - 1]))
    ensures Conflict(t0, t1, its)
  {
    var n := |its| - 1;
    var pre, e := its[..n], Upstream(its[n]);
    InsertNewHas(t0, t1, pre, e);
    if !Has(t1, e) {
      var j :| 0 <= j < |pre| && Upstream(pre[j]) == e;
      assert Upstream(its[j]) == Upstream(its[n]);
    }
  }

  /** Same row, same content; only the `analyzed` flag of a found row may differ. */
  predicate SameButFlag(a: Stored, b: Stored) { a.(analyzed := false) == b.(analyzed := false) }

  /** Without a conflict the batch leaves the very table the fold leaves, ids included, and returns the same rows. */
  lemma {:induction false} BatchIsFold(t0: Table, t1: Table, its: seq<Item>)
    requires Valid(t0) && Extends(t0, t1) && !Conflict(t0, t1, its)
    ensures InsertNew(t0, t1, its) == Fold(t1, its).0
    ensures forall i :: 0 <= i < |its| ==> SameButFlag(BatchResults(t0, t1, its)[i], Fold(t1, its).1[i])
  {
    if its != [] {
      var n := |its| - 1;
      var it, pre := its[n], its[..n];
      if Conflict(t0, t1, pre) { ConflictGrows(t0, t1, its); }
      BatchIsFold(t0, t1, pre);
      FoldExtends(t1, pre);
      var t := Fold(t1, pre).0;
      var e := Upstream(it);
      if IsNew(t0, it) {
        if Has(t, e) { TakenMeansConflict(t0, t1, its); }
      } else {
        FindStable(t0, t1, e.value);
        FindStable(t1, t, e.value);
      }
    }
  }

  /** Rows up to surrogate ids. */
  predicate SameRow(a: Row, b: Row) { a.(id := 0) == b.(id := 0) }

  ghost predicate SameContent(a: Table, b: Table) {
    |a.rows| == |b.rows| && forall i :: 0 <= i < |a.rows| ==> SameRow(a.rows[i], b.rows[i])
  }

  lemma HasCarries(a: Table, b: Table, e: Option<string>)
    requires SameContent(a, b) && Has(a, e)
    ensures Has(b, e) && Find(b.rows, e.value) <= Find(a.rows, e.value) < |a.rows|
  {
    var i :| 0 <= i < |a.rows| && a.rows[i].upstream == e;
    var p := Find(a.rows, e.value);
    assert p <= i;
    assert SameRow(a.rows[p], b.rows[p]);
  }

  lemma SameHas(a: Table, b: Table, e: Option<string>)
    requires SameContent(a, b)
    ensures Has(a, e) == Has(b, e)
    ensures Has(a, e) ==> Find(a.rows, e.value) == Find(b.rows, e.value)
  {
    assert SameContent(b, a) by {
      forall i | 0 <= i < |a.rows|
        ensures SameRow(b.rows[i], a.rows[i])
      {
        assert SameRow(a.rows[i], b.rows[i]);
      }
    }
    if Has(a, e) { HasCarries(a, b, e); }
    if Has(b, e) { HasCarries(b, a, e); }
  }

  /** Equal up to the surrogate id. */
  predicate SameResult(a: Stored, b: Stored) { a.(id := 0) == b.(id := 0) }

  /** A gap in the sequence changes nothing but ids. */
  lemma {:induction false} FoldIgnoresIds(a: Table, b: Table, its: seq<Item>)
    requires SameContent(a, b)
    ensures SameContent(Fold(a, its).0, Fold(b, its).0)
    ensures forall i :: 0 <= i < |its| ==> SameResult(Fold(a, its).1[i], Fold(b, its).1[i])
  {
    if its != [] {
      var n := |its| - 1;
      FoldIgnoresIds(a, b, its[..n]);
      var a', b' := Fold(a, its[..n]).0, Fold(b, its[..n]).0;
      SameHas(a', b', Upstream(its[n]));
      if Has(a', Upstream(its[n])) {
        var p := Find(a'.rows, Upstream(its[n]).value);
        assert SameRow(a'.rows[p], b'.rows[p]);
      }
    }
  }

  // ---------- the fallback among other writers ----------

  lemma {:induction false} FoldAppend(t: Table, a: seq<Item>, b: seq<Item>)
    ensures Fold(t, a + b).0 == Fold(Fold(t, a).0, b).0
    ensures Fold(t, a + b).1 == Fold(t, a).1 + Fold(Fold(t, a).0, b).1
  {
    if b == [] {
      assert a + b == a;
    } else {
      var n := |b| - 1;
      FoldAppend(t, a, b[..n]);
      assert (a + b)[..|a + b| - 1] == a + b[..n];
    }
  }

  lemma FoldSnoc(t: Table, its: seq<Item>, it: Item)
    ensures Fold(t, its + [it]).0 == StoreOne(Fold(t, its).0, it).0
    ensures Fold(t, its + [it]).1 == Fold(t, its).1 + [StoreOne(Fold(t, its).0, it).1]
  {
    assert (its + [it])[..|its|] == its;
  }

  lemma {:induction false} FoldRacingExtends(t: Table, its: seq<Item>, gaps: seq<Gap>)
    requires Valid(t) && |gaps| == |its|
    ensures Extends(t, FoldRacing(t, its, gaps).0)
  {
    if its != [] {
      var n := |its| - 1;
      FoldRacingExtends(t, its[..n], gaps[..n]);
      var seen := Fold(FoldRacing(t, its[..n], gaps[..n]).0, gaps[n].before).0;
      FoldExtends(FoldRacing(t, its[..n], gaps[..n]).0, gaps[n].before);
      FoldExtends(seen, gaps[n].during);
      StoreLinearizes(seen, Fold(seen, gaps[n].during).0, its[n], gaps[n].burn);
    }
  }

  /** One `store` among other writers, on tables that differ in surrogate ids only. */
  lemma GapLinearizes(a: Table, b: Table, it: Item, gap: Gap)
    requires Valid(a) && SameContent(a, b)
    ensures var (t, r) := StoreInGap(a, it, gap);
            var (u, qs) := Fold(b, gap.before + gap.during + [it]);
            SameContent(t, u) && SameResult(r, qs[|qs| - 1])
  {
    var seen := Fold(a, gap.before).0;
    var later := Fold(seen, gap.during).0;
    FoldExtends(a, gap.before);
    FoldExtends(seen, gap.during);
    StoreLinearizes(seen, later, it, gap.burn);
    FoldAppend(a, gap.before, gap.during);
    FoldSnoc(a, gap.before + gap.during, it);
    FoldIgnoresIds(a, b, gap.before + gap.during + [it]);
    var own := |gap.before + gap.during|;
    assert SameResult(Fold(a, gap.before + gap.during + [it]).1[own], Fold(b, gap.before + gap.during + [it]).1[own]);
  }

  /** Result i is that at position at[i], up to the surrogate id. */
  ghost predicate ResultsAt(rs: seq<Stored>, qs: seq<Stored>, at: seq<nat>) {
    |rs| == |at| && forall i :: 0 <= i < |rs| ==> at[i] < |qs| && SameResult(rs[i], qs[at[i]])
  }

  /** Where the batch's own items stand among all of them. */
  function Slots(its: seq<Item>, gaps: seq<Gap>): (r: seq<nat>)
    requires |gaps| == |its|
    ensures |r| == |its|
  {
    if its == [] then []
    else
      var n := |its| - 1;
      Slots(its[..n], gaps[..n]) + [|Woven(its, gaps)| - 1]
  }

  lemma ResultsMore(rs: seq<Stored>, qs: seq<Stored>, at: seq<nat>, r: Stored, more: seq<Stored>)
    requires ResultsAt(rs, qs, at) && more != [] && SameResult(r, more[|more| - 1])
    ensures ResultsAt(rs + [r], qs + more, at + [|qs| + |more| - 1])
  {}

  /** Whatever other writers do between the fallback's awaits: it leaves the rows, and returns the results, of storing
      everybody's items one by one in the order of their commits. */
  lemma {:induction false} FallbackLinearizes(t: Table, b: Table, its: seq<Item>, gaps: seq<Gap>)
    requires Valid(t) && SameContent(t, b) && |gaps| == |its|
    ensures SameContent(FoldRacing(t, its, gaps).0, Fold(b, Woven(its, gaps)).0)
    ensures ResultsAt(FoldRacing(t, its, gaps).1, Fold(b, Woven(its, gaps)).1, Slots(its, gaps))
  {
    if its != [] {
      var n := |its| - 1;
      FallbackLinearizes(t, b, its[..n], gaps[..n]);
      FoldRacingExtends(t, its[..n], gaps[..n]);
      FallbackStep(t, b, its, gaps);
    }
  }

  lemma RacingLast(t: Table, its: seq<Item>, gaps: seq<Gap>)
    requires |gaps| == |its| && its != []
    ensures var n := |its| - 1; var (t1, rs) := FoldRacing(t, its[..n], gaps[..n]);
            var (t2, r) := StoreInGap(t1, its[n], gaps[n]);
            FoldRacing(t, its, gaps) == (t2, rs + [r])
  {}

  lemma WovenLast(b: Table, its: seq<Item>, gaps: seq<Gap>)
    requires |gaps| == |its| && its != []
    ensures var n := |its| - 1; var pre := Woven(its[..n], gaps[..n]);
            var (u, qs) := Fold(b, pre);
            var (v, more) := Fold(u, gaps[n].before + gaps[n].during + [its[n]]);
            Fold(b, Woven(its, gaps)) == (v, qs + more) && |qs| == |pre| && |Woven(its, gaps)| == |qs| + |more|
  {
    var n := |its| - 1;
    var pre, own := Woven(its[..n], gaps[..n]), gaps[n].before + gaps[n].during + [its[n]];
    assert Woven(its, gaps) == pre + own;
    FoldAppend(b, pre, own);
  }

  lemma FallbackStep(t: Table, b: Table, its: seq<Item>, gaps: seq<Gap>)
    requires |gaps| == |its| && its != []
    requires var n := |its| - 1; var t1 := FoldRacing(t, its[..n], gaps[..n]);
             var u := Fold(b, Woven(its[..n], gaps[..n]));
             Valid(t1.0) && SameContent(t1.0, u.0) && ResultsAt(t1.1, u.1, Slots(its[..n], gaps[..n]))
    ensures SameContent(FoldRacing(t, its, gaps).0, Fold(b, Woven(its, gaps)).0)
    ensures ResultsAt(FoldRacing(t, its, gaps).1, Fold(b, Woven(its, gaps)).1, Slots(its, gaps))
  {
    var n := |its| - 1;
    var t1, u := FoldRacing(t, its[..n], gaps[..n]), Fold(b, Woven(its[..n], gaps[..n]));
    var own := gaps[n].before + gaps[n].during + [its[n]];
    RacingLast(t, its, gaps);
    WovenLast(b, its, gaps);
    GapLinearizes(t1.0, u.0, its[n], gaps[n]);
    ResultsMore(t1.1, u.1, Slots(its[..n], gaps[..n]), StoreInGap(t1.0, its[n], gaps[n]).1, Fold(u.0, own).1);
  }

  /** The result of every item of the batch, in order: what storing one by one returns for it. */
  ghost predicate SameResults(rs: seq<Stored>, qs: seq<Stored>, at: seq<nat>) {
    |rs| == |at| && forall i :: 0 <= i < |rs| ==>
      at[i] < |qs| && SameResult(rs[i].(analyzed := false), qs[at[i]].(analyzed := false))
  }

  /** For every table and batch, whatever other writers commit between lookup and commit and in every gap of the
      fallback: the rows of storing one by one, among those writers, results of the same length and order, and a
      valid table. */
  lemma BatchRefinesSequential(t0: Table, t1: Table, its: seq<Item>, burn: nat, gaps: seq<Gap>)
    requires Valid(t0) && Extends(t0, t1) && |gaps| == |its|
    ensures var (t, rs) := StoreBatch(t0, t1, its, burn, gaps);
      && Extends(t1, t)
      && (Conflict(t0, t1, its) ==>
            var (u, qs) := Fold(t1, Woven(its, gaps)); SameContent(t, u) && SameResults(rs, qs, Slots(its, gaps)))
      && (!Conflict(t0, t1, its) ==>
            var (u, qs) := Fold(t1, its); t == u && SameResults(rs, qs, Positions(|its|)))
  {
    FoldExtends(t1, its);
    if Conflict(t0, t1, its) {
      FoldRacingExtends(Burn(t1, burn), its, gaps);
      FallbackLinearizes(Burn(t1, burn), t1, its, gaps);
      var rs, qs := FoldRacing(Burn(t1, burn), its, gaps).1, Fold(t1, Woven(its, gaps)).1;
      forall i | 0 <= i < |its|
        ensures SameResult(rs[i].(analyzed := false), qs[Slots(its, gaps)[i]].(analyzed := false))
      {
        assert SameResult(rs[i], qs[Slots(its, gaps)[i]]);
      }
    } else {
      BatchIsFold(t0, t1, its);
      var rs, qs := BatchResults(t0, t1, its), Fold(t1, its).1;
      forall i | 0 <= i < |its|
        ensures SameResult(rs[i].(analyzed := false), qs[i].(analyzed := false))
      {
        assert SameButFlag(rs[i], qs[i]);
      }
    }
  }

  // ---------- where the two differ ----------

  /** The one observable difference: an item is reported as analyzed exactly when the batch commits as one and the
      item's row was already there and analyzed. `store` never reports it. */
  lemma AnalyzedFlag(t0: Table, t1: Table, its: seq<Item>, burn: nat, gaps: seq<Gap>, i: nat)
    requires Valid(t0) && Extends(t0, t1) && i < |its| == |gaps|
    ensures |StoreBatch(t0, t1, its, burn, gaps).1| == |its|
    ensures !Fold(t1, its).1[i].analyzed
    ensures StoreBatch(t0, t1, its, burn, gaps).1[i].analyzed
       <==> !Conflict(t0, t1, its) && !IsNew(t0, its[i]) && t0.rows[Find(t0.rows, Upstream(its[i]).value)].analyzed
  {
    FoldNeverAnalyzed(t1, its, i);
    RacingNeverAnalyzed(Burn(t1, burn), its, gaps, i);
    BatchResultAt(t0, t1, its, i);
  }

  lemma {:induction false} FoldNeverAnalyzed(t: Table, its: seq<Item>, i: nat)
    requires i < |its|
    ensures !Fold(t, its).1[i].analyzed
  {
    if i < |its| - 1 {
      FoldNeverAnalyzed(t, its[..|its| - 1], i);
    }
  }

  lemma {:induction false} RacingNeverAnalyzed(t: Table, its: seq<Item>, gaps: seq<Gap>, i: nat)
    requires i < |its| == |gaps|
    ensures !FoldRacing(t, its, gaps).1[i].analyzed
  {
    if i < |its| - 1 {
      RacingNeverAnalyzed(t, its[..|its| - 1], gaps[..|its| - 1], i);
    }
  }

  lemma {:induction false} BatchResultAt(t0: Table, t1: Table, its: seq<Item>, i: nat)
    requires i < |its|
    ensures BatchResults(t0, t1, its)[i] ==
      if IsNew(t0, its[i]) then FreshResult(InsertNew(t0, t1, its[..i]), its[i])
      else FoundInBatch(t0, Upstream(its[i]).value)
  {
    var n := |its| - 1;
    if i < n {
      BatchResultAt(t0, t1, its[..n], i);
      assert its[..n][..i] == its[..i];
    }
  }

  // ---------- what is stored is what was handed in ----------

  /** Storing an event id a second time leaves the table alone and returns the first one's content. */
  lemma StoredOnce(t: Table, it: Item, again: Item)
    requires Valid(t) && !Has(t, Upstream(it)) && it.eventId != "" && again.eventId == it.eventId
    ensures var (t1, r1) := StoreOne(t, it);
            var (t2, r2) := StoreOne(t1, again);
            && r1.created && r1.item == it && !r2.created && r1.id == t.nextId && t1.nextId == t.nextId + 1
            && t2 == t1 && r2.item == it && r2.id == r1.id && r2.pos == r1.pos
  {
    StoreOneExtends(t, it);
    var t1 := StoreOne(t, it).0;
    var p := Find(t1.rows, it.eventId);
    assert t1.rows[|t.rows|].upstream == Some(it.eventId);
  }

  /** A result for an item, read off a table: the row it names is that of the item's event id, a new one holds just the
      item, and an item without an id always gets a new one. */
  ghost predicate Answers(t: Table, it: Item, r: Stored) {
    && r.pos < |t.rows| && t.rows[r.pos].id == r.id && t.rows[r.pos].item == r.item
    && t.rows[r.pos].upstream == Upstream(it)
    && (r.created ==> r.item == it)
    && (it.eventId == "" ==> r.created)
  }

  lemma AnswersStay(t0: Table, t1: Table, it: Item, r: Stored)
    requires Extends(t0, t1) && Answers(t0, it, r)
    ensures Answers(t1, it, r)
  {
    assert t1.rows[r.pos] == t0.rows[r.pos];
  }

  lemma FoundAnswers(t: Table, it: Item)
    requires Has(t, Upstream(it))
    ensures Answers(t, it, FoundResult(t, it.eventId)) && Answers(t, it, FoundInBatch(t, it.eventId))
  {
    var i :| 0 <= i < |t.rows| && t.rows[i].upstream == Upstream(it);
    assert Find(t.rows, it.eventId) <= i;
  }

  lemma StoreAnswers(t: Table, it: Item)
    requires Valid(t)
    ensures Answers(StoreOne(t, it).0, it, StoreOne(t, it).1)
  {
    if Has(t, Upstream(it)) { FoundAnswers(t, it); }
  }

  lemma RacingAnswers(t0: Table, t1: Table, it: Item, burn: nat)
    requires Valid(t0) && Extends(t0, t1)
    ensures Answers(StoreRacing(t0, t1, it, burn).0, it, StoreRacing(t0, t1, it, burn).1)
  {
    StoreLinearizes(t0, t1, it, burn);
    StoreAnswers(t1, it);
    var t, u := StoreRacing(t0, t1, it, burn).0, StoreOne(t1, it).0;
    assert t.rows == u.rows;
  }

  lemma {:induction false} FoldRacingAnswers(t: Table, its: seq<Item>, gaps: seq<Gap>, i: nat)
    requires Valid(t) && |gaps| == |its| && i < |its|
    ensures Answers(FoldRacing(t, its, gaps).0, its[i], FoldRacing(t, its, gaps).1[i])
  {
    var n := |its| - 1;
    var t1 := FoldRacing(t, its[..n], gaps[..n]).0;
    FoldRacingExtends(t, its[..n], gaps[..n]);
    var seen := Fold(t1, gaps[n].before).0;
    FoldExtends(t1, gaps[n].before);
    FoldExtends(seen, gaps[n].during);
    var later := Fold(seen, gaps[n].during).0;
    StoreLinearizes(seen, later, its[n], gaps[n].burn);
    RacingLast(t, its, gaps);
    if i == n {
      RacingAnswers(seen, later, its[n], gaps[n].burn);
    } else {
      FoldRacingAnswers(t, its[..n], gaps[..n], i);
      AnswersStay(t1, FoldRacing(t, its, gaps).0, its[i], FoldRacing(t, its, gaps).1[i]);
    }
  }

  lemma {:induction false} InsertNewAnswers(t0: Table, t1: Table, its: seq<Item>, i: nat)
    requires Valid(t0) && Extends(t0, t1) && !Conflict(t0, t1, its) && i < |its|
    ensures Answers(InsertNew(t0, t1, its), its[i], BatchResults(t0, t1, its)[i])
  {
    var n := |its| - 1;
    var pre := its[..n];
    if Conflict(t0, t1, pre) { ConflictGrows(t0, t1, its); }
    var t := InsertNew(t0, t1, pre);
    BatchIsFold(t0, t1, pre);
    FoldExtends(t1, pre);
    BatchIsFold(t0, t1, its);
    FoldExtends(t1, its);
    if i == n {
      if !IsNew(t0, its[n]) {
        FoundAnswers(t0, its[n]);
        AnswersStay(t0, t, its[n], FoundInBatch(t0, its[n].eventId));
      }
    } else {
      InsertNewAnswers(t0, t1, pre, i);
      StepExtends(t, its[n], InsertNew(t0, t1, its));
      AnswersStay(t, InsertNew(t0, t1, its), its[i], BatchResults(t0, t1, its)[i]);
    }
  }

  lemma StepExtends(t: Table, it: Item, u: Table)
    requires Valid(u) && (u == t || u == Insert(t, it))
    ensures Extends(t, u)
  {}

  /** Every result of a batch answers its item, whatever other writers do: it shows the row that the table has for the
      item's event id, with that row's own content, and a new row holds just what was handed in. */
  lemma BatchAnswers(t0: Table, t1: Table, its: seq<Item>, burn: nat, gaps: seq<Gap>, i: nat)
    requires Valid(t0) && Extends(t0, t1) && |gaps| == |its| && i < |its|
    ensures var (t, rs) := StoreBatch(t0, t1, its, burn, gaps);
            i < |rs| && Answers(t, its[i], rs[i])
  {
    if Conflict(t0, t1, its) {
      FoldRacingAnswers(Burn(t1, burn), its, gaps, i);
    } else {
      InsertNewAnswers(t0, t1, its, i);
    }
  }

  /** Every row behind the first n holds an item that somebody handed in, under that item's event id, not analyzed. */
  ghost predicate GivenFrom(t: Table, n: nat, given: seq<Item>) {
    forall i :: n <= i < |t.rows| ==>
      t.rows[i].item in given && t.rows[i].upstream == Upstream(t.rows[i].item) && !t.rows[i].analyzed
  }

  lemma GivenMore(t: Table, n: nat, less: seq<Item>, more: seq<Item>)
    requires GivenFrom(t, n, less) && forall x :: x in less ==> x in more
    ensures GivenFrom(t, n, more)
  {}

  lemma {:induction false} FoldGiven(t: Table, n: nat, its: seq<Item>, given: seq<Item>)
    requires GivenFrom(t, n, given) && forall x :: x in its ==> x in given
    ensures GivenFrom(Fold(t, its).0, n, given)
  {
    if its != [] {
      FoldGiven(t, n, its[..|its| - 1], given);
      assert its[|its| - 1] in its;
    }
  }

  lemma RacingGiven(t0: Table, t1: Table, n: nat, it: Item, burn: nat, given: seq<Item>)
    requires GivenFrom(t1, n, given) && it in given
    ensures GivenFrom(StoreRacing(t0, t1, it, burn).0, n, given)
  {}

  lemma {:induction false} FoldRacingGiven(t: Table, n: nat, its: seq<Item>, gaps: seq<Gap>, given: seq<Item>)
    requires |gaps| == |its| && GivenFrom(t, n, given) && forall x :: x in Woven(its, gaps) ==> x in given
    ensures GivenFrom(FoldRacing(t, its, gaps).0, n, given)
  {
    if its != [] {
      var k := |its| - 1;
      var own := gaps[k].before + gaps[k].during + [its[k]];
      assert Woven(its, gaps) == Woven(its[..k], gaps[..k]) + own;
      assert forall x :: x in gaps[k].before || x in gaps[k].during || x == its[k] ==> x in own;
      FoldRacingGiven(t, n, its[..k], gaps[..k], given);
      var t1 := FoldRacing(t, its[..k], gaps[..k]).0;
      FoldGiven(t1, n, gaps[k].before, given);
      var seen := Fold(t1, gaps[k].before).0;
      FoldGiven(seen, n, gaps[k].during, given);
      RacingGiven(seen, Fold(seen, gaps[k].during).0, n, its[k], gaps[k].burn, given);
      RacingLast(t, its, gaps);
    }
  }

  lemma {:induction false} InsertNewGiven(t0: Table, t1: Table, n: nat, its: seq<Item>, given: seq<Item>)
    requires GivenFrom(t1, n, given) && forall x :: x in its ==> x in given
    ensures GivenFrom(InsertNew(t0, t1, its), n, given)
  {
    if its != [] {
      InsertNewGiven(t0, t1, n, its[..|its| - 1], given);
      assert its[|its| - 1] in its;
    }
  }

  // ---------- runs ----------

  datatype Call =
    | One(item: Item, others: seq<Item>, burn: nat)
    | Batch(items: seq<Item>, others: seq<Item>, burn: nat, gaps: seq<Gap>)

  /** `others` is what the other writers store between this call's lookup and its commit; a batch falls back with one
      gap per item. */
  function Apply(t: Table, c: Call): Table {
    var t1 := Fold(t, c.others).0;
    match c
    case One(it, _, burn) => StoreRacing(t, t1, it, burn).0
    case Batch(its, _, burn, gaps) => if |gaps| == |its| then StoreBatch(t, t1, its, burn, gaps).0 else t
  }

  function Run(t: Table, cs: seq<Call>): Table {
    if cs == [] then t else Apply(Run(t, cs[..|cs| - 1]), cs[|cs| - 1])
  }

  /** Over every run no upstream id ever has two rows, and no row is ever lost or changed. */
  lemma {:induction false} RunKeepsRows(t: Table, cs: seq<Call>)
    requires Valid(t)
    ensures Extends(t, Run(t, cs))
  {
    if cs != [] {
      var n := |cs| - 1;
      RunKeepsRows(t, cs[..n]);
      var t0 := Run(t, cs[..n]);
      var t1 := Fold(t0, cs[n].others).0;
      FoldExtends(t0, cs[n].others);
      match cs[n]
      case One(it, _, burn) => StoreLinearizes(t0, t1, it, burn);
      case Batch(its, _, burn, gaps) => if |gaps| == |its| { BatchRefinesSequential(t0, t1, its, burn, gaps); }
    }
  }

  /** The items of a call and of the writers around it. */
  function Handed(c: Call): seq<Item> {
    match c
    case One(it, others, _) => others + [it]
    case Batch(its, others, _, gaps) => others + its + (if |gaps| == |its| then Woven(its, gaps) else [])
  }

  function AllHanded(cs: seq<Call>): seq<Item> {
    if cs == [] then [] else AllHanded(cs[..|cs| - 1]) + Handed(cs[|cs| - 1])
  }

  lemma CallGiven(t: Table, n: nat, c: Call, given: seq<Item>)
    requires GivenFrom(t, n, given) && forall x :: x in Handed(c) ==> x in given
    ensures GivenFrom(Apply(t, c), n, given)
  {
    assert forall x :: x in c.others ==> x in Handed(c);
    FoldGiven(t, n, c.others, given);
    var t1 := Fold(t, c.others).0;
    match c
    case One(it, others, burn) =>
      assert Handed(c)[|others|] == it;
      RacingGiven(t, t1, n, it, burn, given);
    case Batch(its, others, burn, gaps) =>
      if |gaps| == |its| {
        assert forall x :: x in its || x in Woven(its, gaps) ==> x in Handed(c);
        FoldRacingGiven(Burn(t1, burn), n, its, gaps, given);
        InsertNewGiven(t, t1, n, its, given);
      }
  }

  /** Over every run, each row that was added holds an item that some call handed in, whole and under its event id. */
  lemma {:induction false} RunsStoreGiven(t: Table, cs: seq<Call>)
    ensures GivenFrom(Run(t, cs), |t.rows|, AllHanded(cs))
  {
    if cs != [] {
      var n := |cs| - 1;
      RunsStoreGiven(t, cs[..n]);
      var given := AllHanded(cs[..n]) + Handed(cs[n]);
      GivenMore(Run(t, cs[..n]), |t.rows|, AllHanded(cs[..n]), given);
      CallGiven(Run(t, cs[..n]), |t.rows|, cs[n], given);
    }
  }

  // ---------- the store object ----------

  class Store {
    var table: Table

    constructor ()
      ensures Valid(table) && table == Table([], 1)
    {
      table := Table([], 1);
    }

    /** `later` is the table its commit meets; the call acts as one step on that. */
    method StoreItem(it: Item, later: Table, burn: nat) returns (r: Stored)
      requires Valid(table) && Extends(table, later)
      modifies this
      ensures Valid(table) && (table, r) == StoreRacing(old(table), later, it, burn)
      ensures table.rows == StoreOne(later, it).0.rows && r == StoreOne(later, it).1
      ensures Answers(table, it, r) && (r.created <==> !Has(later, Upstream(it)))
    {
      ghost var t0 := table;
      StoreLinearizes(t0, later, it, burn);
      RacingAnswers(t0, later, it, burn);
      var e := Upstream(it);
      if e.Some? {
        var p := Find(table.rows, e.value);
        if p < |table.rows| {
          r := Stored(p, table.rows[p].id, false, table.rows[p].item, false);
          table := later;
          return;
        }
      }
      table := later;
      var q := if e.Some? then Find(later.rows, e.value) else |later.rows|;
      if q < |later.rows| {
        table := Burn(table, burn);
        r := Stored(q, later.rows[q].id, false, later.rows[q].item, false);
        return;
      }
      assert !Has(later, e);
      r := FreshResult(table, it);
      table := Insert(table, it);
    }

    /** Does the single commit of the new items violate the unique index? */
    method CommitFails(t0: Table, its: seq<Item>) returns (fails: bool)
      ensures fails == Conflict(t0, table, its)
    {
      var i := 0;
      while i < |its|
        invariant 0 <= i <= |its|
        invariant forall k :: 0 <= k < i && IsNew(t0, its[k]) && Upstream(its[k]).Some? ==>
          !Has(table, Upstream(its[k])) && forall j :: 0 <= j < k ==> Upstream(its[j]) != Upstream(its[k])
      {
        if IsNew(t0, its[i]) && Upstream(its[i]).Some? {
          if Has(table, Upstream(its[i])) || exists j :: 0 <= j < i && Upstream(its[j]) == Upstream(its[i]) {
            return true;
          }
        }
        i := i + 1;
      }
      return false;
    }

    /** The fallback after a rollback: every item through `store`, other writers acting in the gaps. */
    method StoreOneByOne(its: seq<Item>, gaps: seq<Gap>) returns (rs: seq<Stored>)
      requires Valid(table) && |gaps| == |its|
      modifies this
      ensures Valid(table) && (table, rs) == FoldRacing(old(table), its, gaps)
    {
      var i := 0;
      rs := [];
      while i < |its|
        invariant 0 <= i <= |its|
        invariant (table, rs) == FoldRacing(old(table), its[..i], gaps[..i])
        invariant Valid(table)
      {
        assert its[..i + 1][..i] == its[..i] && gaps[..i + 1][..i] == gaps[..i];
        FoldExtends(table, gaps[i].before);
        table := Fold(table, gaps[i].before).0;
        FoldExtends(table, gaps[i].during);
        var r := StoreItem(its[i], Fold(table, gaps[i].during).0, gaps[i].burn);
        rs := rs + [r];
        i := i + 1;
      }
      assert its[..|its|] == its && gaps[..|its|] == gaps;
    }

    /** The commit of all new items, and one result per item. */
    method InsertAll(t0: Table, its: seq<Item>) returns (rs: seq<Stored>)
      modifies this
      ensures table == InsertNew(t0, old(table), its) && rs == BatchResults(t0, old(table), its)
    {
      var i := 0;
      rs := [];
      while i < |its|
        invariant 0 <= i <= |its|
        invariant table == InsertNew(t0, old(table), its[..i]) && rs == BatchResults(t0, old(table), its[..i])
      {
        assert its[..i + 1][..i] == its[..i];
        if IsNew(t0, its[i]) {
          rs := rs + [FreshResult(table, its[i])];
          table := Insert(table, its[i]);
        } else {
          rs := rs + [FoundInBatch(t0, Upstream(its[i]).value)];
        }
        i := i + 1;
      }
      assert its[..|its|] == its;
    }

    method StoreAll(its: seq<Item>, later: Table, burn: nat, gaps: seq<Gap>) returns (rs: seq<Stored>)
      requires Valid(table) && Extends(table, later) && |gaps| == |its|
      modifies this
      ensures Valid(table)
      ensures (table, rs) == StoreBatch(old(table), later, its, burn, gaps)
    {
      var t0 := table;
      table := later;
      if its == [] {
        return [];
      }
      BatchRefinesSequential(t0, later, its, burn, gaps);
      var fails := CommitFails(t0, its);
      if fails {
        table := Burn(later, burn);
        rs := StoreOneByOne(its, gaps);
      } else {
        rs := InsertAll(t0, its);
      }
    }
  }
}
