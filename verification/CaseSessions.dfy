/** One row of the case table under any number of overlapping database sessions. A session reads the row once, keeps
    that copy (commits do not expire it, nothing locks the row), and each of its commits writes just the columns that
    it has changed. The steps are a session's read and its commits, in any interleaving; a session may end at any
    point. */
module CaseSessions {
  import opened Common
  import opened CaseLifecycle

  // ---------- an operation as a script of commits ----------

  /** What a session does between two of its commits. */
  datatype Seg =
    | Go(from: set<Status>, to: Status)
    | Reassign
    | Join(event: Event, existing: bool, fails: bool)
    | Dispatch(existing: bool, fails: bool)
    | Decide(idle: real, response: bool, pending: bool, orders: nat, at: real)
    | Mark(pending: bool)
    | Approval

  const ANY: set<Status> := {Open, Investigating, PendingApproval, Responding, Resolved, Closed, FalsePositive}

  function Orders(n: nat): seq<Seg> {
    if n == 0 then [] else Orders(n - 1) + [Go({Open}, Investigating), Go(ANY, Resolved)]
  }

  /** The periodic checks select on the row as it stands, whatever copy the session already holds. */
  function Script(row: Case, op: Op): seq<Seg> {
    match op
    case Manual(to, _) => [Go(ANY, to)]
    case Assign(_) => [Reassign]
    case Add(e, existing, fails, _) => [Join(e, existing, fails)]
    case Resolve(idle, response, pending, orders, now) =>
      if IsActive(row.status) then [Decide(idle, response, pending, orders, now)] else []
    case FinishOrder(_) => [Go({Open}, Investigating), Go(ANY, Resolved)]
    case Sla(pending, now) => if Breaches(row, now) then [Mark(pending)] else []
    case Stale(hours, now) => if IsStale(row, now, hours) then [Go(ANY, Closed)] else []
    case Approve(_) => [Approval]
  }

  predicate Urgent(before: Case, after: Case) {
    after.priority != before.priority || after.priority == "high" || after.priority == "critical"
  }

  /** One stretch on the session's copy, and what it adds to the script. */
  function Work(copy: Tracked, seg: Seg, env: Env, now: real): (Tracked, seq<Seg>) {
    match seg
    case Go(from, to) => (if copy.c.status in from then Move(copy, to, now) else copy, [])
    case Reassign => (AssignTo(copy, now), [])
    case Join(e, existing, fails) =>
      (match Absorb(copy.c, e, env, now)
       case None => (copy, [])
       case Some(c) => (copy.(c := c), if Urgent(copy.c, c) then [Dispatch(existing, fails)] else []))
    case Dispatch(existing, fails) =>
      (copy,
       if copy.c.priority !in env.dispatchPriorities then []
       else if !existing && fails then [Go({Open}, Investigating)]
       else [Go({Open}, Investigating), Go({Investigating}, Responding)])
    case Decide(idle, response, pending, orders, at) =>
      (copy,
       if !MayResolve(copy.c, at, idle, response, pending) then []
       else Orders(orders) + [Go({Open}, Investigating), Go({Investigating, Responding}, Resolved)])
    case Mark(pending) => (Marked(copy, now, pending), [])
    case Approval => (Approved(copy, now), [])
  }

  // ---------- a session alone ----------

  function Weight(seg: Seg): nat {
    match seg
    case Join(_, _, _) => 4
    case Dispatch(_, _) => 3
    case Decide(_, _, _, orders, _) => 2 * orders + 3
    case _ => 1
  }

  function Weights(segs: seq<Seg>): nat {
    if segs == [] then 0 else Weight(segs[0]) + Weights(segs[1..])
  }

  lemma {:induction false} WeightsAppend(a: seq<Seg>, b: seq<Seg>)
    ensures Weights(a + b) == Weights(a) + Weights(b)
  {
    if a == [] {
      assert a + b == b;
    } else {
      assert (a + b)[1..] == a[1..] + b;
      WeightsAppend(a[1..], b);
    }
  }

  lemma {:induction false} OrdersWeight(n: nat)
    ensures Weights(Orders(n)) == 2 * n
  {
    if n > 0 {
      OrdersWeight(n - 1);
      WeightsAppend(Orders(n - 1), [Go({Open}, Investigating), Go(ANY, Resolved)]);
      PairWeight(Go({Open}, Investigating), Go(ANY, Resolved));
    }
  }

  lemma PairWeight(a: Seg, b: Seg)
    ensures Weights([a, b]) == Weight(a) + Weight(b)
  {
    assert [a, b][1..] == [b] && [b][1..] == [];
    assert Weights([b]) == Weight(b) + Weights([]);
  }

  lemma WorkShrinks(copy: Tracked, seg: Seg, env: Env, now: real)
    ensures Weights(Work(copy, seg, env, now).1) < Weight(seg)
  {
    PairWeight(Go({Open}, Investigating), Go({Investigating}, Responding));
    if seg.Decide? {
      OrdersWeight(seg.orders);
      PairWeight(Go({Open}, Investigating), Go({Investigating, Responding}, Resolved));
      WeightsAppend(Orders(seg.orders), [Go({Open}, Investigating), Go({Investigating, Responding}, Resolved)]);
    }
  }

  lemma TodoShrinks(copy: Tracked, todo: seq<Seg>, env: Env, now: real)
    requires todo != []
    ensures Weights(Work(copy, todo[0], env, now).1 + todo[1..]) < Weights(todo)
  {
    WorkShrinks(copy, todo[0], env, now);
    WeightsAppend(Work(copy, todo[0], env, now).1, todo[1..]);
  }

  /** The copy at the end of the script. */
  function Alone(copy: Tracked, todo: seq<Seg>, env: Env, now: real): Tracked
    decreases Weights(todo)
  {
    if todo == [] then copy
    else
      TodoShrinks(copy, todo, env, now);
      var (next, more) := Work(copy, todo[0], env, now);
      Alone(next, more + todo[1..], env, now)
  }

  lemma AloneStep(copy: Tracked, seg: Seg, rest: seq<Seg>, env: Env, now: real)
    ensures var (next, more) := Work(copy, seg, env, now);
            Alone(copy, [seg] + rest, env, now) == Alone(next, more + rest, env, now)
  {
    assert ([seg] + rest)[1..] == rest;
  }

  lemma {:induction false} AloneAppend(copy: Tracked, a: seq<Seg>, b: seq<Seg>, env: Env, now: real)
    ensures Alone(copy, a + b, env, now) == Alone(Alone(copy, a, env, now), b, env, now)
    decreases Weights(a)
  {
    if a == [] {
      assert a + b == b;
    } else {
      TodoShrinks(copy, a, env, now);
      var (next, more) := Work(copy, a[0], env, now);
      AloneAppend(next, more + a[1..], b, env, now);
      AloneStep(copy, a[0], a[1..], env, now);
      AloneStep(copy, a[0], a[1..] + b, env, now);
      Regroup(a, more, b);
    }
  }

  lemma Regroup(a: seq<Seg>, more: seq<Seg>, b: seq<Seg>)
    requires a != []
    ensures [a[0]] + a[1..] == a && [a[0]] + (a[1..] + b) == a + b && more + (a[1..] + b) == more + a[1..] + b
  {}

  lemma AloneOne(copy: Tracked, seg: Seg, env: Env, now: real)
    requires Work(copy, seg, env, now).1 == []
    ensures Alone(copy, [seg], env, now) == Work(copy, seg, env, now).0
  {
    assert [seg][1..] == [];
  }

  lemma AlonePair(copy: Tracked, a: Seg, b: Seg, env: Env, now: real)
    requires a.Go? && b.Go?
    ensures Alone(copy, [a, b], env, now) == Work(Work(copy, a, env, now).0, b, env, now).0
  {
    assert [a, b] == [a] + [b];
    AloneAppend(copy, [a], [b], env, now);
    AloneOne(copy, a, env, now);
    AloneOne(Work(copy, a, env, now).0, b, env, now);
  }

  lemma {:induction false} AloneOrders(copy: Tracked, n: nat, env: Env, now: real)
    ensures Alone(copy, Orders(n), env, now) == CompleteOrders(copy, n, now)
  {
    if n > 0 {
      AloneOrders(copy, n - 1, env, now);
      AloneAppend(copy, Orders(n - 1), [Go({Open}, Investigating), Go(ANY, Resolved)], env, now);
      AlonePair(CompleteOrders(copy, n - 1, now), Go({Open}, Investigating), Go(ANY, Resolved), env, now);
    }
  }

  lemma AloneDecide(s: Tracked, seg: Seg, env: Env, now: real)
    requires seg.Decide? && seg.at == now
    ensures Alone(s, [seg], env, now) == AutoResolve(s, now, seg.idle, seg.response, seg.pending, seg.orders)
  {
    var last := [Go({Open}, Investigating), Go({Investigating, Responding}, Resolved)];
    assert [seg][1..] == [];
    if MayResolve(s.c, now, seg.idle, seg.response, seg.pending) {
      var s1 := CompleteOrders(s, seg.orders, now);
      AloneOrders(s, seg.orders, env, now);
      AloneAppend(s, Orders(seg.orders), last, env, now);
      AlonePair(s1, last[0], last[1], env, now);
      assert Orders(seg.orders) + last + [] == Orders(seg.orders) + last;
    }
  }

  lemma AloneDispatch(s: Tracked, existing: bool, fails: bool, env: Env, now: real)
    ensures Alone(s, [Dispatch(existing, fails)], env, now) == AutoDispatch(s, env, existing, fails, now)
  {
    var seg := Dispatch(existing, fails);
    var more := Work(s, seg, env, now).1;
    assert [seg][1..] == [] && more + [] == more;
    if s.c.priority in env.dispatchPriorities {
      if !existing && fails {
        AloneOne(s, Go({Open}, Investigating), env, now);
      } else {
        AlonePair(s, Go({Open}, Investigating), Go({Investigating}, Responding), env, now);
      }
    }
  }

  lemma AloneJoin(s: Tracked, e: Event, existing: bool, fails: bool, env: Env, now: real)
    ensures Alone(s, [Join(e, existing, fails)], env, now) == AddEvent(s, e, env, existing, fails, now)
  {
    var seg := Join(e, existing, fails);
    var more := Work(s, seg, env, now).1;
    assert [seg][1..] == [] && more + [] == more;
    if Absorb(s.c, e, env, now).Some? {
      AloneDispatch(s.(c := Absorb(s.c, e, env, now).value), existing, fails, env, now);
    }
  }

  /** A session that works on the row as it stands and meets no other carries out the whole operation. */
  lemma AloneIsApply(s: Tracked, op: Op, env: Env)
    ensures Alone(s, Script(s.c, op), env, op.now) == Apply(s, op, env)
  {
    match op
    case Manual(to, now) => AloneOne(s, Go(ANY, to), env, now);
    case Assign(now) => AloneOne(s, Reassign, env, now);
    case Add(e, existing, fails, now) => AloneJoin(s, e, existing, fails, env, now);
    case Resolve(idle, response, pending, orders, now) =>
      AloneDecide(s, Decide(idle, response, pending, orders, now), env, now);
    case FinishOrder(now) => AlonePair(s, Go({Open}, Investigating), Go(ANY, Resolved), env, now);
    case Sla(pending, now) => AloneOne(s, Mark(pending), env, now);
    case Stale(hours, now) => AloneOne(s, Go(ANY, Closed), env, now);
    case Approve(now) => AloneOne(s, Approval, env, now);
  }

  // ---------- sessions and the row ----------

  datatype Session = Session(copy: Tracked, todo: seq<Seg>)

  datatype World = World(row: Tracked, sessions: map<nat, Session>)

  datatype Step = Begin(id: nat, op: Op) | Commit(id: nat, now: real) | End(id: nat)

  /** A column goes to the row when the session has changed it. */
  function Merge(row: Case, base: Case, c: Case): Case {
    Case(if c.status == base.status then row.status else c.status,
         if c.severity == base.severity then row.severity else c.severity,
         if c.priority == base.priority then row.priority else c.priority,
         if c.deadline == base.deadline then row.deadline else c.deadline,
         if c.breached == base.breached then row.breached else c.breached,
         if c.ids == base.ids then row.ids else c.ids,
         if c.count == base.count then row.count else c.count,
         if c.threat == base.threat then row.threat else c.threat,
         if c.updated == base.updated then row.updated else c.updated,
         if c.closedAt == base.closedAt then row.closedAt else c.closedAt)
  }

  /** A session on the row as it stands writes all it has changed; one that has changed nothing writes nothing. */
  lemma MergeIs(row: Case, base: Case, c: Case)
    ensures Merge(base, base, c) == c && Merge(row, base, base) == row
  {}

  /** Column by column: what the session has changed goes to the row, and no other column does. */
  lemma MergeColumns(row: Case, base: Case, c: Case)
    ensures var d := Merge(row, base, c);
            && d.status == (if c.status == base.status then row.status else c.status)
            && d.priority == (if c.priority == base.priority then row.priority else c.priority)
            && d.deadline == (if c.deadline == base.deadline then row.deadline else c.deadline)
            && d.breached == (if c.breached == base.breached then row.breached else c.breached)
            && d.closedAt == (if c.closedAt == base.closedAt then row.closedAt else c.closedAt)
            && d.updated == (if c.updated == base.updated then row.updated else c.updated)
  {}

  function Land(row: Tracked, base: Case, c: Case): Tracked {
    var d := Merge(row.c, base, c);
    Tracked(d, if d.status == row.c.status then row.trail else row.trail + [d.status])
  }

  predicate Busy(w: World, id: nat) { id in w.sessions && w.sessions[id].todo != [] }

  /** The copy after the session's next stretch, and the script after it. */
  function NextCopy(w: World, id: nat, env: Env, now: real): (Tracked, seq<Seg>)
    requires Busy(w, id)
  {
    Work(w.sessions[id].copy, w.sessions[id].todo[0], env, now)
  }

  function Fresh(row: Tracked): Tracked { Tracked(row.c, [row.c.status]) }

  /** A session that already holds the case goes on with its copy. */
  function Next(w: World, st: Step, env: Env): World {
    match st
    case Begin(id, op) =>
      if Busy(w, id) then w
      else
        var copy := if id in w.sessions then w.sessions[id].copy else Fresh(w.row);
        w.(sessions := w.sessions[id := Session(copy, Script(w.row.c, op))])
    case Commit(id, now) =>
      if !Busy(w, id) then w
      else
        var s := w.sessions[id];
        var (copy, more) := NextCopy(w, id, env, now);
        World(Land(w.row, s.copy.c, copy.c), w.sessions[id := Session(copy, more + s.todo[1..])])
    case End(id) => w.(sessions := w.sessions - {id})
  }

  function Run(w: World, steps: seq<Step>, env: Env): World {
    if steps == [] then w else Next(Run(w, steps[..|steps| - 1], env), steps[|steps| - 1], env)
  }

  lemma RunStep(w: World, steps: seq<Step>, st: Step, env: Env)
    ensures Run(w, steps + [st], env) == Next(Run(w, steps, env), st, env)
  {
    assert (steps + [st])[..|steps|] == steps;
  }

  /** Whatever the other sessions commit, the copy ends where the operation alone would take it. */
  lemma {:induction false} CopyAsAlone(w: World, steps: seq<Step>, id: nat, env: Env, now: real)
    requires id in w.sessions
    requires forall i :: 0 <= i < |steps| && steps[i].id == id ==> steps[i] == Commit(id, now)
    ensures var v := Run(w, steps, env);
            id in v.sessions &&
            Alone(v.sessions[id].copy, v.sessions[id].todo, env, now)
            == Alone(w.sessions[id].copy, w.sessions[id].todo, env, now)
  {
    if steps != [] {
      CopyAsAlone(w, steps[..|steps| - 1], id, env, now);
    }
  }

  // ---------- the statuses of the row ----------

  predicate CommitsStatus(w: World, st: Step, env: Env) {
    st.Commit? && Busy(w, st.id) && NextCopy(w, st.id, env, st.now).0.c.status != w.sessions[st.id].copy.c.status
  }

  /** The status a commit writes is the one the row has by then, or is allowed from it. */
  predicate Fits(w: World, st: Step, env: Env) {
    CommitsStatus(w, st, env) ==>
      var to := NextCopy(w, st.id, env, st.now).0.c.status;
      to == w.row.c.status || to in Allowed(w.row.c.status)
  }

  predicate AllFit(w: World, steps: seq<Step>, env: Env) {
    steps == [] || (AllFit(w, steps[..|steps| - 1], env)
                    && Fits(Run(w, steps[..|steps| - 1], env), steps[|steps| - 1], env))
  }

  lemma RowStatus(w: World, st: Step, env: Env)
    ensures Next(w, st, env).row.c.status
         == if CommitsStatus(w, st, env) then NextCopy(w, st.id, env, st.now).0.c.status else w.row.c.status
    ensures Next(w, st, env).row.trail
         == if Next(w, st, env).row.c.status == w.row.c.status then w.row.trail
            else w.row.trail + [Next(w, st, env).row.c.status]
  {}

  lemma StepPathIff(w: World, st: Step, env: Env)
    requires Linked(w.row)
    ensures Linked(Next(w, st, env).row)
    ensures Path(Next(w, st, env).row.trail) <==> Path(w.row.trail) && (Path(w.row.trail) ==> Fits(w, st, env))
  {
    RowStatus(w, st, env);
    PathSnoc(w.row.trail, Next(w, st, env).row.c.status);
  }

  /** Over every interleaving, the statuses of the row form a path in the table if and only if each status that was
      committed was allowed from the status the row had by then. */
  lemma {:induction false} TrailIsPathIff(w: World, steps: seq<Step>, env: Env)
    requires Linked(w.row) && Path(w.row.trail)
    ensures Linked(Run(w, steps, env).row)
    ensures Path(Run(w, steps, env).row.trail) <==> AllFit(w, steps, env)
  {
    if steps != [] {
      var n := |steps| - 1;
      TrailIsPathIff(w, steps[..n], env);
      StepPathIff(Run(w, steps[..n], env), steps[n], env);
    }
  }

  /** A session whose copy has the row's status commits outside the table only as an approval follow-up that does not
      fit: all other breaks come from stale copies. */
  lemma FreshFitsIff(w: World, id: nat, now: real, env: Env)
    requires Busy(w, id) && w.sessions[id].copy.c.status == w.row.c.status
    ensures Fits(w, Commit(id, now), env) <==>
            (w.sessions[id].todo[0].Approval? ==> ApprovalFits(w.sessions[id].copy.c))
  {
    var copy := w.sessions[id].copy;
    match w.sessions[id].todo[0]
    case Join(e, _, _) => if Absorb(copy.c, e, env, now).Some? { AbsorbKeepsStatus(copy.c, e, env, now); }
    case _ =>
  }

  // ---------- sessions whose status changes do not overlap ----------

  /** Every copy has the status of the row. */
  predicate InStep(w: World) {
    forall id :: id in w.sessions ==> w.sessions[id].copy.c.status == w.row.c.status
  }

  predicate QuietStep(w: World, st: Step, env: Env) {
    CommitsStatus(w, st, env) ==> w.sessions.Keys == {st.id}
  }

  predicate Quiet(w: World, steps: seq<Step>, env: Env) {
    steps == [] || (Quiet(w, steps[..|steps| - 1], env)
                    && QuietStep(Run(w, steps[..|steps| - 1], env), steps[|steps| - 1], env))
  }

  predicate ApprovalsFit(w: World, steps: seq<Step>, env: Env) {
    steps == [] ||
    (ApprovalsFit(w, steps[..|steps| - 1], env)
     && var v, st := Run(w, steps[..|steps| - 1], env), steps[|steps| - 1];
        (st.Commit? && Busy(v, st.id) && v.sessions[st.id].todo[0].Approval? ==>
           ApprovalFits(v.sessions[st.id].copy.c)))
  }

  lemma QuietKeepsInStep(w: World, st: Step, env: Env)
    requires InStep(w) && QuietStep(w, st, env)
    ensures InStep(Next(w, st, env))
  {
    RowStatus(w, st, env);
  }

  lemma {:induction false} QuietInStep(w: World, steps: seq<Step>, env: Env)
    requires InStep(w) && Quiet(w, steps, env)
    ensures InStep(Run(w, steps, env))
  {
    if steps != [] {
      QuietInStep(w, steps[..|steps| - 1], env);
      QuietKeepsInStep(Run(w, steps[..|steps| - 1], env), steps[|steps| - 1], env);
    }
  }

  lemma {:induction false} QuietFitsIff(w: World, steps: seq<Step>, env: Env)
    requires InStep(w) && Quiet(w, steps, env)
    ensures AllFit(w, steps, env) <==> ApprovalsFit(w, steps, env)
  {
    if steps != [] {
      var n := |steps| - 1;
      QuietFitsIff(w, steps[..n], env);
      QuietInStep(w, steps[..n], env);
      if steps[n].Commit? && Busy(Run(w, steps[..n], env), steps[n].id) {
        FreshFitsIff(Run(w, steps[..n], env), steps[n].id, steps[n].now, env);
      }
    }
  }

  /** While no status is committed as long as another session holds the case, the statuses form a path if and only if
      every approval follow-up found the case under investigation, awaiting approval or responding. */
  lemma QuietPathIff(w: World, steps: seq<Step>, env: Env)
    requires Linked(w.row) && Path(w.row.trail) && InStep(w) && Quiet(w, steps, env)
    ensures Path(Run(w, steps, env).row.trail) <==> ApprovalsFit(w, steps, env)
  {
    TrailIsPathIff(w, steps, env);
    QuietFitsIff(w, steps, env);
  }

  // ---------- closed is final ----------

  lemma {:induction false} TrailGrows(w: World, steps: seq<Step>, env: Env)
    ensures w.row.trail <= Run(w, steps, env).row.trail
  {
    if steps != [] {
      TrailGrows(w, steps[..|steps| - 1], env);
      RowStatus(Run(w, steps[..|steps| - 1], env), steps[|steps| - 1], env);
    }
  }

  lemma PathAt(trail: seq<Status>, i: nat)
    requires Path(trail) && 0 < i < |trail|
    ensures trail[i] in Allowed(trail[i - 1])
  {}

  lemma NothingAfterClosed(a: seq<Status>, b: seq<Status>)
    requires a != [] && a[|a| - 1] == Closed && a <= b && Path(b)
    ensures a == b
  {
    if |a| < |b| {
      PathAt(b, |a|);
    }
  }

  /** A closed case stays as it is if and only if no session commits another status: neither an approval follow-up nor a
      change decided on a copy from before the closing. */
  lemma ClosedStaysIff(w: World, steps: seq<Step>, env: Env)
    requires Linked(w.row) && Path(w.row.trail) && w.row.c.status == Closed
    ensures Run(w, steps, env).row.trail == w.row.trail <==> AllFit(w, steps, env)
    ensures AllFit(w, steps, env) ==> Run(w, steps, env).row.c.status == Closed
  {
    TrailIsPathIff(w, steps, env);
    TrailGrows(w, steps, env);
    if AllFit(w, steps, env) {
      NothingAfterClosed(w.row.trail, Run(w, steps, env).row.trail);
    }
  }

  /** No copy has a closing time that the row lacks. */
  predicate ClosingsKnown(w: World) {
    forall id :: id in w.sessions && w.sessions[id].copy.c.closedAt.Some? ==> w.row.c.closedAt.Some?
  }

  lemma WorkClosing(copy: Tracked, seg: Seg, env: Env, now: real)
    ensures var d := Work(copy, seg, env, now).0;
            && (d.c.status != copy.c.status && d.c.status == Closed ==> d.c.closedAt == Some(now))
            && (d.c.status == copy.c.status || d.c.status != Closed ==> d.c.closedAt == copy.c.closedAt)
  {
    match seg
    case Join(e, _, _) => if Absorb(copy.c, e, env, now).Some? { AbsorbKeepsStatus(copy.c, e, env, now); }
    case _ =>
  }

  lemma StepClosings(w: World, st: Step, env: Env)
    requires ClosingsKnown(w)
    ensures ClosingsKnown(Next(w, st, env)) && (w.row.c.closedAt.Some? ==> Next(w, st, env).row.c.closedAt.Some?)
  {
    if st.Commit? && Busy(w, st.id) {
      WorkClosing(w.sessions[st.id].copy, w.sessions[st.id].todo[0], env, st.now);
    }
  }

  predicate Reopens(w: World, st: Step, env: Env) {
    w.row.c.status == Closed && Next(w, st, env).row.c.status != Closed
  }

  lemma StepStampIff(w: World, st: Step, env: Env)
    requires ClosingsKnown(w) && StampExact(w.row.c)
    ensures StampExact(Next(w, st, env).row.c) <==> !Reopens(w, st, env)
  {
    StepClosings(w, st, env);
    if st.Commit? && Busy(w, st.id) {
      WorkClosing(w.sessions[st.id].copy, w.sessions[st.id].todo[0], env, st.now);
    }
  }

  ghost predicate AlwaysStamped(w: World, steps: seq<Step>, env: Env) {
    steps == [] || (AlwaysStamped(w, steps[..|steps| - 1], env) && StampExact(Run(w, steps, env).row.c))
  }

  predicate NeverReopened(w: World, steps: seq<Step>, env: Env) {
    steps == [] || (NeverReopened(w, steps[..|steps| - 1], env)
                    && !Reopens(Run(w, steps[..|steps| - 1], env), steps[|steps| - 1], env))
  }

  lemma {:induction false} RunClosings(w: World, steps: seq<Step>, env: Env)
    requires ClosingsKnown(w)
    ensures ClosingsKnown(Run(w, steps, env))
  {
    if steps != [] {
      RunClosings(w, steps[..|steps| - 1], env);
      StepClosings(Run(w, steps[..|steps| - 1], env), steps[|steps| - 1], env);
    }
  }

  /** The row carries a closing time exactly while it is closed, all along a run, if and only if nothing reopens it. */
  lemma {:induction false} ClosingTimeIff(w: World, steps: seq<Step>, env: Env)
    requires ClosingsKnown(w) && StampExact(w.row.c)
    ensures AlwaysStamped(w, steps, env) <==> NeverReopened(w, steps, env)
    ensures AlwaysStamped(w, steps, env) ==> StampExact(Run(w, steps, env).row.c)
  {
    if steps != [] {
      var n := |steps| - 1;
      ClosingTimeIff(w, steps[..n], env);
      RunClosings(w, steps[..n], env);
      if AlwaysStamped(w, steps[..n], env) {
        StepStampIff(Run(w, steps[..n], env), steps[n], env);
      }
    }
  }

  // ---------- a reopened case ----------

  /** Open again although a closing time is recorded. */
  predicate Reopened(c: Case) { c.closedAt.Some? && c.status != Closed }

  predicate Closes(seg: Seg) { seg.Go? && seg.to == Closed }

  /** A closing change is always the whole rest of a script. */
  predicate ClosersAlone(todo: seq<Seg>) {
    forall k :: 0 <= k < |todo| && Closes(todo[k]) ==> todo == [Go(ANY, Closed)]
  }

  predicate AllClosersAlone(w: World) { forall id :: id in w.sessions ==> ClosersAlone(w.sessions[id].todo) }

  /** A session has decided to close the case and has not committed that yet. */
  predicate Closing(s: Session) { s.todo == [Go(ANY, Closed)] && s.copy.c.status != Closed }

  predicate AboutToClose(w: World) { exists id :: id in w.sessions && Closing(w.sessions[id]) }

  predicate ClosesByHand(st: Step) { st.Begin? && st.op.Manual? && st.op.to == Closed }

  lemma {:induction false} OrdersNeverClose(n: nat)
    ensures forall k :: 0 <= k < |Orders(n)| ==> !Closes(Orders(n)[k])
  {
    if n > 0 { OrdersNeverClose(n - 1); }
  }

  lemma MoreNeverCloses(copy: Tracked, seg: Seg, env: Env, now: real)
    ensures var more := Work(copy, seg, env, now).1; forall k :: 0 <= k < |more| ==> !Closes(more[k])
  {
    if seg.Decide? { OrdersNeverClose(seg.orders); }
  }

  lemma RestClosesAlone(todo: seq<Seg>, more: seq<Seg>)
    requires todo != [] && ClosersAlone(todo) && forall k :: 0 <= k < |more| ==> !Closes(more[k])
    ensures forall k :: 0 <= k < |more + todo[1..]| ==> !Closes((more + todo[1..])[k])
  {
    forall k | 0 <= k < |more + todo[1..]|
      ensures !Closes((more + todo[1..])[k])
    {
      assert |more| <= k ==> (more + todo[1..])[k] == todo[1 + k - |more|];
    }
  }

  lemma StepClosersAlone(w: World, st: Step, env: Env)
    requires AllClosersAlone(w)
    ensures AllClosersAlone(Next(w, st, env))
  {
    if st.Commit? && Busy(w, st.id) {
      var s := w.sessions[st.id];
      MoreNeverCloses(s.copy, s.todo[0], env, st.now);
      RestClosesAlone(s.todo, NextCopy(w, st.id, env, st.now).1);
    }
  }

  lemma {:induction false} RunClosersAlone(w: World, steps: seq<Step>, env: Env)
    requires AllClosersAlone(w)
    ensures AllClosersAlone(Run(w, steps, env))
  {
    if steps != [] {
      RunClosersAlone(w, steps[..|steps| - 1], env);
      StepClosersAlone(Run(w, steps[..|steps| - 1], env), steps[|steps| - 1], env);
    }
  }

  /** What keeps a reopened case from being closed: its closing time shuts out the periodic check, and nobody has
      decided to close it. */
  predicate StaysOpen(w: World) { Reopened(w.row.c) && ClosingsKnown(w) && AllClosersAlone(w) && !AboutToClose(w) }

  lemma WorkCloses(copy: Tracked, seg: Seg, env: Env, now: real)
    requires !Closes(seg) || copy.c.status == Closed
    ensures Work(copy, seg, env, now).0.c.status == Closed ==> copy.c.status == Closed
  {
    match seg
    case Join(e, _, _) => if Absorb(copy.c, e, env, now).Some? { AbsorbKeepsStatus(copy.c, e, env, now); }
    case _ =>
  }

  lemma CommitStaysOpen(w: World, id: nat, now: real, env: Env)
    requires StaysOpen(w) && Busy(w, id)
    ensures StaysOpen(Next(w, Commit(id, now), env))
  {
    var s, v := w.sessions[id], Next(w, Commit(id, now), env);
    assert ClosersAlone(s.todo) && !Closing(s);
    WorkCloses(s.copy, s.todo[0], env, now);
    MoreNeverCloses(s.copy, s.todo[0], env, now);
    RestClosesAlone(s.todo, NextCopy(w, id, env, now).1);
    StepClosings(w, Commit(id, now), env);
    forall j | j in v.sessions
      ensures ClosersAlone(v.sessions[j].todo) && !Closing(v.sessions[j])
    {
      if j == id {
        var todo := v.sessions[id].todo;
        assert todo != [] ==> !Closes(todo[0]);
      } else {
        assert v.sessions[j] == w.sessions[j];
      }
    }
  }

  lemma BeginStaysOpen(w: World, id: nat, op: Op, env: Env)
    requires StaysOpen(w) && !(op.Manual? && op.to == Closed)
    ensures StaysOpen(Next(w, Begin(id, op), env))
  {
    var v := Next(w, Begin(id, op), env);
    forall j | j in v.sessions
      ensures ClosersAlone(v.sessions[j].todo) && !Closing(v.sessions[j])
    {
      if j in w.sessions && v.sessions[j] == w.sessions[j] {
        assert !Closing(w.sessions[j]);
      } else {
        assert v.sessions[j].todo == Script(w.row.c, op);
      }
    }
  }

  lemma StepStaysOpen(w: World, st: Step, env: Env)
    requires StaysOpen(w) && !ClosesByHand(st)
    ensures StaysOpen(Next(w, st, env))
  {
    match st
    case Begin(id, op) => BeginStaysOpen(w, id, op, env);
    case Commit(id, now) => if Busy(w, id) { CommitStaysOpen(w, id, now, env); }
    case End(id) =>
  }

  lemma {:induction false} RunStaysOpen(w: World, steps: seq<Step>, env: Env)
    requires StaysOpen(w) && forall i :: 0 <= i < |steps| ==> !ClosesByHand(steps[i])
    ensures StaysOpen(Run(w, steps, env))
  {
    if steps != [] {
      RunStaysOpen(w, steps[..|steps| - 1], env);
      StepStaysOpen(Run(w, steps[..|steps| - 1], env), steps[|steps| - 1], env);
    }
  }

  lemma ClosingCloses(w: World, id: nat, now: real, env: Env)
    requires id in w.sessions && Closing(w.sessions[id])
    ensures Run(w, [Commit(id, now)], env).row.c.status == Closed
  {
    RunStep(w, [], Commit(id, now), env);
    assert [] + [Commit(id, now)] == [Commit(id, now)];
  }

  ghost predicate ClosedBy(w: World, steps: seq<Step>, env: Env) {
    && (forall i :: 0 <= i < |steps| ==> !ClosesByHand(steps[i]))
    && Run(w, steps, env).row.c.status == Closed
  }

  lemma ClosedAgainIff(w: World, env: Env)
    requires Reopened(w.row.c) && ClosingsKnown(w) && AllClosersAlone(w)
    ensures (exists steps :: ClosedBy(w, steps, env)) <==> AboutToClose(w)
  {
    if AboutToClose(w) {
      var id :| id in w.sessions && Closing(w.sessions[id]);
      ClosingCloses(w, id, 0.0, env);
      assert ClosedBy(w, [Commit(id, 0.0)], env);
    }
    if steps :| ClosedBy(w, steps, env) {
      if !AboutToClose(w) {
        RunStaysOpen(w, steps, env);
        assert false;
      }
    }
  }

  /** In every reachable state: a reopened case can be closed again without a new manual change if and only if a session
      had already decided to close it. The periodic check no longer selects it. */
  lemma ReopenedClosesIff(row: Tracked, before: seq<Step>, env: Env)
    requires Reopened(Run(World(row, map[]), before, env).row.c)
    ensures var w := Run(World(row, map[]), before, env);
            (exists steps :: ClosedBy(w, steps, env)) <==> AboutToClose(w)
  {
    RunClosings(World(row, map[]), before, env);
    RunClosersAlone(World(row, map[]), before, env);
    ClosedAgainIff(Run(World(row, map[]), before, env), env);
  }

  /** Such a decision waits for its commit whatever the other sessions do, through a closing and a reopening too. */
  lemma {:induction false} ClosingWaits(w: World, id: nat, steps: seq<Step>, env: Env)
    requires id in w.sessions && Closing(w.sessions[id])
    requires forall i :: 0 <= i < |steps| ==> steps[i].id != id
    ensures id in Run(w, steps, env).sessions && Closing(Run(w, steps, env).sessions[id])
  {
    if steps != [] {
      ClosingWaits(w, id, steps[..|steps| - 1], env);
    }
  }

  /** An approval follow-up reopens a closed case, which keeps its closing time. */
  lemma ApprovalReopens(w: World, id: nat, now: real, env: Env)
    requires w.row.c.status == Closed && StampExact(w.row.c)
    requires Busy(w, id) && w.sessions[id].todo[0].Approval?
    requires w.sessions[id].copy.c.ids != [] && w.sessions[id].copy.c.status != Responding
    ensures Next(w, Commit(id, now), env).row.c.status == Responding
    ensures Reopened(Next(w, Commit(id, now), env).row.c)
  {}

  // ---------- events, severity, stage ----------

  function Rank(severity: string): int {
    match SeverityRank(severity) case None => -1 case Some(n) => n
  }

  /** What a change of the row should never take away: its events, its severity, its kill-chain stage. */
  ghost predicate Keeps(upper: string -> string, c: Case, d: Case) {
    && (forall x :: x in c.ids ==> x in d.ids)
    && Rank(d.severity) >= Rank(c.severity)
    && KillRank(upper, d.threat) >= KillRank(upper, c.threat)
  }

  predicate Joins(w: World, st: Step, env: Env) {
    && st.Commit? && Busy(w, st.id) && w.sessions[st.id].todo[0].Join?
    && Absorb(w.sessions[st.id].copy.c, w.sessions[st.id].todo[0].event, env, st.now).Some?
  }

  /** Only an event that joins touches these columns. */
  lemma OthersKeepContent(w: World, st: Step, env: Env)
    requires !Joins(w, st, env)
    ensures SameContent(w.row.c, Next(w, st, env).row.c)
    ensures st.Commit? && Busy(w, st.id) ==>
              SameContent(w.sessions[st.id].copy.c, NextCopy(w, st.id, env, st.now).0.c)
  {
    if st.Commit? && Busy(w, st.id) {
      var copy := w.sessions[st.id].copy;
      WorkContent(copy, w.sessions[st.id].todo[0], env, st.now);
      MergeContent(w.row.c, copy.c, NextCopy(w, st.id, env, st.now).0.c);
    }
  }

  lemma WorkContent(copy: Tracked, seg: Seg, env: Env, now: real)
    requires !(seg.Join? && Absorb(copy.c, seg.event, env, now).Some?)
    ensures SameContent(copy.c, Work(copy, seg, env, now).0.c)
  {}

  lemma MergeContent(row: Case, base: Case, c: Case)
    requires SameContent(base, c)
    ensures SameContent(row, Merge(row, base, c))
  {}

  /** The list is written over exactly when the row has an event that the copy has not, other than the one that joins,
      and that one is new to the copy. */
  predicate LosesEvent(row: Case, copy: Case, e: Event) {
    e.id !in copy.ids && exists x :: x in row.ids && x !in copy.ids && x != e.id
  }

  /** The event outranks the severity that was read, but not the one the row has by now. */
  predicate LowersSeverity(row: Case, copy: Case, e: Event) {
    Rank(copy.severity) < Rank(e.severity) < Rank(row.severity)
  }

  predicate LowersStage(upper: string -> string, row: Case, copy: Case, e: Event) {
    && e.kind != "" && e.kind != copy.threat
    && KillRank(upper, copy.threat) <= KillRank(upper, e.kind) < KillRank(upper, row.threat)
  }

  predicate Overwrites(w: World, st: Step, env: Env) {
    Joins(w, st, env) &&
    var row, copy, e := w.row.c, w.sessions[st.id].copy.c, w.sessions[st.id].todo[0].event;
    LosesEvent(row, copy, e) || LowersSeverity(row, copy, e) || LowersStage(env.upper, row, copy, e)
  }

  lemma JoinedColumns(row: Case, c: Case, e: Event, env: Env, now: real)
    requires Absorb(c, e, env, now).Some?
    ensures var d := Merge(row, c, Absorb(c, e, env, now).value);
            && d.ids == (if e.id in c.ids then row.ids else c.ids + [e.id])
            && d.severity == (if Rank(e.severity) > Rank(c.severity) then e.severity else row.severity)
            && d.threat == (if e.kind != "" && e.kind != c.threat
                                && KillRank(env.upper, e.kind) >= KillRank(env.upper, c.threat)
                            then e.kind else row.threat)
  {
    var a := Absorb(c, e, env, now).value;
    if e.id !in c.ids { assert |a.ids| == |c.ids| + 1; }
  }

  lemma JoinKeepsIff(row: Case, c: Case, e: Event, env: Env, now: real)
    requires Absorb(c, e, env, now).Some?
    ensures Keeps(env.upper, row, Merge(row, c, Absorb(c, e, env, now).value)) <==>
            !LosesEvent(row, c, e) && !LowersSeverity(row, c, e) && !LowersStage(env.upper, row, c, e)
  {
    JoinedColumns(row, c, e, env, now);
    var d := Merge(row, c, Absorb(c, e, env, now).value);
    EventsKeptIff(row, c, e, d);
  }

  lemma EventsKeptIff(row: Case, c: Case, e: Event, d: Case)
    requires d.ids == (if e.id in c.ids then row.ids else c.ids + [e.id])
    ensures (forall x :: x in row.ids ==> x in d.ids) <==> !LosesEvent(row, c, e)
  {
    if e.id !in c.ids {
      assert forall x :: x in d.ids <==> x in c.ids || x == e.id;
    }
  }

  lemma StepKeepsIff(w: World, st: Step, env: Env)
    ensures Keeps(env.upper, w.row.c, Next(w, st, env).row.c) <==> !Overwrites(w, st, env)
  {
    if Joins(w, st, env) {
      JoinRow(w, st, env);
      JoinKeepsIff(w.row.c, w.sessions[st.id].copy.c, w.sessions[st.id].todo[0].event, env, st.now);
    } else {
      OthersKeepContent(w, st, env);
      SameKeeps(env.upper, w.row.c, Next(w, st, env).row.c);
    }
  }

  lemma JoinRow(w: World, st: Step, env: Env)
    requires Joins(w, st, env)
    ensures var copy := w.sessions[st.id].copy.c;
            Next(w, st, env).row.c
            == Merge(w.row.c, copy, Absorb(copy, w.sessions[st.id].todo[0].event, env, st.now).value)
  {}

  lemma SameKeeps(upper: string -> string, c: Case, d: Case)
    requires SameContent(c, d)
    ensures Keeps(upper, c, d)
  {}

  ghost predicate AlwaysKeeps(w: World, steps: seq<Step>, env: Env) {
    steps == [] ||
    (AlwaysKeeps(w, steps[..|steps| - 1], env)
     && Keeps(env.upper, Run(w, steps[..|steps| - 1], env).row.c, Run(w, steps, env).row.c))
  }

  predicate NoOverwrites(w: World, steps: seq<Step>, env: Env) {
    steps == [] || (NoOverwrites(w, steps[..|steps| - 1], env)
                    && !Overwrites(Run(w, steps[..|steps| - 1], env), steps[|steps| - 1], env))
  }

  /** Over every interleaving, no change ever takes an event from the row or lowers its severity or its stage if and
      only if no event joins on a copy that misses what the row has gained meanwhile. */
  lemma {:induction false} RowGrowsIff(w: World, steps: seq<Step>, env: Env)
    ensures AlwaysKeeps(w, steps, env) <==> NoOverwrites(w, steps, env)
    ensures AlwaysKeeps(w, steps, env) ==> Keeps(env.upper, w.row.c, Run(w, steps, env).row.c)
  {
    if steps != [] {
      var n := |steps| - 1;
      RowGrowsIff(w, steps[..n], env);
      StepKeepsIff(Run(w, steps[..n], env), steps[n], env);
    }
  }

  // ---------- joins that do not overlap ----------

  /** The copy has what joining events have made of the row. */
  ghost predicate Current(row: Case, copy: Case) { SameContent(row, copy) }

  ghost predicate JoinsCurrent(w: World, steps: seq<Step>, env: Env) {
    steps == [] ||
    (JoinsCurrent(w, steps[..|steps| - 1], env)
     && var v, st := Run(w, steps[..|steps| - 1], env), steps[|steps| - 1];
        (Joins(v, st, env) ==> Current(v.row.c, v.sessions[st.id].copy.c)))
  }

  /** A copy stays current until another session's event joins. */
  lemma CurrentStays(w: World, st: Step, env: Env, id: nat)
    requires id in w.sessions && Current(w.row.c, w.sessions[id].copy.c)
    requires st != End(id) && (Joins(w, st, env) ==> st.id == id)
    ensures id in Next(w, st, env).sessions
    ensures Current(Next(w, st, env).row.c, Next(w, st, env).sessions[id].copy.c)
  {
    if !Joins(w, st, env) {
      OthersKeepContent(w, st, env);
    }
  }

  /** A new session's copy is the row; and a commit on the row as it stands leaves row and copy equal again. */
  lemma FirstReadIsRow(w: World, id: nat, op: Op, env: Env)
    requires id !in w.sessions
    ensures Next(w, Begin(id, op), env).sessions[id].copy.c == w.row.c
    ensures Next(w, Begin(id, op), env).row == w.row
  {}

  lemma CommitOnRow(w: World, id: nat, now: real, env: Env)
    requires Busy(w, id) && w.sessions[id].copy.c == w.row.c
    ensures Next(w, Commit(id, now), env).row.c == Next(w, Commit(id, now), env).sessions[id].copy.c
    ensures Next(w, Commit(id, now), env).sessions[id].copy == NextCopy(w, id, env, now).0
  {
    MergeIs(w.row.c, w.row.c, NextCopy(w, id, env, now).0.c);
  }

  lemma CurrentJoinGrows(w: World, st: Step, env: Env)
    requires Joins(w, st, env) ==> Current(w.row.c, w.sessions[st.id].copy.c)
    ensures Grows(env.upper, w.row.c, Next(w, st, env).row.c)
  {
    if Joins(w, st, env) {
      var copy, e := w.sessions[st.id].copy.c, w.sessions[st.id].todo[0].event;
      AbsorbGrows(copy, e, env, st.now);
      assert SameContent(Absorb(copy, e, env, st.now).value, Next(w, st, env).row.c);
    } else {
      OthersKeepContent(w, st, env);
    }
  }

  lemma GrowsOn(upper: string -> string, a: Case, b: Case, c: Case)
    requires Grows(upper, a, b) && Grows(upper, b, c)
    ensures Grows(upper, a, c)
  {}

  /** When every event joins on a current copy, whatever else overlaps, severity and stage of the row only rise, its
      event list only grows at its end, and stays free of duplicates with an exact count. */
  lemma {:induction false} CurrentRunsGrow(w: World, steps: seq<Step>, env: Env)
    requires JoinsCurrent(w, steps, env)
    ensures Grows(env.upper, w.row.c, Run(w, steps, env).row.c)
  {
    if steps != [] {
      var n := |steps| - 1;
      CurrentRunsGrow(w, steps[..n], env);
      var v := Run(w, steps[..n], env);
      CurrentJoinGrows(v, steps[n], env);
      GrowsOn(env.upper, w.row.c, v.row.c, Next(v, steps[n], env).row.c);
    }
  }

  // ---------- what overlapping sessions cannot break ----------

  ghost predicate AllCounted(w: World) {
    Counted(w.row.c) && forall id :: id in w.sessions ==> Counted(w.sessions[id].copy.c)
  }

  lemma StepCounted(w: World, st: Step, env: Env)
    requires AllCounted(w)
    ensures AllCounted(Next(w, st, env))
  {
    if Joins(w, st, env) {
      var copy, e := w.sessions[st.id].copy.c, w.sessions[st.id].todo[0].event;
      AbsorbGrows(copy, e, env, st.now);
      JoinedColumns(w.row.c, copy, e, env, st.now);
    } else {
      OthersKeepContent(w, st, env);
    }
  }

  /** Whatever overlaps, the event list stays free of duplicates and the count stays that of the list: a commit writes
      both or neither. */
  lemma {:induction false} RunsCounted(w: World, steps: seq<Step>, env: Env)
    requires AllCounted(w)
    ensures AllCounted(Run(w, steps, env))
  {
    if steps != [] {
      RunsCounted(w, steps[..|steps| - 1], env);
      StepCounted(Run(w, steps[..|steps| - 1], env), steps[|steps| - 1], env);
    }
  }

  // ---------- the deadline ----------

  /** The deadline a joining event sets, by what the session read. */
  function NewDeadline(copy: Case, e: Event, now: real): Option<real>
    requires SeverityRank(e.severity).Some? && SeverityRank(copy.severity).Some?
  {
    if Upgrades(copy, e) then Escalate(copy, e, now).deadline else copy.deadline
  }

  lemma JoinDeadline(row: Case, c: Case, e: Event, env: Env, now: real)
    requires Absorb(c, e, env, now).Some?
    ensures var d := NewDeadline(c, e, now);
            && Merge(row, c, Absorb(c, e, env, now).value).deadline == (if d == c.deadline then row.deadline else d)
            && (d == c.deadline || d.Some?)
  {
    AbsorbDeadline(c, e, env, now);
  }

  lemma AbsorbDeadline(c: Case, e: Event, env: Env, now: real)
    requires Absorb(c, e, env, now).Some?
    ensures Absorb(c, e, env, now).value.deadline == NewDeadline(c, e, now)
  {
    var c1 := if e.id in c.ids then c else c.(ids := c.ids + [e.id], count := |c.ids| + 1);
    assert Upgrades(c1, e) == Upgrades(c, e) && Escalate(c1, e, now).deadline == Escalate(c, e, now).deadline;
  }

  /** A deadline that the row still has ahead is put off exactly when an event joins that sets a later one, which it
      works out from the deadline its session read. */
  lemma DeadlinePutOffIff(w: World, st: Step, env: Env, d: real)
    requires w.row.c.deadline == Some(d)
    ensures (Next(w, st, env).row.c.deadline.Some? && Next(w, st, env).row.c.deadline.value > d) <==>
            (Joins(w, st, env) &&
             var copy, e := w.sessions[st.id].copy.c, w.sessions[st.id].todo[0].event;
             NewDeadline(copy, e, st.now) != copy.deadline && NewDeadline(copy, e, st.now).value > d)
    ensures Next(w, st, env).row.c.deadline.Some?
  {
    if Joins(w, st, env) {
      JoinDeadline(w.row.c, w.sessions[st.id].copy.c, w.sessions[st.id].todo[0].event, env, st.now);
    } else {
      OthersKeepContent(w, st, env);
    }
  }

  /** On a current copy that happens only to a deadline that has passed. */
  lemma CurrentDeadlineTightens(w: World, st: Step, env: Env)
    requires Joins(w, st, env) && Current(w.row.c, w.sessions[st.id].copy.c)
    requires w.row.c.deadline.Some? && w.row.c.deadline.value >= st.now
    ensures Next(w, st, env).row.c.deadline.Some?
    ensures Next(w, st, env).row.c.deadline.value <= w.row.c.deadline.value
  {
    AbsorbTightens(w.sessions[st.id].copy.c, w.sessions[st.id].todo[0].event, env, st.now);
  }

  /** A breach mark is taken off only by an event that upgrades a case its session read as overdue. */
  lemma BreachClearedOnly(w: World, st: Step, env: Env)
    requires w.row.c.breached && !Next(w, st, env).row.c.breached
    ensures Joins(w, st, env)
    ensures var copy, e := w.sessions[st.id].copy.c, w.sessions[st.id].todo[0].event;
            copy.breached && Overdue(copy, st.now) && Upgrades(copy, e)
  {
    if !Joins(w, st, env) && st.Commit? && Busy(w, st.id) {
      WorkBreach(w.sessions[st.id].copy, w.sessions[st.id].todo[0], env, st.now);
    }
  }

  lemma WorkBreach(copy: Tracked, seg: Seg, env: Env, now: real)
    requires !(seg.Join? && Absorb(copy.c, seg.event, env, now).Some?)
    ensures copy.c.breached ==> Work(copy, seg, env, now).0.c.breached
  {}

  // ---------- the inputs ----------

  /** An overdue case. */
  const OVERDUE: Case := Case(Open, "high", "high", Some(0.0), false, [1], 1, "", 0.0, None)

  const START: World := World(Tracked(OVERDUE, [Open]), map[])

  predicate NoApproval(w: World) {
    forall id, k :: id in w.sessions && 0 <= k < |w.sessions[id].todo| ==> !w.sessions[id].todo[k].Approval?
  }

  lemma {:induction false} OrdersNoApproval(n: nat)
    ensures forall k :: 0 <= k < |Orders(n)| ==> !Orders(n)[k].Approval?
  {
    if n > 0 { OrdersNoApproval(n - 1); }
  }

  lemma StepNoApproval(w: World, st: Step, env: Env)
    requires NoApproval(w) && !(st.Begin? && st.op.Approve?)
    ensures NoApproval(Next(w, st, env))
  {
    if st.Commit? && Busy(w, st.id) {
      var seg := w.sessions[st.id].todo[0];
      if seg.Decide? { OrdersNoApproval(seg.orders); }
      var more := NextCopy(w, st.id, env, st.now).1;
      assert forall k :: 0 <= k < |more| ==> !more[k].Approval?;
    }
  }

  lemma {:induction false} NoApprovalFits(w: World, steps: seq<Step>, env: Env)
    requires NoApproval(w) && forall i :: 0 <= i < |steps| ==> !(steps[i].Begin? && steps[i].op.Approve?)
    ensures NoApproval(Run(w, steps, env)) && ApprovalsFit(w, steps, env)
  {
    if steps != [] {
      NoApprovalFits(w, steps[..|steps| - 1], env);
      StepNoApproval(Run(w, steps[..|steps| - 1], env), steps[|steps| - 1], env);
    }
  }

  lemma FourSteps(w: World, a: Step, b: Step, c: Step, d: Step, env: Env)
    ensures Run(w, [a], env) == Next(w, a, env)
    ensures Run(w, [a, b], env) == Next(Run(w, [a], env), b, env)
    ensures Run(w, [a, b, c], env) == Next(Run(w, [a, b], env), c, env)
    ensures Run(w, [a, b, c, d], env) == Next(Run(w, [a, b, c], env), d, env)
    ensures [a, b, c, d][..3] == [a, b, c]
  {
    assert [a] == [] + [a] && [a, b] == [a] + [b] && [a, b, c] == [a, b] + [c] && [a, b, c, d] == [a, b, c] + [d];
    RunStep(w, [], a, env);
    RunStep(w, [a], b, env);
    RunStep(w, [a, b], c, env);
    RunStep(w, [a, b, c], d, env);
  }

  /** The row while the deadline check of session 0 and, if `both`, the closing of session 1 are under way. */
  function Deciding(row: Tracked, both: bool): World {
    var copy := Tracked(OVERDUE, [Open]);
    World(row, if both then map[0 := Session(copy, [Mark(false)]), 1 := Session(copy, [Go(ANY, Closed)])]
               else map[0 := Session(copy, [Mark(false)])])
  }

  lemma BothDecide(env: Env)
    ensures Next(START, Begin(0, Sla(false, 10.0)), env) == Deciding(START.row, false)
    ensures Next(Deciding(START.row, false), Begin(1, Manual(Closed, 10.0)), env) == Deciding(START.row, true)
  {}

  lemma ClosingLands(env: Env)
    ensures var w := Next(Deciding(START.row, true), Commit(1, 10.0), env);
            && w.row == Tracked(OVERDUE.(status := Closed, updated := 10.0, closedAt := Some(10.0)), [Open, Closed])
            && 0 in w.sessions && w.sessions[0] == Session(Tracked(OVERDUE, [Open]), [Mark(false)])
  {
    assert [Open] + [Closed] == [Open, Closed];
  }

  lemma MarkLands(w: World, env: Env)
    requires w.row == Tracked(OVERDUE.(status := Closed, updated := 10.0, closedAt := Some(10.0)), [Open, Closed])
    requires 0 in w.sessions && w.sessions[0] == Session(Tracked(OVERDUE, [Open]), [Mark(false)])
    ensures var row := Next(w, Commit(0, 11.0), env).row;
            row.trail == [Open, Closed, Investigating] && row.c.closedAt == Some(10.0)
  {
    assert [Open, Closed] + [Investigating] == [Open, Closed, Investigating];
  }

  lemma OffTheTable(trail: seq<Status>)
    requires trail == [Open, Closed, Investigating]
    ensures !Path(trail)
  {
    assert trail[2] !in Allowed(trail[1]);
  }

  /** The deadline check has selected the open case; it is closed by hand; then the check commits what it decided. The
      statuses are open, closed, investigating, with no approval in sight, and the closing time stays. */
  lemma SlaReopensClosed(env: Env)
    ensures var steps := [Begin(0, Sla(false, 10.0)), Begin(1, Manual(Closed, 10.0)), Commit(1, 10.0), Commit(0, 11.0)];
            var row := Run(START, steps, env).row;
            && row.trail == [Open, Closed, Investigating] && row.c.closedAt == Some(10.0)
            && !Path(row.trail) && ApprovalsFit(START, steps, env)
  {
    var b0, b1, c1, c0 := Begin(0, Sla(false, 10.0)), Begin(1, Manual(Closed, 10.0)), Commit(1, 10.0), Commit(0, 11.0);
    FourSteps(START, b0, b1, c1, c0, env);
    NoApprovalFits(START, [b0, b1, c1, c0], env);
    BothDecide(env);
    ClosingLands(env);
    MarkLands(Run(START, [b0, b1, c1], env), env);
    OffTheTable([Open, Closed, Investigating]);
  }

  const QUIET: Case := Case(Open, "low", "medium", Some(1000.0), false, [1], 1, "", 0.0, None)

  function Joining(e2: Event, e3: Event, both: bool): World {
    var copy := Tracked(QUIET, [Open]);
    var s2, s3 := Session(copy, [Join(e2, true, false)]), Session(copy, [Join(e3, true, false)]);
    World(copy, if both then map[0 := s2, 1 := s3] else map[0 := s2])
  }

  lemma BothRead(e2: Event, e3: Event, env: Env)
    ensures Next(World(Tracked(QUIET, [Open]), map[]), Begin(0, Add(e2, true, false, 10.0)), env)
         == Joining(e2, e3, false)
    ensures Next(Joining(e2, e3, false), Begin(1, Add(e3, true, false, 10.0)), env) == Joining(e2, e3, true)
  {}

  /** A new event joins on the copy from the start: the row gets the list of that copy with this event. */
  lemma JoinLands(w: World, id: nat, e: Event, now: real, env: Env)
    requires Busy(w, id) && w.sessions[id].copy.c == QUIET && w.sessions[id].todo == [Join(e, true, false)]
    requires e.id != 1 && (e.severity == "high" || e.severity == "critical")
    ensures var row := Next(w, Commit(id, now), env).row.c; row.ids == [1, e.id] && row.severity == e.severity
    ensures forall j :: j in w.sessions && j != id ==>
              j in Next(w, Commit(id, now), env).sessions && Next(w, Commit(id, now), env).sessions[j] == w.sessions[j]
  {
    JoinedColumns(w.row.c, QUIET, e, env, now);
    assert [1] + [e.id] == [1, e.id];
  }

  /** Two events join one case in two sessions. The second commit takes the first one's event and severity away. */
  lemma JoinsLoseEvent(env: Env)
    ensures var steps := [Begin(0, Add(Event(2, "", "critical"), true, false, 10.0)),
                          Begin(1, Add(Event(3, "", "high"), true, false, 10.0)), Commit(0, 10.0), Commit(1, 11.0)];
            var mid := Run(World(Tracked(QUIET, [Open]), map[]), steps[..3], env).row.c;
            var end := Run(World(Tracked(QUIET, [Open]), map[]), steps, env).row.c;
            mid.ids == [1, 2] && mid.severity == "critical" && end.ids == [1, 3] && end.severity == "high"
  {
    var e2, e3 := Event(2, "", "critical"), Event(3, "", "high");
    var b0, b1, c0, c1 := Begin(0, Add(e2, true, false, 10.0)), Begin(1, Add(e3, true, false, 10.0)),
                          Commit(0, 10.0), Commit(1, 11.0);
    var w := World(Tracked(QUIET, [Open]), map[]);
    FourSteps(w, b0, b1, c0, c1, env);
    BothRead(e2, e3, env);
    JoinLands(Joining(e2, e3, true), 0, e2, 10.0, env);
    JoinLands(Run(w, [b0, b1, c0], env), 1, e3, 11.0, env);
  }
}
