/** The life of one case: manual and automatic status changes, event aggregation, the deadline and its breach, as one
    database session carries them out on its own copy of the row. What overlapping sessions make of the row is the
    subject of `CaseSessions`. Times are minutes. `upper` is the normalisation of event types; which priorities
    dispatch is configured. */
module CaseLifecycle {
  import opened Common

  datatype Status = Open | Investigating | PendingApproval | Responding | Resolved | Closed | FalsePositive

  function Allowed(from: Status): set<Status> {
    match from
    case Open => {Investigating, Closed, FalsePositive}
    case Investigating => {PendingApproval, Responding, Resolved, Closed, FalsePositive}
    case PendingApproval => {Responding, Investigating, Closed}
    case Responding => {Resolved, Investigating, Closed, PendingApproval}
    case Resolved => {Closed, Investigating}
    case Closed => {}
    case FalsePositive => {Closed, Investigating}
  }

  datatype Case = Case(status: Status, severity: string, priority: string, deadline: Option<real>, breached: bool,
                       ids: seq<int>, count: nat, threat: string, updated: real, closedAt: Option<real>)

  datatype Event = Event(id: int, kind: string, severity: string)

  /** The position in the severity order; blank counts as info, and an unknown name raises. */
  function SeverityRank(s: string): Option<nat> {
    if s == "" || s == "info" then Some(0) else if s == "low" then Some(1) else if s == "medium" then Some(2)
    else if s == "high" then Some(3) else if s == "critical" then Some(4) else None
  }

  function KillRank(upper: string -> string, kind: string): nat {
    var k := upper(kind);
    if k == "PORT_SCAN" then 10 else if k == "XSS_ATTACK" then 15 else if k == "BRUTE_FORCE" || k == "SSH_BRUTE" then 20
    else if k == "SQL_INJECTION" then 25 else if k == "LATERAL_MOVE" || k == "LATERAL_MOVEMENT" then 30
    else if k == "PRIVILEGE_ESCALATION" then 35 else if k == "C2_BEACON" || k == "MALWARE_DETECT" then 40
    else if k == "DATA_EXFIL" then 50 else if k == "RANSOMWARE" then 60 else 0
  }

  function PriorityRank(p: string): int {
    if p == "critical" then 3 else if p == "high" then 2 else if p == "medium" then 1 else if p == "low" then 0 else -1
  }

  function SlaMinutes(priority: string): real {
    if priority == "critical" then 240.0 else if priority == "high" then 480.0 else if priority == "low" then 4320.0
    else 1440.0
  }

  /** The table by target: which statuses lead to each. No status leads back to open, and none out of closed. */
  lemma AllowedByTarget(from: Status)
    ensures Open !in Allowed(from)
    ensures Investigating in Allowed(from) <==>
            from == Open || from == PendingApproval || from == Responding || from == Resolved || from == FalsePositive
    ensures PendingApproval in Allowed(from) <==> from == Investigating || from == Responding
    ensures Responding in Allowed(from) <==> from == Investigating || from == PendingApproval
    ensures Resolved in Allowed(from) <==> from == Investigating || from == Responding
    ensures Closed in Allowed(from) <==> from != Closed
    ensures FalsePositive in Allowed(from) <==> from == Open || from == Investigating
  {}

  const SEVERITIES: seq<string> := ["info", "low", "medium", "high", "critical"]

  const PRIORITIES: seq<string> := ["low", "medium", "high", "critical"]

  /** The orders of severities and priorities, and the hours a priority allows; any other name has no severity, the
      lowest priority and a day. */
  lemma OrdersAre(s: string)
    ensures forall k: nat :: k < |SEVERITIES| ==> SeverityRank(SEVERITIES[k]) == Some(k)
    ensures SeverityRank("") == Some(0)
    ensures s != "" && s !in SEVERITIES ==> SeverityRank(s) == None
    ensures forall k: nat :: k < |PRIORITIES| ==> PriorityRank(PRIORITIES[k]) == k
    ensures s !in PRIORITIES ==> PriorityRank(s) == -1 && SlaMinutes(s) == 24.0 * 60.0
    ensures SlaMinutes("critical") == 4.0 * 60.0 && SlaMinutes("high") == 8.0 * 60.0
    ensures SlaMinutes("medium") == 24.0 * 60.0 && SlaMinutes("low") == 72.0 * 60.0
  {
    assert s !in SEVERITIES ==> forall k: nat :: k < |SEVERITIES| ==> s != SEVERITIES[k];
    assert s !in PRIORITIES ==> forall k: nat :: k < |PRIORITIES| ==> s != PRIORITIES[k];
    assert SEVERITIES[0] == "info" && SEVERITIES[1] == "low" && SEVERITIES[2] == "medium";
    assert SEVERITIES[3] == "high" && SEVERITIES[4] == "critical";
    assert PRIORITIES[0] == "low" && PRIORITIES[1] == "medium" && PRIORITIES[2] == "high";
    assert PRIORITIES[3] == "critical";
  }

  /** The stages of a kill chain by their event types, earliest first. */
  const STAGES: seq<set<string>> := [
    {"PORT_SCAN"}, {"XSS_ATTACK"}, {"BRUTE_FORCE", "SSH_BRUTE"}, {"SQL_INJECTION"},
    {"LATERAL_MOVE", "LATERAL_MOVEMENT"}, {"PRIVILEGE_ESCALATION"}, {"C2_BEACON", "MALWARE_DETECT"},
    {"DATA_EXFIL"}, {"RANSOMWARE"}]

  /** Types of a stage rank alike, later stages higher, and a type of no stage below all. */
  lemma StagesRank(upper: string -> string, a: string, b: string, i: nat, j: nat)
    requires i < |STAGES| && j < |STAGES| && upper(a) in STAGES[i] && upper(b) in STAGES[j]
    ensures KillRank(upper, a) > 0
    ensures KillRank(upper, a) < KillRank(upper, b) <==> i < j
  {
    StageIs(upper, a, i);
    StageIs(upper, b, j);
  }

  function StageValue(i: nat): nat
    requires i < 9
  {
    [10, 15, 20, 25, 30, 35, 40, 50, 60][i]
  }

  lemma StageIs(upper: string -> string, kind: string, i: nat)
    requires i < |STAGES| && upper(kind) in STAGES[i]
    ensures KillRank(upper, kind) == StageValue(i)
  {}

  lemma NoStage(upper: string -> string, kind: string)
    requires forall i: nat :: i < |STAGES| ==> upper(kind) !in STAGES[i]
    ensures KillRank(upper, kind) == 0
  {
    assert upper(kind) !in STAGES[0] && upper(kind) !in STAGES[1] && upper(kind) !in STAGES[2];
    assert upper(kind) !in STAGES[3] && upper(kind) !in STAGES[4] && upper(kind) !in STAGES[5];
    assert upper(kind) !in STAGES[6] && upper(kind) !in STAGES[7] && upper(kind) !in STAGES[8];
  }

  datatype Env = Env(upper: string -> string, dispatchPriorities: set<string>)

  /** A case, as one session holds it or as the row stands, and every status it has had, the current one last. */
  datatype Tracked = Tracked(c: Case, trail: seq<Status>)

  // ---------- status changes ----------

  /** `update_status`: a change that is not allowed leaves everything as it is. */
  function Move(s: Tracked, to: Status, now: real): Tracked {
    if to !in Allowed(s.c.status) then s
    else Tracked(s.c.(status := to, updated := now, closedAt := if to == Closed then Some(now) else s.c.closedAt),
                 s.trail + [to])
  }

  /** `_advance`: only from the expected status. */
  function Advance(s: Tracked, from: Status, to: Status, now: real): Tracked {
    if s.c.status == from then Move(s, to, now) else s
  }

  /** `existing` is an unfinished work order; `fails` says that creating one raises. */
  function AutoDispatch(s: Tracked, env: Env, existing: bool, fails: bool, now: real): Tracked {
    if s.c.priority !in env.dispatchPriorities then s
    else
      var s1 := Advance(s, Open, Investigating, now);
      if !existing && fails then s1 else Advance(s1, Investigating, Responding, now)
  }

  /** A finished disposition order pushes its case towards resolved. */
  function CompleteOrder(s: Tracked, now: real): Tracked {
    Move(Advance(s, Open, Investigating, now), Resolved, now)
  }

  function CompleteOrders(s: Tracked, n: nat, now: real): Tracked {
    if n == 0 then s else CompleteOrder(CompleteOrders(s, n - 1, now), now)
  }

  predicate Overdue(c: Case, now: real) { c.deadline.Some? && c.deadline.value < now }

  predicate IsActive(st: Status) { st == Open || st == Investigating || st == Responding }

  predicate MayResolve(c: Case, now: real, idle: real, response: bool, pending: bool) {
    && idle >= 0.0 && IsActive(c.status)
    && !(pending && !response && !Overdue(c, now))
    && (response || Overdue(c, now))
    && (Overdue(c, now) || idle == 0.0 || c.updated <= now - idle)
  }

  function AutoResolve(s: Tracked, now: real, idle: real, response: bool, pending: bool, orders: nat): Tracked {
    if !MayResolve(s.c, now, idle, response, pending) then s
    else
      var s1 := CompleteOrders(s, orders, now);
      if s1.c.status == Resolved then s1
      else
        var s2 := Advance(s1, Open, Investigating, now);
        if s2.c.status == Investigating || s2.c.status == Responding then Move(s2, Resolved, now) else s2
  }

  /** What the deadline check selects, and what it does to a case it has selected. */
  predicate Breaches(c: Case, now: real) { IsActive(c.status) && Overdue(c, now) && !c.breached }

  function Marked(s: Tracked, now: real, pending: bool): Tracked {
    if pending then s else Advance(s.(c := s.c.(breached := true)), Open, Investigating, now)
  }

  function SlaCheck(s: Tracked, at: real, now: real, pending: bool): Tracked {
    if Breaches(s.c, at) then Marked(s, now, pending) else s
  }

  predicate IsStale(c: Case, now: real, hours: real) {
    hours > 0.0 && c.status == Resolved && c.closedAt == None && c.updated < now - hours * 60.0
  }

  function CloseStale(s: Tracked, at: real, now: real, hours: real): Tracked {
    if IsStale(s.c, at, hours) then Move(s, Closed, now) else s
  }

  function AssignTo(s: Tracked, now: real): Tracked {
    if s.c.status == Open then Tracked(s.c.(status := Investigating, updated := now), s.trail + [Investigating])
    else s.(c := s.c.(updated := now))
  }

  /** The follow-up of an approved work order writes the status without asking the table. */
  function Approved(s: Tracked, now: real): Tracked {
    if s.c.ids == [] then s
    else Tracked(s.c.(status := Responding, updated := now),
                 if s.c.status == Responding then s.trail else s.trail + [Responding])
  }

  // ---------- aggregation ----------

  predicate Upgrades(c: Case, e: Event)
    requires SeverityRank(e.severity).Some? && SeverityRank(c.severity).Some?
  {
    SeverityRank(e.severity).value > SeverityRank(c.severity).value
  }

  function Escalate(c: Case, e: Event, now: real): Case {
    var priority := if e.severity == "critical" || e.severity == "high" then e.severity else c.priority;
    var limit := now + SlaMinutes(priority);
    var rearm := c.deadline == None || c.deadline.value > limit || c.deadline.value < now;
    c.(severity := e.severity, priority := priority,
       deadline := if rearm then Some(limit) else c.deadline,
       breached := c.breached && !Overdue(c, now))
  }

  /** The event joins the case; None when a severity is unknown and the code raises. */
  function Absorb(c: Case, e: Event, env: Env, now: real): Option<Case> {
    if SeverityRank(e.severity) == None || SeverityRank(c.severity) == None then None
    else
      var c1 := if e.id in c.ids then c else c.(ids := c.ids + [e.id], count := |c.ids| + 1);
      var c2 := if Upgrades(c1, e) then Escalate(c1, e, now) else c1;
      var c3 := if e.kind != "" && KillRank(env.upper, e.kind) >= KillRank(env.upper, c2.threat)
                then c2.(threat := e.kind) else c2;
      Some(c3.(updated := now))
  }

  function AddEvent(s: Tracked, e: Event, env: Env, existing: bool, fails: bool, now: real): Tracked {
    match Absorb(s.c, e, env, now)
    case None => s
    case Some(c) =>
      if c.priority != s.c.priority || c.priority == "high" || c.priority == "critical"
      then AutoDispatch(s.(c := c), env, existing, fails, now)
      else s.(c := c)
  }

  // ---------- operations ----------

  datatype Op =
    | Manual(to: Status, now: real)
    | Assign(now: real)
    | Add(event: Event, existing: bool, fails: bool, now: real)
    | Resolve(idle: real, response: bool, pending: bool, orders: nat, now: real)
    | FinishOrder(now: real)
    | Sla(pending: bool, now: real)
    | Stale(hours: real, now: real)
    | Approve(now: real)

  /** One operation on a session's own copy. */
  function Apply(s: Tracked, op: Op, env: Env): Tracked {
    match op
    case Manual(to, now) => Move(s, to, now)
    case Assign(now) => AssignTo(s, now)
    case Add(e, existing, fails, now) => AddEvent(s, e, env, existing, fails, now)
    case Resolve(idle, response, pending, orders, now) => AutoResolve(s, now, idle, response, pending, orders)
    case FinishOrder(now) => CompleteOrder(s, now)
    case Sla(pending, now) => SlaCheck(s, now, now, pending)
    case Stale(hours, now) => CloseStale(s, now, now, hours)
    case Approve(now) => Approved(s, now)
  }

  // ---------- the trail is a path in the table ----------

  ghost predicate Path(trail: seq<Status>) {
    forall i :: 0 < i < |trail| ==> trail[i] in Allowed(trail[i - 1])
  }

  ghost predicate Linked(s: Tracked) { s.trail != [] && s.trail[|s.trail| - 1] == s.c.status }

  /** The trail stays linked to the status and grows only along the table. */
  ghost predicate Follows(s: Tracked, t: Tracked) {
    Linked(t) && (Path(t.trail) <==> Path(s.trail))
  }

  lemma PathSnoc(trail: seq<Status>, to: Status)
    requires trail != []
    ensures Path(trail + [to]) <==> Path(trail) && to in Allowed(trail[|trail| - 1])
  {
    var t := trail + [to];
    if Path(t) {
      assert t[|trail|] in Allowed(t[|trail| - 1]);
      forall i | 0 < i < |trail| ensures trail[i] in Allowed(trail[i - 1]) { assert t[i] in Allowed(t[i - 1]); }
    }
  }

  lemma MoveFollows(s: Tracked, to: Status, now: real)
    requires Linked(s)
    ensures Follows(s, Move(s, to, now))
  {
    PathSnoc(s.trail, to);
  }

  lemma AdvanceFollows(s: Tracked, from: Status, to: Status, now: real)
    requires Linked(s)
    ensures Follows(s, Advance(s, from, to, now))
  {
    MoveFollows(s, to, now);
  }

  lemma DispatchFollows(s: Tracked, env: Env, existing: bool, fails: bool, now: real)
    requires Linked(s)
    ensures Follows(s, AutoDispatch(s, env, existing, fails, now))
  {
    AdvanceFollows(s, Open, Investigating, now);
    AdvanceFollows(Advance(s, Open, Investigating, now), Investigating, Responding, now);
  }

  lemma OrderFollows(s: Tracked, now: real)
    requires Linked(s)
    ensures Follows(s, CompleteOrder(s, now))
  {
    AdvanceFollows(s, Open, Investigating, now);
    MoveFollows(Advance(s, Open, Investigating, now), Resolved, now);
  }

  lemma {:induction false} OrdersFollow(s: Tracked, n: nat, now: real)
    requires Linked(s)
    ensures Follows(s, CompleteOrders(s, n, now))
  {
    if n > 0 {
      OrdersFollow(s, n - 1, now);
      OrderFollows(CompleteOrders(s, n - 1, now), now);
    }
  }

  lemma ResolveFollows(s: Tracked, now: real, idle: real, response: bool, pending: bool, orders: nat)
    requires Linked(s)
    ensures Follows(s, AutoResolve(s, now, idle, response, pending, orders))
  {
    OrdersFollow(s, orders, now);
    var s1 := CompleteOrders(s, orders, now);
    AdvanceFollows(s1, Open, Investigating, now);
    MoveFollows(Advance(s1, Open, Investigating, now), Resolved, now);
  }

  lemma AbsorbKeepsStatus(c: Case, e: Event, env: Env, now: real)
    requires Absorb(c, e, env, now).Some?
    ensures Absorb(c, e, env, now).value.status == c.status && Absorb(c, e, env, now).value.closedAt == c.closedAt
  {}

  lemma AddFollows(s: Tracked, e: Event, env: Env, existing: bool, fails: bool, now: real)
    requires Linked(s)
    ensures Follows(s, AddEvent(s, e, env, existing, fails, now))
  {
    if Absorb(s.c, e, env, now).Some? {
      AbsorbKeepsStatus(s.c, e, env, now);
      DispatchFollows(s.(c := Absorb(s.c, e, env, now).value), env, existing, fails, now);
    }
  }

  /** Every operation but the approval follow-up moves along the table. */
  lemma StepFollows(s: Tracked, op: Op, env: Env)
    requires Linked(s) && !op.Approve?
    ensures Follows(s, Apply(s, op, env))
  {
    match op
    case Manual(to, now) => MoveFollows(s, to, now);
    case Assign(now) => PathSnoc(s.trail, Investigating);
    case Add(e, existing, fails, now) => AddFollows(s, e, env, existing, fails, now);
    case Resolve(idle, response, pending, orders, now) => ResolveFollows(s, now, idle, response, pending, orders);
    case FinishOrder(now) => OrderFollows(s, now);
    case Sla(pending, now) => AdvanceFollows(s.(c := s.c.(breached := true)), Open, Investigating, now);
    case Stale(hours, now) => MoveFollows(s, Closed, now);
  }

  /** The statuses in which the approval follow-up is within the table; without events it does nothing. */
  predicate ApprovalFits(c: Case) {
    c.ids == [] || c.status == Investigating || c.status == PendingApproval || c.status == Responding
  }

  lemma ApproveFollowsIff(s: Tracked, now: real)
    requires Linked(s)
    ensures Linked(Approved(s, now))
    ensures Path(Approved(s, now).trail) <==> Path(s.trail) && ApprovalFits(s.c)
  {
    PathSnoc(s.trail, Responding);
  }

  ghost predicate StampExact(c: Case) { c.closedAt.Some? <==> c.status == Closed }

  // ---------- what the automatic steps reach ----------

  /** Dispatch takes an open or investigated case to responding, unless creating the order raises. */
  lemma DispatchReaches(s: Tracked, env: Env, existing: bool, fails: bool, now: real)
    requires s.c.priority in env.dispatchPriorities
    ensures var t := AutoDispatch(s, env, existing, fails, now);
            t.c.status == if s.c.status == Open || s.c.status == Investigating
                          then (if fails && !existing then Investigating else Responding)
                          else s.c.status
  {}

  lemma {:induction false} OrdersResolve(s: Tracked, n: nat, now: real)
    requires IsActive(s.c.status)
    ensures CompleteOrders(s, n, now).c.status == if n == 0 then s.c.status else Resolved
  {
    if n > 0 { OrdersResolve(s, n - 1, now); }
  }

  /** It applies to an active case whose deadline has passed, or that an automatic response has reached and nobody has
      touched for a while, and that is all: a pending approval plays no part. */
  lemma ResolvesIff(c: Case, now: real, idle: real, response: bool, pending: bool)
    ensures MayResolve(c, now, idle, response, pending) <==>
            && idle >= 0.0 && (c.status == Open || c.status == Investigating || c.status == Responding)
            && ((c.deadline.Some? && c.deadline.value < now) || (response && (idle == 0.0 || now - c.updated >= idle)))
  {}

  /** A change that the table allows is made, at this time; any other leaves the case as it is. */
  lemma MoveIs(s: Tracked, to: Status, now: real)
    ensures to !in Allowed(s.c.status) ==> Move(s, to, now) == s
    ensures to in Allowed(s.c.status) ==>
              var c := Move(s, to, now).c;
              c.status == to && c.updated == now && c.closedAt == (if to == Closed then Some(now) else s.c.closedAt)
              && SameContent(s.c, c) && c.breached == s.c.breached
  {}

  /** Where the other operations lead, status by status. */
  lemma OperationsReach(s: Tracked, now: real)
    ensures AssignTo(s, now).c.status == (if s.c.status == Open then Investigating else s.c.status)
    ensures AssignTo(s, now).c.updated == now
    ensures CompleteOrder(s, now).c.status ==
              (if s.c.status == Open || s.c.status == Investigating || s.c.status == Responding then Resolved
               else s.c.status)
    ensures Approved(s, now).c.status == (if s.c.ids == [] then s.c.status else Responding)
    ensures s.c.ids != [] ==> Approved(s, now).c.updated == now
  {}

  /** A case that was resolved by hand or by order is closed automatically only so many hours after that. */
  lemma ResolvedWaits(s: Tracked, resolved: real, later: real, now: real, hours: real)
    requires Resolved in Allowed(s.c.status) && s.c.closedAt == None && hours > 0.0
    ensures var r := Move(s, Resolved, resolved);
            CloseStale(r, later, now, hours).c.status == Closed <==> later - resolved > hours * 60.0
  {}

  /** Without a positive number of hours, or when a closing time is there, nothing is closed automatically. */
  lemma NeverStale(s: Tracked, at: real, now: real, hours: real)
    requires hours <= 0.0 || s.c.closedAt.Some? || s.c.status != Resolved
    ensures CloseStale(s, at, now, hours) == s
  {}

  /** An event that joins starts the automatic dispatch when it leaves the case with a high or critical priority or has
      changed its priority; else it only joins. */
  lemma JoinDispatches(s: Tracked, e: Event, env: Env, existing: bool, fails: bool, now: real)
    requires Absorb(s.c, e, env, now).Some?
    ensures var c := Absorb(s.c, e, env, now).value;
            AddEvent(s, e, env, existing, fails, now)
            == if s.c.priority == "high" || s.c.priority == "critical" || c.priority != s.c.priority
               then AutoDispatch(s.(c := c), env, existing, fails, now) else s.(c := c)
  {}

  /** When it applies, automatic resolution always ends in resolved, however many orders it completes on the way. */
  lemma AutoResolveReaches(s: Tracked, now: real, idle: real, response: bool, pending: bool, orders: nat)
    requires MayResolve(s.c, now, idle, response, pending)
    ensures AutoResolve(s, now, idle, response, pending, orders).c.status == Resolved
  {
    OrdersResolve(s, orders, now);
  }

  /** A pending approval holds nothing back: the guard that asks for one decides only what the next one rejects too. */
  lemma PendingApprovalIgnored(s: Tracked, now: real, idle: real, response: bool, orders: nat)
    ensures AutoResolve(s, now, idle, response, true, orders) == AutoResolve(s, now, idle, response, false, orders)
  {}

  /** After the check, an active overdue case without a pending approval is marked and no longer open. */
  lemma SlaCheckMarks(s: Tracked, at: real, now: real)
    ensures var overdue := (s.c.status == Open || s.c.status == Investigating || s.c.status == Responding)
                           && s.c.deadline.Some? && s.c.deadline.value < at && !s.c.breached;
            var r := SlaCheck(s, at, now, false).c;
            && (overdue ==> r.breached && r.status == (if s.c.status == Open then Investigating else s.c.status))
            && (!overdue ==> r == s.c)
    ensures SlaCheck(s, at, now, true) == s
  {}

  // ---------- what aggregation never undoes ----------

  ghost predicate Distinct(ids: seq<int>) { forall i, j :: 0 <= i < j < |ids| ==> ids[i] != ids[j] }

  ghost predicate Counted(c: Case) { Distinct(c.ids) && c.count == |c.ids| }

  /** Severity and kill-chain stage never go down, and no event is lost. */
  ghost predicate Grows(upper: string -> string, c: Case, d: Case) {
    && (SeverityRank(c.severity).Some? ==>
          SeverityRank(d.severity).Some? && SeverityRank(d.severity).value >= SeverityRank(c.severity).value)
    && (SeverityRank(c.severity) == None ==> d.severity == c.severity)
    && KillRank(upper, d.threat) >= KillRank(upper, c.threat)
    && c.ids <= d.ids
    && (Counted(c) ==> Counted(d))
  }

  lemma AbsorbGrows(c: Case, e: Event, env: Env, now: real)
    requires Absorb(c, e, env, now).Some?
    ensures Grows(env.upper, c, Absorb(c, e, env, now).value) && e.id in Absorb(c, e, env, now).value.ids
  {
    var d := Absorb(c, e, env, now).value;
    if e.id !in c.ids { assert d.ids == c.ids + [e.id]; }
  }

  /** The fields that status changes leave alone. */
  ghost predicate SameContent(c: Case, d: Case) {
    d.severity == c.severity && d.priority == c.priority && d.deadline == c.deadline && d.ids == c.ids
    && d.count == c.count && d.threat == c.threat
  }

  lemma {:induction false} OrdersKeepContent(s: Tracked, n: nat, now: real)
    ensures SameContent(s.c, CompleteOrders(s, n, now).c) && CompleteOrders(s, n, now).c.breached == s.c.breached
  {
    if n > 0 { OrdersKeepContent(s, n - 1, now); }
  }

  lemma DispatchKeepsContent(s: Tracked, env: Env, existing: bool, fails: bool, now: real)
    ensures var t := AutoDispatch(s, env, existing, fails, now); SameContent(s.c, t.c) && t.c.breached == s.c.breached
  {}

  lemma AddContent(s: Tracked, e: Event, env: Env, existing: bool, fails: bool, now: real)
    ensures var t := AddEvent(s, e, env, existing, fails, now);
            match Absorb(s.c, e, env, now)
            case None => t == s
            case Some(d) => SameContent(d, t.c) && t.c.breached == d.breached
  {
    var r := Absorb(s.c, e, env, now);
    if r.Some? { DispatchKeepsContent(s.(c := r.value), env, existing, fails, now); }
  }

  lemma ResolveKeepsContent(s: Tracked, now: real, idle: real, response: bool, pending: bool, orders: nat)
    ensures var t := AutoResolve(s, now, idle, response, pending, orders);
            SameContent(s.c, t.c) && t.c.breached == s.c.breached
  {
    OrdersKeepContent(s, orders, now);
  }

  lemma StatusStepContent(s: Tracked, op: Op, env: Env)
    requires !op.Add?
    ensures SameContent(s.c, Apply(s, op, env).c)
    ensures s.c.breached ==> Apply(s, op, env).c.breached
  {
    match op
    case Resolve(idle, response, pending, orders, now) => ResolveKeepsContent(s, now, idle, response, pending, orders);
    case _ =>
  }

  lemma SameGrows(upper: string -> string, c: Case, d: Case, t: Case)
    requires Grows(upper, c, d) && SameContent(d, t)
    ensures Grows(upper, c, t)
  {}

  /** No operation takes anything away from the copy it works on. */
  lemma StepGrows(s: Tracked, op: Op, env: Env)
    ensures Grows(env.upper, s.c, Apply(s, op, env).c)
  {
    var t := Apply(s, op, env);
    if op.Add? {
      AddContent(s, op.event, env, op.existing, op.fails, op.now);
      var r := Absorb(s.c, op.event, env, op.now);
      if r.Some? {
        AbsorbGrows(s.c, op.event, env, op.now);
        SameGrows(env.upper, s.c, r.value, t.c);
      }
    } else {
      StatusStepContent(s, op, env);
    }
  }

  lemma AbsorbTightens(c: Case, e: Event, env: Env, now: real)
    requires Absorb(c, e, env, now).Some?
    ensures var d := Absorb(c, e, env, now).value;
            && (c.deadline.Some? && c.deadline.value >= now ==>
                  d.deadline.Some? && d.deadline.value <= c.deadline.value)
            && (c.breached && !d.breached ==> Overdue(c, now) && Upgrades(c, e))
  {}

  /** What an event does to the case it joins, field by field. */
  lemma AbsorbIs(c: Case, e: Event, env: Env, now: real)
    requires Absorb(c, e, env, now).Some?
    ensures var d := Absorb(c, e, env, now).value;
            var urgent := e.severity == "critical" || e.severity == "high";
            var higher := SeverityRank(e.severity).value > SeverityRank(c.severity).value;
            && d.ids == (if e.id in c.ids then c.ids else c.ids + [e.id])
            && d.severity == (if higher then e.severity else c.severity)
            && d.priority == (if higher && urgent then e.severity else c.priority)
            && d.threat == (if e.kind != "" && KillRank(env.upper, e.kind) >= KillRank(env.upper, c.threat)
                            then e.kind else c.threat)
            && d.status == c.status && d.updated == now
  {}

  /** An upgrade sets the deadline that its priority asks for, unless the one there is sooner and has not passed, and
      takes off the breach mark of a deadline that has passed. Without one both stay. */
  lemma UpgradeDeadline(c: Case, e: Event, env: Env, now: real)
    requires Absorb(c, e, env, now).Some?
    ensures var d := Absorb(c, e, env, now).value; var limit := now + SlaMinutes(d.priority);
            && (!Upgrades(c, e) ==> d.deadline == c.deadline && d.breached == c.breached)
            && (Upgrades(c, e) && c.deadline.Some? && now <= c.deadline.value ==>
                  d.deadline == Some(if c.deadline.value <= limit then c.deadline.value else limit)
                  && d.breached == c.breached)
            && (Upgrades(c, e) && (c.deadline == None || c.deadline.value < now) ==>
                  d.deadline == Some(limit) && (c.deadline.Some? ==> !d.breached)
                  && (c.deadline == None ==> d.breached == c.breached))
  {}

  /** Aggregation can lower a priority: exactly when a critical one meets an upgrade of the severity to high. */
  lemma PriorityDropsIff(c: Case, e: Event, env: Env, now: real)
    requires Absorb(c, e, env, now).Some?
    ensures PriorityRank(Absorb(c, e, env, now).value.priority) < PriorityRank(c.priority)
       <==> c.priority == "critical" && e.severity == "high" && Upgrades(c, e)
  {}

  // ---------- the case itself ----------

  /** The object a session holds: it is read once and no other session changes it. A commit inside a method writes what
      the method has changed to the row. */
  class SecurityCase {
    var status: Status
    var severity: string
    var priority: string
    var deadline: Option<real>
    var breached: bool
    var ids: seq<int>
    var count: nat
    var threat: string
    var updated: real
    var closedAt: Option<real>
    ghost var trail: seq<Status>

    /** A case opened for an event, with the priority its target's importance asks for. */
    constructor (e: Event, priority: string, now: real)
      ensures Linked(Now()) && Path(trail) && Counted(Now().c) && StampExact(Now().c)
      ensures Now() == Tracked(Case(Open, if e.severity == "" then "medium" else e.severity, priority,
                                    Some(now + SlaMinutes(priority)), false, [e.id], 1, e.kind, now, None), [Open])
    {
      status, this.priority := Open, priority;
      severity := if e.severity == "" then "medium" else e.severity;
      deadline, breached := Some(now + SlaMinutes(priority)), false;
      ids, count, threat := [e.id], 1, e.kind;
      updated, closedAt, trail := now, None, [Open];
    }

    ghost function Now(): Tracked
      reads this
    {
      Tracked(Case(status, severity, priority, deadline, breached, ids, count, threat, updated, closedAt), trail)
    }

    method UpdateStatus(to: Status, now: real) returns (ok: bool)
      modifies this`status, this`updated, this`closedAt, this`trail
      ensures ok <==> to in Allowed(old(status))
      ensures Now() == Move(old(Now()), to, now)
    {
      if to !in Allowed(status) {
        return false;
      }
      status, updated := to, now;
      if to == Closed {
        closedAt := Some(now);
      }
      trail := trail + [to];
      return true;
    }

    method AssignCase(now: real)
      modifies this`status, this`updated, this`trail
      ensures Now() == AssignTo(old(Now()), now)
    {
      updated := now;
      if status == Open {
        status := Investigating;
        trail := trail + [Investigating];
      }
    }

    method MaybeAutoDispatch(env: Env, existing: bool, fails: bool, now: real) returns (dispatched: bool)
      modifies this`status, this`updated, this`closedAt, this`trail
      ensures Now() == AutoDispatch(old(Now()), env, existing, fails, now)
      ensures dispatched <==> priority in env.dispatchPriorities && (existing || !fails)
    {
      if priority !in env.dispatchPriorities {
        return false;
      }
      if status == Open {
        var _ := UpdateStatus(Investigating, now);
      }
      if !existing && fails {
        return false;
      }
      if status == Investigating {
        var _ := UpdateStatus(Responding, now);
      }
      return true;
    }

    /** False when a severity is unknown and the code raises. */
    method AddEventToCase(e: Event, env: Env, existing: bool, fails: bool, now: real) returns (ok: bool)
      modifies this
      ensures ok <==> Absorb(old(Now()).c, e, env, now).Some?
      ensures Now() == AddEvent(old(Now()), e, env, existing, fails, now)
    {
      if SeverityRank(e.severity) == None || SeverityRank(severity) == None {
        return false;
      }
      var before := priority;
      TakeIn(e, env, now);
      if priority != before || priority == "high" || priority == "critical" {
        var _ := MaybeAutoDispatch(env, existing, fails, now);
      }
      return true;
    }

    method TakeIn(e: Event, env: Env, now: real)
      requires SeverityRank(e.severity).Some? && SeverityRank(severity).Some?
      modifies this`ids, this`count, this`severity, this`priority, this`deadline, this`breached, this`threat,
               this`updated
      ensures Absorb(old(Now()).c, e, env, now) == Some(Now().c)
    {
      if e.id !in ids {
        ids := ids + [e.id];
        count := |ids|;
      }
      if SeverityRank(e.severity).value > SeverityRank(severity).value {
        RaiseSeverity(e, now);
      }
      if e.kind != "" && KillRank(env.upper, e.kind) >= KillRank(env.upper, threat) {
        threat := e.kind;
      }
      updated := now;
    }

    method RaiseSeverity(e: Event, now: real)
      modifies this`severity, this`priority, this`deadline, this`breached
      ensures Now() == Tracked(Escalate(old(Now()).c, e, now), old(trail))
    {
      severity := e.severity;
      if e.severity == "critical" || e.severity == "high" {
        priority := e.severity;
      }
      var limit := now + SlaMinutes(priority);
      var late := deadline.Some? && deadline.value < now;
      if deadline == None || deadline.value > limit || late {
        deadline := Some(limit);
        if breached && late {
          breached := false;
        }
      }
    }

    method TryAutoResolve(now: real, idle: real, response: bool, pending: bool, orders: nat) returns (resolved: bool)
      modifies this`status, this`updated, this`closedAt, this`trail
      ensures resolved <==> MayResolve(old(Now()).c, now, idle, response, pending)
      ensures Now() == AutoResolve(old(Now()), now, idle, response, pending, orders)
    {
      var stale := deadline.Some? && deadline.value < now;
      if idle < 0.0 || !(status == Open || status == Investigating || status == Responding) {
        return false;
      }
      if pending && !response && !stale {
        return false;
      }
      if !response && !stale {
        return false;
      }
      if response && !stale && idle > 0.0 && updated > now - idle {
        return false;
      }
      for i := 0 to orders
        invariant Now() == CompleteOrders(old(Now()), i, now)
      {
        OrderCompleted(now);
      }
      if status != Resolved {
        if status == Open {
          var _ := UpdateStatus(Investigating, now);
        }
        if status == Investigating || status == Responding {
          var _ := UpdateStatus(Resolved, now);
        }
      }
      return true;
    }

    method OrderCompleted(now: real)
      modifies this`status, this`updated, this`closedAt, this`trail
      ensures Now() == CompleteOrder(old(Now()), now)
    {
      if status == Open {
        var _ := UpdateStatus(Investigating, now);
      }
      var _ := UpdateStatus(Resolved, now);
    }

    /** What the deadline check does to a case it has selected. */
    method MarkBreached(now: real, pending: bool)
      modifies this
      ensures Now() == Marked(old(Now()), now, pending)
    {
      if pending {
        return;
      }
      breached := true;
      if status == Open {
        var _ := UpdateStatus(Investigating, now);
      }
    }
  }
}
