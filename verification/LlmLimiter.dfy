/** The gate in front of the language model: a fixed number of slots, some of them kept free of non-P0 work.
    The stretches of code between awaits are the atomic steps; settings do not change during a run and a task
    that holds a slot is not cancelled while it gives the slot back. */
module LlmLimiter {
  import opened Common

  // ---------- the two settings ----------

  /** The configured concurrency: 0 counts as unset, and there is always at least one slot. */
  function Limit(setting: int): (n: int)
    ensures setting >= 1 ==> n == setting
    ensures setting == 0 ==> n == 8
    ensures setting < 0 ==> n == 1
  {
    Max(1, if setting == 0 then 8 else setting)
  }

  function Reserve(limit: int, setting: int): (r: int)
    requires limit >= 1
    ensures 0 <= setting < limit ==> r == setting
    ensures setting < 0 ==> r == 0
    ensures setting >= limit ==> r == limit - 1
  {
    Min(Max(0, setting), Max(0, limit - 1))
  }

  datatype Config = Config(limitSetting: int, reserveSetting: int) {
    function Slots(): (n: int)
      ensures n >= 1 && (limitSetting >= 1 ==> n == limitSetting)
    {
      Limit(limitSetting)
    }

    function Kept(): (r: int)
      ensures 0 <= r < Slots() && (0 <= reserveSetting < Slots() ==> r == reserveSetting)
    {
      Reserve(Slots(), reserveSetting)
    }
  }

  // ---------- state and steps ----------

  /** `notified` is set when a leaving task has woken this one and it has not looked again yet. */
  datatype Phase = Waiting(p0: bool, notified: bool) | Holding(p0: bool)

  datatype Gate = Gate(used: int, p0Used: int, waiters: int)

  datatype Sys = Sys(gate: Gate, tasks: map<nat, Phase>)

  datatype Step = Enter(id: nat, p0: bool) | Retry(id: nat) | GiveUp(id: nat) | Leave(id: nat)

  predicate CanEnter(g: Gate, p0: bool, c: Config) {
    g.used < c.Slots() && (p0 || Max(0, g.used - g.p0Used) < Max(0, c.Slots() - c.Kept()))
  }

  function Bit(b: bool): int { if b then 1 else 0 }

  function Admit(g: Gate, p0: bool): Gate { Gate(g.used + 1, g.p0Used + Bit(p0), g.waiters) }

  function Unwait(g: Gate): Gate { g.(waiters := Max(0, g.waiters - 1)) }

  function Release(g: Gate, p0: bool): Gate {
    Gate(Max(0, g.used - 1), if p0 then Max(0, g.p0Used - 1) else g.p0Used, g.waiters)
  }

  function Wake(tasks: map<nat, Phase>): map<nat, Phase> {
    map id | id in tasks :: if tasks[id].Waiting? then Waiting(tasks[id].p0, true) else tasks[id]
  }

  predicate Enabled(s: Sys, a: Step) {
    match a
    case Enter(id, _) => id !in s.tasks
    case Retry(id) => id in s.tasks && s.tasks[id].Waiting? && s.tasks[id].notified
    case GiveUp(id) => id in s.tasks && s.tasks[id].Waiting?
    case Leave(id) => id in s.tasks && s.tasks[id].Holding?
  }

  function Next(s: Sys, a: Step, c: Config): Sys
    requires Enabled(s, a)
  {
    match a
    case Enter(id, p0) =>
      var g := s.gate.(waiters := s.gate.waiters + 1);
      if CanEnter(g, p0, c) then Sys(Unwait(Admit(g, p0)), s.tasks[id := Holding(p0)])
      else Sys(g, s.tasks[id := Waiting(p0, false)])
    case Retry(id) =>
      var p0 := s.tasks[id].p0;
      if CanEnter(s.gate, p0, c) then Sys(Unwait(Admit(s.gate, p0)), s.tasks[id := Holding(p0)])
      else s.(tasks := s.tasks[id := Waiting(p0, false)])
    case GiveUp(id) => Sys(Unwait(s.gate), s.tasks - {id})
    case Leave(id) => Sys(Release(s.gate, s.tasks[id].p0), Wake(s.tasks - {id}))
  }

  /** A run takes the steps that are enabled when their turn comes. */
  function Run(steps: seq<Step>, c: Config): Sys {
    if steps == [] then Sys(Gate(0, 0, 0), map[])
    else
      var s := Run(steps[..|steps| - 1], c);
      if Enabled(s, steps[|steps| - 1]) then Next(s, steps[|steps| - 1], c) else s
  }

  // ---------- what every interleaving keeps ----------

  function Holders(tasks: map<nat, Phase>): set<nat> { set id | id in tasks && tasks[id].Holding? }

  function P0Holders(tasks: map<nat, Phase>): set<nat> { set id | id in tasks && tasks[id].Holding? && tasks[id].p0 }

  function Waiters(tasks: map<nat, Phase>): set<nat> { set id | id in tasks && tasks[id].Waiting? }

  ghost predicate Counted(s: Sys) {
    && s.gate.used == |Holders(s.tasks)|
    && s.gate.p0Used == |P0Holders(s.tasks)|
    && s.gate.waiters == |Waiters(s.tasks)|
  }

  ghost predicate Within(g: Gate, c: Config) {
    0 <= g.p0Used <= g.used <= c.Slots() && g.used - g.p0Used <= c.Slots() - c.Kept()
  }

  /** A task that sleeps without a pending wake-up could not enter now. */
  ghost predicate NoLostWakeup(s: Sys, c: Config) {
    forall id :: id in s.tasks && s.tasks[id].Waiting? && !s.tasks[id].notified ==> !CanEnter(s.gate, s.tasks[id].p0, c)
  }

  lemma SubsetCard(a: set<nat>, b: set<nat>)
    requires a <= b
    ensures |a| <= |b|
  {
    if a != {} {
      var x :| x in a;
      SubsetCard(a - {x}, b - {x});
    }
  }

  lemma EnterSets(tasks: map<nat, Phase>, id: nat, p0: bool)
    requires id in tasks ==> tasks[id].Waiting?
    ensures var t := tasks[id := Holding(p0)];
            && Holders(t) == Holders(tasks) + {id}
            && P0Holders(t) == (if p0 then P0Holders(tasks) + {id} else P0Holders(tasks))
            && Waiters(t) == Waiters(tasks) - {id}
  {}

  lemma WaitSets(tasks: map<nat, Phase>, id: nat, p0: bool, n: bool)
    requires id in tasks ==> tasks[id].Waiting?
    ensures var t := tasks[id := Waiting(p0, n)];
            && Holders(t) == Holders(tasks) && P0Holders(t) == P0Holders(tasks) && Waiters(t) == Waiters(tasks) + {id}
  {}

  lemma RemoveSets(tasks: map<nat, Phase>, id: nat)
    ensures var t := tasks - {id};
            && Holders(t) == Holders(tasks) - {id} && P0Holders(t) == P0Holders(tasks) - {id}
            && Waiters(t) == Waiters(tasks) - {id}
  {}

  lemma WakeSets(tasks: map<nat, Phase>)
    ensures Holders(Wake(tasks)) == Holders(tasks) && P0Holders(Wake(tasks)) == P0Holders(tasks)
         && Waiters(Wake(tasks)) == Waiters(tasks)
  {}

  lemma AdmitCounts(s: Sys, g: Gate, id: nat, p0: bool)
    requires Counted(s) && (id in s.tasks ==> s.tasks[id].Waiting?)
    requires g == s.gate.(waiters := |Waiters(s.tasks) + {id}|)
    ensures Counted(Sys(Unwait(Admit(g, p0)), s.tasks[id := Holding(p0)]))
  {
    EnterSets(s.tasks, id, p0);
    var w := Waiters(s.tasks);
    assert w - {id} == (w + {id}) - {id};
    assert id !in Holders(s.tasks) && id !in P0Holders(s.tasks);
  }

  lemma WaitCounts(s: Sys, id: nat, p0: bool)
    requires Counted(s) && (id in s.tasks ==> s.tasks[id].Waiting?)
    ensures Counted(Sys(s.gate.(waiters := |Waiters(s.tasks) + {id}|), s.tasks[id := Waiting(p0, false)]))
  {
    WaitSets(s.tasks, id, p0, false);
  }

  lemma LeaveCounts(s: Sys, id: nat, c: Config)
    requires Counted(s) && Enabled(s, Leave(id))
    ensures Counted(Next(s, Leave(id), c))
  {
    RemoveSets(s.tasks, id);
    WakeSets(s.tasks - {id});
    assert id in Holders(s.tasks) && id !in Waiters(s.tasks);
    if s.tasks[id].p0 {
      assert id in P0Holders(s.tasks);
    } else {
      assert id !in P0Holders(s.tasks) && P0Holders(s.tasks) - {id} == P0Holders(s.tasks);
    }
    assert Waiters(s.tasks) - {id} == Waiters(s.tasks);
  }

  lemma GiveUpCounts(s: Sys, id: nat, c: Config)
    requires Counted(s) && Enabled(s, GiveUp(id))
    ensures Counted(Next(s, GiveUp(id), c))
  {
    assert id in Waiters(s.tasks) && id !in Holders(s.tasks) && id !in P0Holders(s.tasks);
    RemoveSets(s.tasks, id);
    assert Holders(s.tasks) - {id} == Holders(s.tasks) && P0Holders(s.tasks) - {id} == P0Holders(s.tasks);
  }

  lemma EnterCounts(s: Sys, id: nat, p0: bool, c: Config)
    requires Counted(s) && Enabled(s, Enter(id, p0))
    ensures Counted(Next(s, Enter(id, p0), c))
  {
    assert id !in Waiters(s.tasks);
    AdmitCounts(s, s.gate.(waiters := s.gate.waiters + 1), id, p0);
    WaitCounts(s, id, p0);
  }

  lemma RetryCounts(s: Sys, id: nat, c: Config)
    requires Counted(s) && Enabled(s, Retry(id))
    ensures Counted(Next(s, Retry(id), c))
  {
    assert id in Waiters(s.tasks) && Waiters(s.tasks) + {id} == Waiters(s.tasks);
    AdmitCounts(s, s.gate, id, s.tasks[id].p0);
    WaitCounts(s, id, s.tasks[id].p0);
  }

  lemma StepCounts(s: Sys, a: Step, c: Config)
    requires Counted(s) && Enabled(s, a)
    ensures Counted(Next(s, a, c))
  {
    match a
    case Enter(id, p0) => EnterCounts(s, id, p0, c);
    case Retry(id) => RetryCounts(s, id, c);
    case GiveUp(id) => GiveUpCounts(s, id, c);
    case Leave(id) => LeaveCounts(s, id, c);
  }

  lemma StepStaysWithin(s: Sys, a: Step, c: Config)
    requires Counted(s) && Within(s.gate, c) && Enabled(s, a)
    ensures Within(Next(s, a, c).gate, c)
  {
    StepCounts(s, a, c);
    SubsetCard(P0Holders(Next(s, a, c).tasks), Holders(Next(s, a, c).tasks));
  }

  lemma StepKeepsWakeups(s: Sys, a: Step, c: Config)
    requires Within(s.gate, c) && NoLostWakeup(s, c) && Enabled(s, a)
    ensures NoLostWakeup(Next(s, a, c), c)
  {}

  /** Over every interleaving the three counters are exact, no more than the limit hold slots, non-P0 holders stay out
      of the reserve, and nobody who could enter is left asleep. */
  lemma {:induction false} RunsAreSafe(steps: seq<Step>, c: Config)
    ensures Counted(Run(steps, c)) && Within(Run(steps, c).gate, c) && NoLostWakeup(Run(steps, c), c)
  {
    if steps != [] {
      var n := |steps| - 1;
      RunsAreSafe(steps[..n], c);
      var s := Run(steps[..n], c);
      if Enabled(s, steps[n]) {
        StepCounts(s, steps[n], c);
        StepStaysWithin(s, steps[n], c);
        StepKeepsWakeups(s, steps[n], c);
      }
    }
  }

  /** P0 enters whenever fewer P0 tasks hold slots than are reserved, so a P0 task sleeps unwoken only while P0
      itself fills the reserve; one slot is always outside the reserve. */
  lemma ReserveServesP0(steps: seq<Step>, c: Config)
    ensures var s := Run(steps, c);
            && (s.gate.p0Used < c.Kept() ==> CanEnter(s.gate, true, c))
            && (s.gate.used - s.gate.p0Used == 0 && s.gate.used < c.Slots() ==> CanEnter(s.gate, false, c))
            && forall id :: id in s.tasks && s.tasks[id] == Waiting(true, false) ==>
                 s.gate.used == c.Slots() && s.gate.p0Used >= c.Kept()
  {
    RunsAreSafe(steps, c);
  }

  /** The guards that clamp at zero never change a result. */
  lemma GuardsNeverBind(steps: seq<Step>, a: Step, c: Config)
    requires Enabled(Run(steps, c), a)
    ensures var s := Run(steps, c);
            match a
            case Enter(_, _) => Max(0, s.gate.used - s.gate.p0Used) == s.gate.used - s.gate.p0Used
            case Retry(_) => Unwait(s.gate).waiters == s.gate.waiters - 1
            case GiveUp(_) => Unwait(s.gate).waiters == s.gate.waiters - 1
            case Leave(id) =>
              var p0 := s.tasks[id].p0;
              Release(s.gate, p0) == Gate(s.gate.used - 1, s.gate.p0Used - Bit(p0), s.gate.waiters)
  {
    RunsAreSafe(steps, c);
    var s := Run(steps, c);
    match a
    case Enter(_, _) =>
    case Retry(id) => assert id in Waiters(s.tasks);
    case GiveUp(id) => assert id in Waiters(s.tasks);
    case Leave(id) =>
      assert id in Holders(s.tasks);
      if s.tasks[id].p0 { assert id in P0Holders(s.tasks); }
  }

  /** Room for one more task of a class, by who holds slots. */
  ghost predicate RoomFor(tasks: map<nat, Phase>, p0: bool, c: Config) {
    && |Holders(tasks)| < c.Slots()
    && (p0 || |Holders(tasks)| - |P0Holders(tasks)| < c.Slots() - c.Kept())
  }

  /** In every reachable state a task that arrives, or that looks again, gets a slot if and only if one is free and,
      unless it is P0, fewer than the unreserved slots are held by others than P0. All other tasks stay as they are,
      and one that gets no slot waits. */
  lemma AdmittedIff(steps: seq<Step>, c: Config, a: Step)
    requires (a.Enter? || a.Retry?) && Enabled(Run(steps, c), a)
    ensures var s := Run(steps, c); var p0 := if a.Enter? then a.p0 else s.tasks[a.id].p0;
            Next(s, a, c).tasks == s.tasks[a.id := if RoomFor(s.tasks, p0, c) then Holding(p0) else Waiting(p0, false)]
  {
    RunsAreSafe(steps, c);
  }

  /** A task that leaves gives its slot up and every waiting task has a look; one that gives up waiting just goes. */
  lemma GoneAndWoken(steps: seq<Step>, c: Config, a: Step)
    requires (a.Leave? || a.GiveUp?) && Enabled(Run(steps, c), a)
    ensures var s, t := Run(steps, c), Next(Run(steps, c), a, c);
            && t.tasks.Keys == s.tasks.Keys - {a.id}
            && (forall id :: id in t.tasks && s.tasks[id].Holding? ==> t.tasks[id] == s.tasks[id])
            && (forall id :: id in t.tasks && s.tasks[id].Waiting? ==>
                  t.tasks[id] == Waiting(s.tasks[id].p0, s.tasks[id].notified || a.Leave?))
  {}

  predicate Holds(s: Sys, id: nat) { id in s.tasks && s.tasks[id].Holding? }

  /** Wake-ups carry no order. In every reachable state an arrival passes a waiting task of its own class exactly when
      that task has been woken, has not looked again yet, and would enter if it looked now. */
  lemma OvertakesIff(steps: seq<Step>, c: Config, waiting: nat, id: nat)
    requires var s := Run(steps, c);
             waiting in s.tasks && s.tasks[waiting].Waiting? && Enabled(s, Enter(id, s.tasks[waiting].p0))
    ensures var s := Run(steps, c);
            Holds(Next(s, Enter(id, s.tasks[waiting].p0), c), id) <==>
            s.tasks[waiting].notified && Holds(Next(s, Retry(waiting), c), waiting)
    ensures var s := Run(steps, c);
            !Holds(Next(s, Enter(id, s.tasks[waiting].p0), c), waiting)
  {
    RunsAreSafe(steps, c);
  }

  const OVERTAKING: seq<Step> := [Enter(0, true), Enter(1, true), Leave(0), Enter(2, true)]

  /** Such a state: with one slot, task 1 waits and is woken, and the newcomer 2 takes the slot. */
  lemma NewcomerMayOvertake(c: Config)
    requires c.Slots() == 1
    ensures Run(OVERTAKING[..2], c).tasks == map[0 := Holding(true), 1 := Waiting(true, false)]
    ensures Run(OVERTAKING[..3], c).tasks == map[1 := Waiting(true, true)]
    ensures Run(OVERTAKING, c).tasks == map[1 := Waiting(true, true), 2 := Holding(true)]
  {
    RunStep(OVERTAKING[..0], Enter(0, true), c);
    assert Run([], c) == Sys(Gate(0, 0, 0), map[]);
    assert OVERTAKING[..1] == OVERTAKING[..0] + [Enter(0, true)];
    assert Run(OVERTAKING[..1], c) == Sys(Gate(1, 1, 0), map[0 := Holding(true)]);
    RunStep(OVERTAKING[..1], Enter(1, true), c);
    assert OVERTAKING[..2] == OVERTAKING[..1] + [Enter(1, true)];
    RunStep(OVERTAKING[..2], Leave(0), c);
    assert OVERTAKING[..3] == OVERTAKING[..2] + [Leave(0)];
    RunStep(OVERTAKING[..3], Enter(2, true), c);
    assert OVERTAKING == OVERTAKING[..3] + [Enter(2, true)];
  }

  lemma RunStep(steps: seq<Step>, a: Step, c: Config)
    ensures Run(steps + [a], c) == if Enabled(Run(steps, c), a) then Next(Run(steps, c), a, c) else Run(steps, c)
  {
    assert (steps + [a])[..|steps|] == steps;
  }

  // ---------- the limiter itself ----------

  /** What `_enter` and `_leave` do between two awaits. The waiting tasks belong to the event loop. */
  class Limiter {
    const config: Config
    var used: int
    var p0Used: int
    var waiters: int

    constructor (config: Config)
      ensures this.config == config && Now() == Gate(0, 0, 0)
    {
      this.config := config;
      used, p0Used, waiters := 0, 0, 0;
    }

    ghost function Now(): Gate
      reads this
    {
      Gate(used, p0Used, waiters)
    }

    method TryAdmit(p0: bool) returns (entered: bool)
      modifies this
      ensures entered <==> CanEnter(old(Now()), p0, config)
      ensures 0 <= old(p0Used) <= old(used) ==>
                (entered <==> old(used) < config.Slots()
                              && (p0 || old(used - p0Used) < config.Slots() - config.Kept()))
      ensures Now() == if entered then Unwait(Admit(old(Now()), p0)) else old(Now())
    {
      var limit := Limit(config.limitSetting);
      var reserved := Reserve(limit, config.reserveSetting);
      if used >= limit {
        return false;
      }
      if !p0 {
        var nonP0 := Max(0, used - p0Used);
        if nonP0 >= Max(0, limit - reserved) {
          return false;
        }
      }
      used := used + 1;
      if p0 {
        p0Used := p0Used + 1;
      }
      waiters := Max(0, waiters - 1);
      return true;
    }

    /** From the call to the first wait, or to the slot. */
    method Arrive(ghost s: Sys, ghost id: nat, p0: bool) returns (entered: bool)
      requires s.gate == Now() && id !in s.tasks
      modifies this
      ensures Now() == Next(s, Enter(id, p0), config).gate
      ensures Next(s, Enter(id, p0), config).tasks == s.tasks[id := if entered then Holding(p0) else Waiting(p0, false)]
    {
      waiters := waiters + 1;
      entered := TryAdmit(p0);
    }

    /** From one wake-up to the next wait, or to the slot. */
    method LookAgain(ghost s: Sys, ghost id: nat, p0: bool) returns (entered: bool)
      requires s.gate == Now() && id in s.tasks && s.tasks[id] == Waiting(p0, true)
      modifies this
      ensures Now() == Next(s, Retry(id), config).gate
      ensures Next(s, Retry(id), config).tasks == s.tasks[id := if entered then Holding(p0) else Waiting(p0, false)]
    {
      entered := TryAdmit(p0);
    }

    /** Timeout or cancellation while waiting. */
    method Abandon(ghost s: Sys, ghost id: nat)
      requires s.gate == Now() && Enabled(s, GiveUp(id))
      modifies this
      ensures Now() == Next(s, GiveUp(id), config).gate
    {
      waiters := Max(0, waiters - 1);
    }

    /** Give the slot back; the waiting tasks are then all woken. */
    method LeaveSlot(ghost s: Sys, ghost id: nat, p0: bool)
      requires s.gate == Now() && id in s.tasks && s.tasks[id] == Holding(p0)
      modifies this
      ensures Now() == Next(s, Leave(id), config).gate
    {
      used := Max(0, used - 1);
      if p0 {
        p0Used := Max(0, p0Used - 1);
      }
    }
  }
}
