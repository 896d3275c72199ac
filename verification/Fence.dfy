/** Host controllers: a record is durable before the request that authorizes an effect is
    complete, and a fence drains the records. Calls may be issued at any time; that at most one
    controller can have an effect is a matter of fencing first. */
module Fence {
  import Runs

  /** A controller process. `asked` says it has received a complete request; without one it
      does nothing. `live` is the process, not its number. */
  datatype Controller = Controller(pid: nat, worker: nat, live: bool, asked: bool)

  datatype Stage =
    | Idle                                                   // between calls
    | Spawned(t: nat)                                        // controller started, no record
    | Recorded(t: nat)
    | Asked(t: nat)                                          // request written, in part or whole
    | Draining(must: set<nat>, gone: set<nat>)               // records a fence owes, records cleared
    | Clearing(other: nat, must: set<nat>, gone: set<nat>)   // seen dead, record about to be removed
    | Stopped                                                // ended uncertain, or died

  /** `running` holds the numbers of all live processes, `worker` counts the workers so far, and
      `unresolved` says some call ended without its controller's exit being observed. */
  datatype State = State(
    running: set<nat>, controllers: map<nat, Controller>, records: set<nat>,
    worker: nat, stage: Stage, unresolved: bool)

  const START := State({}, map[], {}, 0, Idle, false)

  datatype Act =
    | Spawn(t: nat, pid: nat) | Note | Ask(whole: bool) | Close | Abandon | Lose
    | StartFence | Inspect(other: nat) | Clear | EndFence | GiveUp
    | Exit(t: nat) | Boot(pid: nat) | Halt(pid: nat) | Die | Succeed

  // ---------------------------------------------------------------- steps

  predicate InCall(stage: Stage) {
    stage.Spawned? || stage.Recorded? || stage.Asked?
  }

  predicate Fencing(stage: Stage) {
    stage.Draining? || stage.Clearing?
  }

  /** A controller that can still have an effect. */
  predicate Loose(s: State, t: nat) {
    t in s.controllers && s.controllers[t].live && s.controllers[t].asked
  }

  predicate OwnedBy(s: State, pid: nat) {
    exists t :: t in s.controllers && s.controllers[t].live && s.controllers[t].pid == pid
  }

  predicate Enabled(s: State, a: Act) {
    match a
    case Spawn(t, pid) => s.stage.Idle? && t !in s.controllers && pid !in s.running
    case Note => s.stage.Spawned?
    case Ask(_) => s.stage.Recorded?
    case Close => InCall(s.stage) && s.stage.t in s.controllers && !s.controllers[s.stage.t].live
    case Abandon => InCall(s.stage)
    case Lose => InCall(s.stage)
    case StartFence => s.stage.Idle?
    case Inspect(other) => s.stage.Draining? && other in s.records && other in s.controllers
    && s.controllers[other].pid !in s.running
    case Clear => s.stage.Clearing?
    case EndFence => s.stage.Draining? && forall o :: o in s.stage.must && o in s.records ==> o in s.stage.gone
    case GiveUp => Fencing(s.stage)
    case Exit(t) => t in s.controllers && s.controllers[t].live
    case Boot(pid) => pid !in s.running
    case Halt(pid) => pid in s.running && !OwnedBy(s, pid)
    case Die => true
    case Succeed => s.stage.Stopped? || s.stage.Idle?
  }

  function Apply(s: State, a: Act): State
    requires Enabled(s, a)
  {
    match a
    case Spawn(t, pid) =>
      s.(running := s.running + {pid}, controllers := s.controllers[t := Controller(pid, s.worker, true, false)],
         stage := Spawned(t))
    case Note => s.(records := s.records + {s.stage.t}, stage := Recorded(s.stage.t))
    case Ask(whole) =>
      var t := s.stage.t;
      var s := s.(stage := Asked(t));
      if t in s.controllers && whole then s.(controllers := s.controllers[t := s.controllers[t].(asked := true)]) else s
    case Close => s.(records := s.records - {s.stage.t}, stage := Idle)
    case Abandon => s.(stage := Stopped, unresolved := true)
    // the exit could not be asked for: a definite error, though the controller may live on
    case Lose => s.(stage := Idle, unresolved := true)
    case StartFence => s.(stage := Draining(s.records, {}))
    case Inspect(other) => s.(stage := Clearing(other, s.stage.must, s.stage.gone))
    case Clear => s.(records := s.records - {s.stage.other},
                     stage := Draining(s.stage.must, s.stage.gone + {s.stage.other}))
    case EndFence => s.(stage := Idle, unresolved := false)
    case GiveUp => s.(stage := Stopped)
    case Exit(t) =>
      s.(running := s.running - {s.controllers[t].pid},
         controllers := s.controllers[t := s.controllers[t].(live := false)])
    case Boot(pid) => s.(running := s.running + {pid})
    case Halt(pid) => s.(running := s.running - {pid})
    case Die => s.(stage := Stopped, unresolved := s.unresolved || InCall(s.stage))
    case Succeed => s.(stage := Idle, worker := s.worker + 1)
  }

  // ---------------------------------------------------------------- the invariant

  predicate Kept(s: State, t: nat)
    requires t in s.controllers
  {
    var c := s.controllers[t];
    && (c.live ==> c.pid in s.running)
    && (c.live && c.asked ==> t in s.records)
    && (c.live && c.asked && Fencing(s.stage) ==> t in s.stage.must)
  }

  /** Live controllers have different numbers. */
  predicate Distinct(s: State, t: nat, u: nat)
    requires t in s.controllers && u in s.controllers
  {
    t != u && s.controllers[t].live && s.controllers[u].live ==> s.controllers[t].pid != s.controllers[u].pid
  }

  predicate Safe(s: State) {
    && (forall t :: t in s.controllers ==> Kept(s, t))
    && (forall t, u :: t in s.controllers && u in s.controllers ==> Distinct(s, t, u))
    && s.records <= s.controllers.Keys
    && (InCall(s.stage) ==> s.stage.t in s.controllers)
    && (s.stage.Spawned? || s.stage.Recorded? ==> !s.controllers[s.stage.t].asked)
    && (s.stage.Recorded? || s.stage.Asked? ==> s.stage.t in s.records)
    && (Fencing(s.stage) ==> forall o :: o in s.stage.gone ==> o in s.controllers && !s.controllers[o].live)
    && (s.stage.Clearing? ==> s.stage.other in s.controllers && !s.controllers[s.stage.other].live)
  }

  lemma StepIsSafe(s: State, a: Act)
    requires Safe(s) && Enabled(s, a)
    ensures Safe(Apply(s, a))
  {
    var s' := Apply(s, a);
    forall t | t in s'.controllers ensures Kept(s', t) {
      if t in s.controllers {
        assert Kept(s, t);
        if a.Exit? && a.t != t {
          assert Distinct(s, t, a.t);
        }
      }
    }
    forall t, u | t in s'.controllers && u in s'.controllers ensures Distinct(s', t, u) {
      if t in s.controllers && u in s.controllers {
        assert Distinct(s, t, u);
      }
      if t in s.controllers {
        assert Kept(s, t);
      }
      if u in s.controllers {
        assert Kept(s, u);
      }
    }
    if a.Inspect? {
      assert Kept(s, a.other);
    }
    if a.Ask? {
      assert s'.controllers.Keys == s.controllers.Keys;
    }
  }

  // ---------------------------------------------------------------- whole runs

  predicate Step(s: State, a: Act, s': State) {
    Enabled(s, a) && s' == Apply(s, a)
  }

  /** Workers one after another, their controllers, and everyone else, step by step. */
  ghost predicate Run(states: seq<State>, acts: seq<Act>) {
    Runs.Run(states, acts, START, Step)
  }

  lemma RunIsSafe(states: seq<State>, acts: seq<Act>, i: nat)
    requires Run(states, acts) && i < |states|
    ensures Safe(states[i])
  {
    forall s, a, s' | Safe(s) && Step(s, a, s') ensures Safe(s') {
      StepIsSafe(s, a);
    }
    Runs.InvariantThroughout(states, acts, START, Step, Safe, i);
  }

  /** In every interleaving of calls, timeouts and deaths, a controller that can still have an
      effect is on record. */
  lemma LooseIsRecorded(states: seq<State>, acts: seq<Act>, i: nat, t: nat)
    requires Run(states, acts) && i < |states| && Loose(states[i], t)
    ensures t in states[i].records
  {
    RunIsSafe(states, acts, i);
    assert Kept(states[i], t);
  }

  /** In every interleaving, when a fence succeeds no controller of any worker can still have an effect. */
  lemma FenceLeavesNoneLoose(states: seq<State>, acts: seq<Act>, i: nat, t: nat)
    requires Run(states, acts) && i < |acts| && acts[i].EndFence?
    ensures !Loose(states[i + 1], t)
  {
    RunIsSafe(states, acts, i);
    assert Runs.Stepped(states, acts, Step, i);
    FencedIsQuiet(states[i]);
  }

  lemma FencedIsQuiet(s: State)
    requires Safe(s) && Enabled(s, EndFence)
    ensures forall t :: !Loose(Apply(s, EndFence), t)
  {
  }

  // ---------------------------------------------------------------- fencing first

  /** A call that ends here leaves its controller's exit unobserved. */
  predicate Leaves(s: State, a: Act) {
    InCall(s.stage) && (a.Abandon? || a.Lose? || a.Die?)
  }

  /** Some call was left that way and no fence has succeeded since. */
  ghost predicate LeftOpen(states: seq<State>, acts: seq<Act>, i: nat)
    requires i <= |acts| < |states|
  {
    exists j :: 0 <= j < i && Leaves(states[j], acts[j]) && NoFence(acts, j + 1, i)
  }

  predicate NoFence(acts: seq<Act>, from: nat, to: nat)
    requires to <= |acts|
  {
    forall k :: from <= k < to ==> !acts[k].EndFence?
  }

  /** What the flag of a state says of the run that led to it. */
  lemma {:induction false} UnresolvedIsLeftOpen(states: seq<State>, acts: seq<Act>, i: nat)
    requires Run(states, acts) && i < |states|
    ensures states[i].unresolved <==> LeftOpen(states, acts, i)
  {
    if i > 0 {
      UnresolvedIsLeftOpen(states, acts, i - 1);
      assert Runs.Stepped(states, acts, Step, i - 1);
      if states[i].unresolved {
        if Leaves(states[i - 1], acts[i - 1]) {
          assert NoFence(acts, i, i);
        } else {
          var j :| 0 <= j < i - 1 && Leaves(states[j], acts[j]) && NoFence(acts, j + 1, i - 1);
          assert NoFence(acts, j + 1, i);
        }
      }
      if j :| 0 <= j < i && Leaves(states[j], acts[j]) && NoFence(acts, j + 1, i) {
        if j < i - 1 {
          assert NoFence(acts, j + 1, i - 1);
        }
      }
    }
  }

  /** Every call is issued only after a fence has succeeded since the last one left open. */
  ghost predicate FencesFirst(states: seq<State>, acts: seq<Act>)
    requires |states| == |acts| + 1
  {
    forall i :: 0 <= i < |acts| && acts[i].Spawn? ==> !LeftOpen(states, acts, i)
  }

  /** At most one controller can have an effect: that of the call in progress, or of one left open. */
  predicate Tame(s: State) {
    && (InCall(s.stage) ==> !s.unresolved)
    && (forall t | t in s.controllers :: Loose(s, t) ==> s.unresolved || s.stage == Asked(t))
    && (forall t, u | t in s.controllers && u in s.controllers :: Loose(s, t) && Loose(s, u) ==> t == u)
  }

  lemma StepIsTame(s: State, a: Act)
    requires Safe(s) && Tame(s) && Enabled(s, a) && (a.Spawn? ==> !s.unresolved)
    ensures Tame(Apply(s, a))
  {
  }

  /** With every call fenced first, at most one controller can have an effect at any time, and
      none when a call is issued. */
  lemma {:induction false} FencedRunIsTame(states: seq<State>, acts: seq<Act>, i: nat)
    requires Run(states, acts) && FencesFirst(states, acts) && i < |states|
    ensures Tame(states[i])
  {
    if i > 0 {
      FencedRunIsTame(states, acts, i - 1);
      RunIsSafe(states, acts, i - 1);
      UnresolvedIsLeftOpen(states, acts, i - 1);
      assert Runs.Stepped(states, acts, Step, i - 1);
      StepIsTame(states[i - 1], acts[i - 1]);
    }
  }

  lemma AtMostOneLoose(states: seq<State>, acts: seq<Act>, i: nat, t: nat, u: nat)
    requires Run(states, acts) && FencesFirst(states, acts) && i < |states|
    requires Loose(states[i], t) && Loose(states[i], u)
    ensures t == u
    ensures !(i < |acts| && acts[i].Spawn?)
  {
    FencedRunIsTame(states, acts, i);
    if i < |acts| {
      assert Runs.Stepped(states, acts, Step, i);
      UnresolvedIsLeftOpen(states, acts, i);
    }
  }

  /** Without it two may: a worker that goes on after a call it lost sight of. */
  lemma TwoMayBeLoose(p: nat, q: nat) returns (states: seq<State>, acts: seq<Act>)
    requires p != q
    ensures Run(states, acts) && |states| == 8
    ensures Loose(states[7], 0) && Loose(states[7], 1)
  {
    acts := [Spawn(0, p), Note, Ask(true), Lose, Spawn(1, q), Note, Ask(true)];
    var s1 := Apply(START, Spawn(0, p));
    var s2 := Apply(s1, Note);
    var s3 := Apply(s2, Ask(true));
    var s4 := Apply(s3, Lose);
    var s5 := Apply(s4, Spawn(1, q));
    var s6 := Apply(s5, Note);
    var s7 := Apply(s6, Ask(true));
    states := [START, s1, s2, s3, s4, s5, s6, s7];
    forall i | 0 <= i < 7 ensures Runs.Stepped(states, acts, Step, i) {
      if i == 0 {} else if i == 1 {} else if i == 2 {} else if i == 3 {} else if i == 4 {} else if i == 5 {} else {}
    }
  }

  // ---------------------------------------------------------------- the host as a worker uses it

  /** The process table and the record directory, with what happens beside the worker. */
  class Machine {
    var s: State
    var coming: seq<seq<Act>>

    constructor (coming: seq<seq<Act>>)
      ensures s == START && Safe(s) && this.coming == coming
    {
      s := START;
      this.coming := coming;
    }

    method Do(a: Act)
      requires Enabled(s, a) && Safe(s)
      modifies this`s
      ensures s == Apply(old(s), a) && Safe(s)
      ensures Tame(old(s)) && (a.Spawn? ==> !old(s).unresolved) ==> Tame(s)
    {
      StepIsSafe(s, a);
      if Tame(s) && (a.Spawn? ==> !s.unresolved) {
        StepIsTame(s, a);
      }
      s := Apply(s, a);
    }

    /** Controllers exit and other processes come and go. */
    method Others()
      requires Safe(s)
      modifies this
      ensures Safe(s) && Beside(old(s), s) && (Tame(old(s)) ==> Tame(s))
      ensures old(coming) == [] ==> s == old(s) && coming == []
    {
      if coming != [] {
        var acts := coming[0];
        coming := coming[1..];
        for i := 0 to |acts|
          invariant Safe(s) && Beside(old(s), s) && (Tame(old(s)) ==> Tame(s))
        {
          if (acts[i].Exit? || acts[i].Boot? || acts[i].Halt?) && Enabled(s, acts[i]) {
            Do(acts[i]);
          }
        }
      }
    }
  }

  /** What happens beside the worker: controllers may exit, nothing else it relies on changes. */
  predicate Beside(s: State, s': State) {
    && s' == s.(running := s'.running, controllers := s'.controllers)
    && s'.controllers.Keys == s.controllers.Keys
    && forall t :: t in s.controllers ==> Aged(s.controllers[t], s'.controllers[t])
  }

  predicate Aged(c: Controller, c': Controller) {
    c' == c || c' == c.(live := false)
  }

  /** How a call ends: its controller was seen to exit, may still run, or could not be asked after. */
  datatype CallEnd = Seen | Uncertain | Lost

  /** One call: the name and number of its controller, how far it gets before the time is up, and
      whether its controller's state can be asked for. */
  datatype Plan = Plan(t: nat, pid: nat, noted: bool, asked: bool, whole: bool, checked: bool)

  predicate Spawnable(s: State, plan: Plan) {
    plan.t !in s.controllers && plan.pid !in s.running
  }

  class CommandHost {
    const machine: Machine

    constructor (machine: Machine)
      ensures this.machine == machine
    {
      this.machine := machine;
    }

    /** Make the controller's lifetime durable, and only then complete its request. */
    method Authorize(plan: Plan)
      requires Safe(machine.s) && machine.s.stage == Spawned(plan.t)
      modifies machine
      ensures Safe(machine.s) && InCall(machine.s.stage) && machine.s.stage.t == plan.t
      ensures machine.s.unresolved == old(machine.s).unresolved
              && machine.s.records == old(machine.s).records + {plan.t}
      ensures NoneElse(old(machine.s), machine.s, plan.t)
      ensures Tame(old(machine.s)) ==> Tame(machine.s)
    {
      machine.Do(Note);
      machine.Others();
      if plan.asked {
        machine.Do(Ask(plan.whole));
        machine.Others();
      }
    }

    method Request(plan: Plan)
      requires Safe(machine.s) && machine.s.stage.Idle? && Spawnable(machine.s, plan)
      modifies machine
      ensures Safe(machine.s) && InCall(machine.s.stage) && machine.s.stage.t == plan.t
      ensures machine.s.unresolved == old(machine.s).unresolved
      ensures machine.s.records == old(machine.s).records + if plan.noted then {plan.t} else {}
      ensures NoneElse(old(machine.s), machine.s, plan.t)
      ensures Tame(old(machine.s)) && !old(machine.s).unresolved ==> Tame(machine.s)
    {
      machine.Do(Spawn(plan.t, plan.pid));
      machine.Others();
      if plan.noted {
        Authorize(plan);
      }
    }

    /** One call. Seen to its end, nothing of it is left; otherwise its record stays for a fence. */
    method Call(plan: Plan) returns (end: CallEnd)
      requires Safe(machine.s) && machine.s.stage.Idle? && Spawnable(machine.s, plan)
      modifies machine
      ensures Safe(machine.s) && NoneElse(old(machine.s), machine.s, plan.t)
      ensures end.Seen? ==>
                && machine.s.stage.Idle? && !Loose(machine.s, plan.t)
                && machine.s.unresolved == old(machine.s).unresolved
                   && machine.s.records == old(machine.s).records - {plan.t}
      ensures !end.Seen? ==> machine.s.unresolved && machine.s.stage == if end.Lost? then Idle else Stopped
      ensures !end.Seen? ==> machine.s.records == old(machine.s).records + if plan.noted then {plan.t} else {}
      ensures Loose(machine.s, plan.t) ==> plan.t in machine.s.records
      ensures Tame(old(machine.s)) && !old(machine.s).unresolved ==> Tame(machine.s)
    {
      Request(plan);
      if !plan.checked {
        machine.Do(Lose);
        end := Lost;
      } else if machine.s.controllers[plan.t].live {
        machine.Do(Abandon);
        end := Uncertain;
      } else {
        machine.Do(Close);
        end := Seen;
      }
      assert Kept(machine.s, plan.t);
    }

    /** Wait for one recorded process number to disappear, as long as patience lasts. */
    method Await(other: nat, patience: nat) returns (gone: bool, left: nat)
      requires Safe(machine.s) && machine.s.stage.Draining? && other in machine.s.controllers
      modifies machine
      ensures Safe(machine.s) && Beside(old(machine.s), machine.s)
      ensures gone ==> machine.s.controllers[other].pid !in machine.s.running
      ensures left <= patience
      ensures old(machine.coming) == [] ==>
                && machine.coming == [] && machine.s == old(machine.s)
                && (gone <==> machine.s.controllers[other].pid !in machine.s.running)
    {
      left := patience;
      while machine.s.controllers[other].pid in machine.s.running
        invariant Safe(machine.s) && Beside(old(machine.s), machine.s) && left <= patience
        invariant old(machine.coming) == [] ==> machine.coming == [] && machine.s == old(machine.s)
        decreases left
      {
        if left == 0 {
          return false, 0;
        }
        machine.Others();
        left := left - 1;
      }
      gone := true;
    }

    /** Wait out and clear one record. */
    method Drain(other: nat, patience: nat, must: set<nat>, ghost gone: set<nat>) returns (ok: bool, left: nat)
      requires Safe(machine.s) && machine.s.stage == Draining(must, gone) && other in machine.s.records
      modifies machine
      ensures Safe(machine.s)
      ensures ok ==>
                machine.s.stage == Draining(must, gone + {other})
                && machine.s.records == old(machine.s).records - {other}
      ensures !ok ==> machine.s.stage.Stopped?
      ensures machine.s.unresolved == old(machine.s).unresolved
      ensures old(machine.coming) == [] ==>
                && machine.coming == [] && machine.s.running == old(machine.s).running
                && machine.s.controllers == old(machine.s).controllers
                && (ok <==> Vanished(machine.s, other))
    {
      ok, left := Await(other, patience);
      if !ok {
        machine.Do(GiveUp);
        return;
      }
      machine.Do(Inspect(other));
      machine.Others();
      machine.Do(Clear);
    }

    /** Drain every record found. Afterwards no controller of any earlier call can have an effect.
        Left alone, it succeeds exactly when no recorded number is of a live process. */
    method DrainAll(patience: nat) returns (ok: bool)
      requires Safe(machine.s) && machine.s.stage.Idle?
      modifies machine
      ensures Safe(machine.s)
      ensures ok ==> machine.s.stage.Idle? && !machine.s.unresolved && forall t :: !Loose(machine.s, t)
      ensures !ok ==> machine.s.stage.Stopped? && machine.s.unresolved == old(machine.s).unresolved
      ensures old(machine.coming) == [] ==> (ok <==> Cleared(old(machine.s)))
    {
      machine.Do(StartFence);
      var must, rest, left := machine.s.records, machine.s.records, patience;
      ghost var gone: set<nat> := {};
      while rest != {}
        invariant Safe(machine.s) && machine.s.stage == Draining(must, gone)
        invariant machine.s.records == rest && must == rest + gone
        invariant machine.s.unresolved == old(machine.s).unresolved
        invariant old(machine.coming) == [] ==>
                    && machine.coming == [] && machine.s.running == old(machine.s).running
                    && machine.s.controllers == old(machine.s).controllers
                    && forall o :: o in gone ==> Vanished(old(machine.s), o)
        decreases |rest|
      {
        var o :| o in rest;
        ok, left := Drain(o, left, must, gone);
        if !ok {
          return;
        }
        rest := rest - {o};
        gone := gone + {o};
      }
      FencedIsQuiet(machine.s);
      machine.Do(EndFence);
      ok := true;
    }

    /** The fence: drain the records, then ask a controller to finish what may be left to do. */
    method Fence(patience: nat, plan: Plan) returns (ok: bool)
      requires Safe(machine.s) && machine.s.stage.Idle?
      modifies machine
      ensures Safe(machine.s)
      ensures ok ==> machine.s.stage.Idle? && !machine.s.unresolved && forall t :: !Loose(machine.s, t)
    {
      ok := DrainAll(patience);
      if ok {
        if Spawnable(machine.s, plan) {
          var end := Call(plan);
          ok := end.Seen?;
        } else {
          ok := false;
        }
      }
    }

    /** A worker that fences first and stops at the first call it does not see to its end: from
        whatever its predecessors left, at most one controller can have an effect when it is done. */
    method Work(patience: nat, fence: Plan, calls: seq<Plan>) returns (fenced: bool, seen: nat)
      requires Safe(machine.s) && machine.s.stage.Idle?
      modifies machine
      ensures Safe(machine.s) && seen <= |calls|
      ensures fenced ==> Tame(machine.s)
    {
      seen := 0;
      fenced := Fence(patience, fence);
      if fenced {
        QuietIsTame(machine.s);
        while seen < |calls|
          invariant seen <= |calls| && Safe(machine.s) && machine.s.stage.Idle? && !machine.s.unresolved
                    && Tame(machine.s)
        {
          if !Spawnable(machine.s, calls[seen]) {
            return;
          }
          var end := Call(calls[seen]);
          if !end.Seen? {
            return;
          }
          seen := seen + 1;
        }
      }
    }
  }

  /** No controller but `t` has become able to have an effect. */
  predicate NoneElse(s: State, s': State, t: nat) {
    forall u | u in s'.controllers :: Loose(s', u) ==> u == t || Loose(s, u)
  }

  lemma QuietIsTame(s: State)
    requires s.stage.Idle? && forall t :: !Loose(s, t)
    ensures Tame(s)
  {
  }

  predicate Vanished(s: State, o: nat) {
    o in s.controllers && s.controllers[o].pid !in s.running
  }

  /** No recorded process number is in use. */
  predicate Cleared(s: State) {
    forall o :: o in s.records ==> Vanished(s, o)
  }
}
