/** The contender lock: claim directories, a scan that is not atomic, and a lock file. Any
    number of processes take part, die at any point, and have their numbers used again. */
module Lock {
  import Runs

  const MAX_TRIES := 50

  datatype Stage =
    | Entered                                                    // claim made, scan not begun
    | Scanning(must: set<nat>, seen: set<nat>)                   // entries the scan owes, entries discarded
    | Discarding(other: nat, must: set<nat>, seen: set<nat>)     // found dead, about to be removed
    | Trying(tries: nat)
    | Reading(tries: nat)                                        // the lock file was there
    | Unlinking(tries: nat)                                      // its owner looked dead
    | Writing                                                    // file created, record not written
    | Holding(retained: bool)
    | Releasing                                                  // claim checked, file about to be removed
    | Unlocked                                                   // file removed, claim about to be
    | Failing
    | Done
  {
    predicate Looking() {
      Scanning? || Discarding?
    }

    predicate Past() {
      Trying? || Reading? || Unlinking? || Writing? || Holding? || Releasing? || Unlocked?
    }

    predicate Owns() {
      Holding? || Releasing?
    }
  }

  /** One acquisition, named by its unguessable claim name. `live` is its process, not its number. */
  datatype Agent = Agent(pid: nat, live: bool, stage: Stage)

  datatype LockFile = Missing | Blank(owner: nat) | Record(owner: nat, pid: nat)

  datatype State = State(running: set<nat>, agents: map<nat, Agent>, claims: set<nat>, lock: LockFile)

  const START := State({}, map[], {}, Missing)

  datatype Act =
    | Boot(pid: nat) | Die(pid: nat)
    | Enter(t: nat, pid: nat) | Open(t: nat) | Look(t: nat, other: nat) | Discard(t: nat) | Pass(t: nat)
    | Create(t: nat) | Read(t: nat) | Unlink(t: nat) | Write(t: nat, ok: bool)
    | Retain(t: nat) | Check(t: nat) | Unlock(t: nat) | Withdraw(t: nat)

  // ---------------------------------------------------------------- steps

  predicate At(s: State, t: nat) {
    t in s.agents && s.agents[t].live
  }

  /** A directory scan may end once every entry that was there throughout has been delivered. */
  predicate Complete(s: State, stage: Stage)
    requires stage.Scanning?
  {
    forall o :: o in stage.must && o in s.claims ==> o in stage.seen
  }

  predicate Enabled(s: State, a: Act) {
    match a
    case Boot(pid) => pid != 0 && pid !in s.running
    case Die(pid) => pid in s.running
    case Enter(t, pid) => pid in s.running && t !in s.agents
    case _ =>
      At(s, a.t) &&
      var stage := s.agents[a.t].stage;
      match a
      case Open(_) => stage.Entered?
      case Look(t, other) => stage.Scanning? && other != t && other in s.agents
      case Discard(_) => stage.Discarding?
      case Pass(_) => stage.Scanning? && Complete(s, stage)
      case Create(_) => stage.Trying?
      case Read(_) => stage.Reading?
      case Unlink(_) => stage.Unlinking?
      case Write(_, _) => stage.Writing?
      case Retain(_) => stage.Holding?
      case Check(_) => stage == Holding(false)
      case Unlock(_) => stage.Releasing?
      case Withdraw(_) => stage.Unlocked? || stage.Failing?
      case _ => false
  }

  function Moved(s: State, t: nat, stage: Stage): State
    requires t in s.agents
  {
    s.(agents := s.agents[t := s.agents[t].(stage := stage)])
  }

  function Killed(agents: map<nat, Agent>, pid: nat): map<nat, Agent> {
    map t | t in agents :: if agents[t].pid == pid then agents[t].(live := false) else agents[t]
  }

  /** The lock file names a process that looks alive. */
  predicate Busy(s: State) {
    s.lock.Record? && s.lock.pid in s.running
  }

  function Apply(s: State, a: Act): State
    requires Enabled(s, a)
  {
    match a
    case Boot(pid) => s.(running := s.running + {pid})
    case Die(pid) => s.(running := s.running - {pid}, agents := Killed(s.agents, pid))
    case Enter(t, pid) => s.(agents := s.agents[t := Agent(pid, true, Entered)], claims := s.claims + {t})
    case Open(t) => Moved(s, t, Scanning(s.claims - {t}, {}))
    case Look(t, other) =>
      var stage := s.agents[t].stage;
      Moved(s, t, if s.agents[other].pid in s.running then Failing else Discarding(other, stage.must, stage.seen))
    case Discard(t) =>
      var stage := s.agents[t].stage;
      Moved(s, t, Scanning(stage.must, stage.seen + {stage.other})).(claims := s.claims - {stage.other})
    case Pass(t) => Moved(s, t, Trying(0))
    case Create(t) =>
      var tries := s.agents[t].stage.tries;
      if tries >= MAX_TRIES then Moved(s, t, Failing)
      else if s.lock.Missing? then Moved(s, t, Writing).(lock := Blank(t))
      else Moved(s, t, Reading(tries))
    case Read(t) =>
      var tries := s.agents[t].stage.tries;
      Moved(s, t, if s.lock.Missing? then Trying(tries + 1) else if Busy(s) then Failing else Unlinking(tries))
    case Unlink(t) =>
      var tries := s.agents[t].stage.tries;
      if s.lock.Missing? then Moved(s, t, Failing) else Moved(s, t, Trying(tries + 1)).(lock := Missing)
    case Write(t, ok) =>
      if ok then Moved(s, t, Holding(false)).(lock := Record(t, s.agents[t].pid)) else Moved(s, t, Failing)
    case Retain(t) => Moved(s, t, Holding(true))
    case Check(t) => Moved(s, t, if t in s.claims then Releasing else Done)
    case Unlock(t) => Moved(s, t, Unlocked).(lock := Missing)
    case Withdraw(t) => Moved(s, t, Done).(claims := s.claims - {t})
  }

  // ---------------------------------------------------------------- the invariant

  /** What an agent's own stage implies. */
  predicate Proper(s: State, t: nat)
    requires t in s.agents
  {
    var agent := s.agents[t];
    && (agent.live ==> agent.pid in s.running)
    && (agent.live && !agent.stage.Done? ==> t in s.claims)
    && (agent.live && agent.stage.Looking() ==>
          forall o :: o in agent.stage.seen ==> o in s.agents && !s.agents[o].live)
    && (agent.live && agent.stage.Discarding? ==> agent.stage.other in s.agents && !s.agents[agent.stage.other].live)
    && (agent.live && agent.stage.Writing? ==> s.lock == Blank(t))
    && (agent.live && agent.stage.Owns() ==> s.lock == Record(t, agent.pid))
  }

  /** Of two live agents, the one that began its scan later must still meet the other's claim. */
  predicate Apart(s: State, a: nat, b: nat)
    requires a in s.agents && b in s.agents
  {
    s.agents[a].live && s.agents[b].live && a != b ==>
      var p, q := s.agents[a].stage, s.agents[b].stage;
      && !(p.Past() && q.Past())
      && (p.Past() && q.Looking() ==> a in q.must)
      && (p.Looking() && q.Looking() ==> a in q.must || b in p.must)
  }

  predicate Safe(s: State) {
    && 0 !in s.running
    && s.claims <= s.agents.Keys
    && (forall t :: t in s.agents ==> Proper(s, t))
    && (forall a, b :: a in s.agents && b in s.agents ==> Apart(s, a, b))
  }

  /** The actor of a step, if it is an agent. */
  predicate Acts(a: Act, t: nat) {
    !a.Boot? && !a.Die? && a.t == t
  }

  lemma ActorStaysProper(s: State, a: Act, t: nat)
    requires Safe(s) && Enabled(s, a) && Acts(a, t)
    ensures Proper(Apply(s, a), t)
  {
    assert t in s.agents ==> Proper(s, t);
  }

  lemma OthersStayProper(s: State, a: Act, u: nat)
    requires Safe(s) && Enabled(s, a) && u in s.agents && !Acts(a, u)
    ensures Proper(Apply(s, a), u)
  {
    assert Proper(s, u);
    if !a.Boot? && !a.Die? && a.t in s.agents {
      assert Proper(s, a.t) && Apart(s, a.t, u);
    }
  }

  lemma ApartAfter(s: State, a: Act, u: nat, v: nat)
    requires Safe(s) && Enabled(s, a) && u in Apply(s, a).agents && v in Apply(s, a).agents
    ensures Apart(Apply(s, a), u, v)
  {
    if u in s.agents && v in s.agents {
      assert Apart(s, u, v) && Apart(s, v, u) && Proper(s, u) && Proper(s, v);
    }
  }

  lemma StepIsSafe(s: State, a: Act)
    requires Safe(s) && Enabled(s, a)
    ensures Safe(Apply(s, a))
  {
    var s' := Apply(s, a);
    forall t | t in s'.agents ensures Proper(s', t) {
      if Acts(a, t) {
        ActorStaysProper(s, a, t);
      } else {
        OthersStayProper(s, a, t);
      }
    }
    forall u, v | u in s'.agents && v in s'.agents ensures Apart(s', u, v) {
      ApartAfter(s, a, u, v);
    }
    assert s'.claims <= s'.agents.Keys by {
      if !a.Boot? && !a.Die? && !a.Enter? {
        assert s'.agents.Keys == s.agents.Keys;
      }
    }
  }

  // ---------------------------------------------------------------- whole runs

  predicate Step(s: State, a: Act, s': State) {
    Enabled(s, a) && s' == Apply(s, a)
  }

  /** Any number of agents, interleaved step by step from an empty directory. */
  ghost predicate Run(states: seq<State>, acts: seq<Act>) {
    Runs.Run(states, acts, START, Step)
  }

  lemma RunIsSafe(states: seq<State>, acts: seq<Act>, i: nat)
    requires Run(states, acts) && i < |states|
    ensures Safe(states[i])
  {
    forall s, a, s' | Safe(s) && Step(s, a, s') ensures Safe(s') {
      StepIsSafe(s, a);
    }
    Runs.InvariantThroughout(states, acts, START, Step, Safe, i);
  }

  /** Mutual exclusion: in every state of every run at most one live agent is past its scan,
      a holder's claim is there, and the lock file is its own. */
  lemma MutualExclusion(states: seq<State>, acts: seq<Act>, i: nat, a: nat, b: nat)
    requires Run(states, acts) && i < |states|
    requires At(states[i], a) && At(states[i], b)
    requires states[i].agents[a].stage.Past() && states[i].agents[b].stage.Past()
    ensures a == b && a in states[i].claims
    ensures states[i].agents[a].stage.Owns() ==> states[i].lock == Record(a, states[i].agents[a].pid)
  {
    RunIsSafe(states, acts, i);
    assert Apart(states[i], a, b) && Proper(states[i], a);
  }

  /** The step is neither this agent's own nor the death of its process. */
  predicate Foreign(a: Act, t: nat, pid: nat) {
    match a
    case Boot(_) => true
    case Die(p) => p != pid
    case _ => a.t != t
  }

  /** What the steps of others leave an agent that is alive. */
  predicate Unharmed(s: State, s': State, t: nat) {
    && t in s.agents && t in s'.agents && s'.agents[t] == s.agents[t]
    && (t in s.claims ==> t in s'.claims)
    && (s.agents[t].stage.Past() ==> s'.lock == s.lock)
    && s.agents.Keys <= s'.agents.Keys
    && (forall o :: o in s.agents && !s.agents[o].live ==> !s'.agents[o].live)
    && (forall o :: o in s.agents && o !in s.claims ==> o !in s'.claims)
  }

  /** No other process's step removes a live agent's claim, or the lock file of one past its scan. */
  lemma ForeignStepIsHarmless(s: State, a: Act, t: nat)
    requires Safe(s) && Enabled(s, a) && At(s, t) && Foreign(a, t, s.agents[t].pid)
    ensures Unharmed(s, Apply(s, a), t)
  {
    assert Proper(s, t);
    if !a.Boot? && !a.Die? && a.t in s.agents {
      assert Apart(s, a.t, t) && Apart(s, t, a.t) && Proper(s, a.t);
    }
  }

  /** From the moment an agent holds the lock, whatever all others do meanwhile, its lock file
      and its claim stay: while it works, while it retains the lock, and while it releases it. */
  lemma {:induction false} HolderKeepsItsLock(states: seq<State>, acts: seq<Act>, i: nat, j: nat, t: nat)
    requires Run(states, acts) && i <= j < |states|
    requires At(states[i], t) && states[i].agents[t].stage.Owns()
    requires forall k :: i <= k < j ==> Foreign(acts[k], t, states[i].agents[t].pid)
    ensures At(states[j], t) && states[j].agents[t] == states[i].agents[t]
    ensures states[j].lock == Record(t, states[i].agents[t].pid) && t in states[j].claims
    decreases j
  {
    RunIsSafe(states, acts, j);
    if i < j {
      HolderKeepsItsLock(states, acts, i, j - 1, t);
      RunIsSafe(states, acts, j - 1);
      assert Runs.Stepped(states, acts, Step, j - 1);
      ForeignStepIsHarmless(states[j - 1], acts[j - 1], t);
    } else {
      assert Proper(states[i], t);
    }
  }

  /** A retained lock ends only with its process. */
  lemma {:induction false} RetainedUntilExit(states: seq<State>, acts: seq<Act>, i: nat, j: nat, t: nat)
    requires Run(states, acts) && i <= j < |states|
    requires At(states[i], t) && states[i].agents[t].stage == Holding(true)
    ensures t in states[j].agents
    ensures At(states[j], t) ==>
              states[j].agents[t] == states[i].agents[t] && states[j].lock == Record(t, states[i].agents[t].pid)
    decreases j
  {
    RunIsSafe(states, acts, j);
    if i < j {
      RetainedUntilExit(states, acts, i, j - 1, t);
      assert Runs.Stepped(states, acts, Step, j - 1);
    }
    if At(states[j], t) {
      assert Proper(states[j], t);
    }
  }

  /** While a process that retained the lock lives, no other contender gets past its scan. */
  lemma RetainedKeepsOthersOut(states: seq<State>, acts: seq<Act>, i: nat, j: nat, t: nat, u: nat)
    requires Run(states, acts) && i <= j < |states|
    requires At(states[i], t) && states[i].agents[t].stage == Holding(true)
    requires At(states[j], t) && At(states[j], u) && states[j].agents[u].stage.Past()
    ensures u == t
  {
    RetainedUntilExit(states, acts, i, j, t);
    MutualExclusion(states, acts, j, t, u);
  }

  /** Once it owns the lock a process never gets back to a stage before that. */
  lemma {:induction false} OwnedBefore(states: seq<State>, acts: seq<Act>, i: nat, j: nat, t: nat)
    requires Run(states, acts) && i <= j < |states|
    requires At(states[i], t) && states[i].agents[t].stage.Owns()
    ensures t in states[j].agents
    ensures At(states[j], t) ==>
              states[j].agents[t].stage.Owns() || states[j].agents[t].stage.Unlocked? || states[j].agents[t].stage.Done?
    decreases j
  {
    if i < j {
      OwnedBefore(states, acts, i, j - 1, t);
      assert Runs.Stepped(states, acts, Step, j - 1);
    }
  }

  /** The work done under the lock is not interleaved: between two moments at which one contender
      owns it, no other does, so workers act on the shared state one after another. */
  lemma {:induction false} WorkIsSerial(states: seq<State>, acts: seq<Act>, i: nat, j: nat, k: nat, t: nat, u: nat)
    requires Run(states, acts) && i <= j <= k < |states|
    requires At(states[i], t) && states[i].agents[t].stage.Owns()
    requires At(states[j], u) && states[j].agents[u].stage.Owns()
    requires At(states[k], t) && states[k].agents[t].stage.Owns()
    ensures t == u
    decreases k
  {
    OwnedBefore(states, acts, i, j, t);
    if j < k {
      OwnedBefore(states, acts, i, k - 1, t);
      assert Runs.Stepped(states, acts, Step, k - 1);
      WorkIsSerial(states, acts, i, j, k - 1, t, u);
    } else {
      MutualExclusion(states, acts, j, t, u);
    }
  }

  // ---------------------------------------------------------------- the lock as its owner uses it

  /** The shared directory, and what the other processes will do between one's own steps. */
  class Directory {
    var s: State
    var coming: seq<seq<Act>>

    constructor (coming: seq<seq<Act>>)
      ensures s == START && Safe(s) && this.coming == coming
    {
      s := START;
      this.coming := coming;
    }

    method Do(a: Act)
      requires Enabled(s, a) && Safe(s)
      modifies this`s
      ensures s == Apply(old(s), a) && Safe(s)
    {
      StepIsSafe(s, a);
      s := Apply(s, a);
    }

    /** The others move. */
    method Others(t: nat)
      requires Safe(s) && At(s, t)
      modifies this
      ensures Safe(s) && Unharmed(old(s), s, t)
      ensures old(coming) == [] ==> s == old(s) && coming == []
    {
      if coming != [] {
        var acts := coming[0];
        coming := coming[1..];
        for i := 0 to |acts|
          invariant Safe(s) && Unharmed(old(s), s, t)
        {
          if Enabled(s, acts[i]) && Foreign(acts[i], t, s.agents[t].pid) {
            ForeignStepIsHarmless(s, acts[i], t);
            Do(acts[i]);
          }
        }
      }
    }
  }

  /** How an acquisition ends: it may find the lock taken by a process that looks alive, or fail
      to write its record. */
  datatype Grant = Granted | Taken | Unwritable

  class UpgradeLock {
    const dir: Directory
    const t: nat
    const pid: nat
    var released: bool
    var retained: bool

    constructor (dir: Directory, t: nat, pid: nat)
      ensures this.dir == dir && this.t == t && this.pid == pid && !released && !retained
    {
      this.dir := dir;
      this.t := t;
      this.pid := pid;
      released, retained := false, false;
    }

    predicate Here(stage: Stage)
      reads dir
    {
      t in dir.s.agents && dir.s.agents[t] == Agent(pid, true, stage)
    }

    /** One entry of the scan: a process that looks alive blocks, a dead one's claim is removed. */
    method Visit(other: nat, ghost quiet: bool, ghost s0: State, must: set<nat>, ghost seen: set<nat>)
      returns (blocked: bool)
      requires Safe(dir.s) && Here(Scanning(must, seen)) && other != t && other in dir.s.agents
      requires quiet ==> dir.coming == [] && Alone(s0, dir.s, t, must, seen)
      requires other in must || other in dir.s.claims
      modifies dir
      ensures Safe(dir.s)
      ensures if blocked then Here(Failing) else Here(Scanning(must, seen + {other}))
      ensures dir.s.agents.Keys >= old(dir.s).agents.Keys
      ensures forall o :: o in old(dir.s).agents && o !in old(dir.s).claims ==> o !in dir.s.claims
      ensures quiet ==> dir.coming == [] && Alone(s0, dir.s, t, must, seen + if blocked then {} else {other})
      ensures quiet && blocked ==> Blocks(s0, must)
    {
      ghost var s := dir.s;
      dir.Do(Look(t, other));
      blocked := dir.s.agents[t].stage.Failing?;
      if !blocked {
        dir.Others(t);
        dir.Do(Discard(t));
        dir.Others(t);
      }
      if quiet {
        AloneAfter(s0, s, t, must, seen, other);
      }
    }

    /** The entries a scan of the claims directory delivers, in any order. */
    method Deliver(listing: seq<nat>, must: set<nat>) returns (blocked: bool, ghost seen: set<nat>)
      requires Safe(dir.s) && Here(Scanning(must, {})) && t !in must && must <= dir.s.agents.Keys
      modifies dir
      ensures Safe(dir.s) && must <= dir.s.agents.Keys
      ensures if blocked then Here(Failing) else Here(Scanning(must, seen))
      ensures old(dir.coming) == [] && must == old(dir.s).claims - {t} ==>
                && dir.coming == [] && Alone(old(dir.s), dir.s, t, must, seen)
                && (blocked ==> Blocks(old(dir.s), must))
    {
      seen := {};
      for i := 0 to |listing|
        invariant Safe(dir.s) && Here(Scanning(must, seen)) && must <= dir.s.agents.Keys
        invariant old(dir.coming) == [] && must == old(dir.s).claims - {t} ==>
                    dir.coming == [] && Alone(old(dir.s), dir.s, t, must, seen)
      {
        var o := listing[i];
        if o != t && o in dir.s.agents && (o in must || o in dir.s.claims) {
          blocked := Visit(o, old(dir.coming) == [] && must == old(dir.s).claims - {t}, old(dir.s), must, seen);
          if blocked {
            return;
          }
          seen := seen + {o};
        }
      }
      blocked := false;
    }

    /** The scan: what it delivers early, then every entry it still owes. */
    method Scan(listing: seq<nat>, must: set<nat>) returns (blocked: bool)
      requires Safe(dir.s) && Here(Scanning(must, {})) && t !in must && must <= dir.s.agents.Keys
      modifies dir
      ensures Safe(dir.s)
      ensures if blocked then Here(Failing) else Here(Trying(0))
      ensures old(dir.coming) == [] && must == old(dir.s).claims - {t} ==>
                && dir.coming == [] && dir.s.running == old(dir.s).running && dir.s.lock == old(dir.s).lock
                && (blocked <==> Blocks(old(dir.s), must))
    {
      ghost var seen: set<nat>;
      blocked, seen := Deliver(listing, must);
      if blocked {
        return;
      }
      var rest := must;
      while rest != {}
        invariant rest <= must
        invariant Safe(dir.s) && Here(Scanning(must, seen)) && must <= dir.s.agents.Keys
        invariant forall o :: o in must ==> o in rest || o in seen || o !in dir.s.claims
        invariant old(dir.coming) == [] && must == old(dir.s).claims - {t} ==>
                    dir.coming == [] && Alone(old(dir.s), dir.s, t, must, seen)
        decreases |rest|
      {
        var o :| o in rest;
        rest := rest - {o};
        if o in dir.s.claims {
          blocked := Visit(o, old(dir.coming) == [] && must == old(dir.s).claims - {t}, old(dir.s), must, seen);
          if blocked {
            return;
          }
          seen := seen + {o};
        }
      }
      dir.Do(Pass(t));
      blocked := false;
    }

    /** The lock file was there: give way to an owner that looks alive, remove a stale one. */
    method TakeAway(tries: nat) returns (ok: bool)
      requires Safe(dir.s) && Here(Reading(tries)) && !dir.s.lock.Missing?
      modifies dir
      ensures Safe(dir.s)
      ensures if ok then Here(Trying(tries + 1)) && dir.s.lock == Missing
              else Here(Failing) && dir.s.lock == old(dir.s).lock
      ensures old(dir.coming) == [] ==>
                dir.coming == [] && dir.s.running == old(dir.s).running && (ok <==> !Busy(old(dir.s)))
    {
      dir.Do(Read(t));
      ok := !dir.s.agents[t].stage.Failing?;
      if ok {
        dir.Others(t);
        dir.Do(Unlink(t));
      }
    }

    /** Create the lock file, taking a stale one away first. Nobody else past the scan is alive,
        so whatever the others do, the second try succeeds and the bound on tries is not met. */
    method Contend(writes: bool) returns (grant: Grant, tries: nat)
      requires Safe(dir.s) && Here(Trying(0))
      modifies dir
      ensures Safe(dir.s)
      ensures if grant.Granted? then Here(Holding(false)) && dir.s.lock == Record(t, pid) else Here(Failing)
      ensures !grant.Taken? ==> (grant.Granted? <==> writes)
      ensures old(dir.coming) == [] ==>
                && dir.coming == []
                && (grant.Taken? <==> Busy(old(dir.s)))
                && (grant.Taken? ==> dir.s.lock == old(dir.s).lock)
      ensures old(dir.s).lock.Missing? ==> !grant.Taken?
      ensures tries <= 1
    {
      grant, tries := Taken, 0;
      dir.Others(t);
      while tries < MAX_TRIES
        invariant tries <= 1 && Safe(dir.s) && Here(Trying(tries))
        invariant dir.s.lock == if tries == 0 then old(dir.s).lock else Missing
        invariant old(dir.coming) == [] ==> dir.coming == [] && dir.s.running == old(dir.s).running
        invariant tries == 1 ==> !old(dir.s).lock.Missing? && (old(dir.coming) == [] ==> !Busy(old(dir.s)))
        decreases 2 - tries
      {
        dir.Do(Create(t));
        dir.Others(t);
        if dir.s.agents[t].stage.Writing? {
          dir.Do(Write(t, writes));
          return if writes then Granted else Unwritable, tries;
        }
        var free := TakeAway(tries);
        if !free {
          return;
        }
        dir.Others(t);
        tries := tries + 1;
      }
      assert false;
    }

    /** Make the claim, then open the directory: the scan owes every claim made before it. */
    method Claim() returns (must: set<nat>)
      requires Safe(dir.s) && pid in dir.s.running && t !in dir.s.agents
      modifies dir
      ensures Safe(dir.s) && Here(Scanning(must, {})) && t !in must && must <= dir.s.agents.Keys
      ensures old(dir.coming) == [] ==>
                && dir.coming == [] && dir.s.running == old(dir.s).running && dir.s.lock == old(dir.s).lock
                && must == dir.s.claims - {t}
                && (Blocks(dir.s, must) <==> Blocks(old(dir.s), old(dir.s).claims))
    {
      dir.Do(Enter(t, pid));
      dir.Others(t);
      dir.Do(Open(t));
      must := dir.s.claims - {t};
      dir.Others(t);
    }

    /** Claim, scan, then contend for the file. On success nobody else alive is past the scan;
        on failure the claim is gone again. Left alone, it succeeds exactly when no claim and
        no lock record is of a process that looks alive: whatever dead owners left is no obstacle. */
    method Acquire(listing: seq<nat>, writes: bool) returns (grant: Grant)
      requires Safe(dir.s) && pid in dir.s.running && t !in dir.s.agents && !released && !retained
      modifies dir, this`released
      ensures Safe(dir.s)
      ensures grant.Granted? ==> Valid() && !released && dir.s.lock == Record(t, pid)
      ensures !grant.Granted? ==> released && Here(Done) && t !in dir.s.claims
      ensures !grant.Taken? ==> (grant.Granted? <==> writes)
      ensures old(dir.coming) == [] ==> (grant.Taken? <==> !Free(old(dir.s)))
      ensures old(dir.coming) == [] && grant.Taken? ==> dir.s.lock == old(dir.s).lock
    {
      var must := Claim();
      var blocked := Scan(listing, must);
      grant := Taken;
      if !blocked {
        var tries: nat;
        grant, tries := Contend(writes);
      }
      if !grant.Granted? {
        dir.Others(t);
        dir.Do(Withdraw(t));
        released := true;
      }
    }

    predicate Valid()
      reads this, dir
    {
      Safe(dir.s) && (!released ==> Here(Holding(retained)))
    }

    /** A host call may still be running: keep the claim until this process dies. */
    method RetainUntilExit()
      requires Valid() && !released
      modifies this`retained, dir`s
      ensures Valid() && retained && dir.s.lock == old(dir.s).lock == Record(t, pid)
    {
      assert Proper(dir.s, t);
      dir.Do(Retain(t));
      retained := true;
    }

    /** Give the lock back: the file first, the claim last, so that nobody passes a scan in
        between. A retained lock stays. */
    method Release()
      requires Valid()
      modifies this`released, dir
      ensures Valid() && retained == old(retained)
      ensures old(released) || retained ==> released == old(released) && dir.s == old(dir.s)
      ensures !old(released) && !retained ==> released && Here(Done) && t !in dir.s.claims && dir.s.lock == Missing
    {
      if released || retained {
        return;
      }
      assert Proper(dir.s, t);
      dir.Do(Check(t));
      dir.Others(t);
      dir.Do(Unlock(t));
      dir.Others(t);
      dir.Do(Withdraw(t));
      released := true;
    }
  }

  /** Some claim the scan must meet is of a process that looks alive. */
  predicate Blocks(s: State, must: set<nat>) {
    exists o :: o in must && o in s.agents && s.agents[o].pid in s.running
  }

  /** Every claim is of a dead process and the lock file, if any, names none that looks alive. */
  predicate Free(s: State) {
    !Blocks(s, s.claims) && !Busy(s)
  }

  /** How far an undisturbed scan has come. */
  predicate Alone(s0: State, s: State, t: nat, must: set<nat>, seen: set<nat>) {
    && s.running == s0.running && s.lock == s0.lock && t in s.agents
    && s.agents == s0.agents[t := s.agents[t]]
    && s.claims <= must + {t} && seen <= must && t !in must && must <= s0.agents.Keys
    && (forall o :: o in must ==> o in seen || o in s.claims)
    && (forall o :: o in seen && o in s0.agents ==> s0.agents[o].pid !in s0.running)
  }

  lemma AloneAfter(s0: State, s: State, t: nat, must: set<nat>, seen: set<nat>, other: nat)
    requires Alone(s0, s, t, must, seen) && Enabled(s, Look(t, other)) && s.agents[t].stage == Scanning(must, seen)
    requires other in must || other in s.claims
    ensures var looked := Apply(s, Look(t, other));
            if looked.agents[t].stage.Failing? then Alone(s0, looked, t, must, seen) && Blocks(s0, must)
            else Alone(s0, Apply(looked, Discard(t)), t, must, seen + {other})
  {
  }
}
