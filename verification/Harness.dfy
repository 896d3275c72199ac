/** Whole runs: transactions interrupted anywhere and recovered any number of times, and
    the simulation the repository ships, over every crash schedule instead of seeded ones. */
module Harness {
  import opened State
  import opened Storage
  import opened Invariants
  import opened Worlds
  import opened Protocol
  import opened Engine

  /** What one worker runs into: the faults it meets, and what happens before it starts: an
      earlier call may land, the service may be stopped or started from outside. */
  datatype Turn = Turn(plan: map<nat, Fault>, lands: bool, hand: Hand)

  predicate Undisturbed(turns: seq<Turn>) {
    forall i :: 0 <= i < |turns| ==> turns[i].hand != StopService
  }

  lemma OneKillOneCrash(k: nat, e: Error)
    requires Planned(e, map[k := Kill])
    ensures e == Crash
  {
  }

  /** The world's moves before a worker starts. */
  method Between(world: World, turn: Turn)
    requires Sound(world.store.disk, world.host, world.seen)
    modifies world`host, world.store.faults
    ensures Sound(world.store.disk, world.host, world.seen)
    ensures world.store.faults.plan == turn.plan
    ensures old(Settled(world.store.disk, world.host)) ==> Settled(world.store.disk, world.host)
    ensures world.host.stopped ==> old(world.host).stopped || turn.hand == StopService
  {
    ghost var h := world.host;
    world.LandLate(turn.lands);
    if world.host != h {
      LandingIsSafe(world.store.disk, h, world.host);
    }
    HandIsSafe(world.store.disk, world.host, turn.hand);
    world.ByHand(turn.hand);
    world.store.faults.Inject(turn.plan);
  }

  /** One worker's recovery, whatever it runs into. */
  method RecoverOnce(world: World, turn: Turn, predicates: Predicates) returns (r: Status)
    requires Sound(world.store.disk, world.host, world.seen)
    modifies world`host, world`seen, world.store`disk, world.store.faults
    ensures Sound(world.store.disk, world.host, world.seen)
    ensures Recovered(world.store.disk) == Recovered(old(world.store.disk))
    ensures r.Ok? ==> Settled(world.store.disk, world.host) && world.store.disk == Recovered(old(world.store.disk))
    ensures r.Ok? && Restarts(LastIntent(old(world.store.disk).journal)) ==> !world.host.stopped
    ensures world.host.stopped ==> old(world.host).stopped || turn.hand == StopService
    ensures r.Err? ==> Planned(r.error, turn.plan)
    ensures old(world.store.disk).journal <= world.store.disk.journal
  {
    Between(world, turn);
    RecoveryIsIdempotent(world.store.disk);
    var worker := new Engine(world, predicates);
    r := worker.Recover();
  }

  /** Recoveries that fail or die anywhere, however often, then one that is left alone. */
  method RecoverUntilDone(world: World, turns: seq<Turn>, predicates: Predicates)
    requires Sound(world.store.disk, world.host, world.seen)
    modifies world`host, world`seen, world.store`disk, world.store.faults
    ensures Sound(world.store.disk, world.host, world.seen)
    ensures Settled(world.store.disk, world.host)
    ensures world.store.disk == Recovered(old(world.store.disk))
    ensures old(world.store.disk).journal <= world.store.disk.journal
    ensures !old(world.host).stopped && Undisturbed(turns) ==>
              Serving(world.host, Stable, world.store.disk.slots.stable)
  {
    for i := 0 to |turns|
      invariant Sound(world.store.disk, world.host, world.seen)
      invariant Recovered(world.store.disk) == Recovered(old(world.store.disk))
      invariant old(world.store.disk).journal <= world.store.disk.journal
      invariant !old(world.host).stopped && Undisturbed(turns) ==> !world.host.stopped
    {
      var r := RecoverOnce(world, turns[i], predicates);
    }
    var r := RecoverOnce(world, Turn(map[], false, Leave), predicates);
    if r.Err? {
      NothingPlanned(r.error);
    }
  }

  /** The journal shows the promotion of `version` begun after `d0`. */
  predicate Promised(d0: Disk, d: Disk, version: Version) {
    && |d.journal| > |d0.journal|
    && LastIntent(d.journal) == Promoted
    && d.journal[|d.journal| - 1].version == Some(version)
  }

  /** What recovery makes of an upgrade interrupted at `d`. */
  lemma RecoveryDecides(d0: Disk, d: Disk, version: Version)
    requires Numbered(d.journal) && Progress(d0, d, version) && LastIntent(d0.journal).AtRest()
             && d0.slots.stable.Complete?
    ensures Recovered(d).slots.stable == if Promised(d0, d, version) then Complete(version) else d0.slots.stable
    ensures Promised(d0, d, version) <==> |d.journal| > |d0.journal| && LastIntent(d.journal) == Promoted
    ensures Promised(d0, d, version) ==> Recovered(d).journal == d.journal
    ensures !Promised(d0, d, version) ==>
              Recovered(d).journal == d0.journal || LastIntent(Recovered(d).journal) == RolledBack
  {
    var last := LastIntent(d.journal);
    if |d.journal| == |d0.journal| {
      assert d.journal == d0.journal;
    } else if last == Promoted {
      assert PromotesOnly(d.journal, |d.journal| - 1, version);
    } else {
      WrittenIsNotIdle(d.journal);
      assert LastIntent(Recovered(d).journal) == RolledBack;
    }
  }

  /** An upgrade of a settled installation, interrupted anywhere, then recovered: the target is
      installed exactly when the Promoted intent was durable on the disk it was cut off at, and either way
      nothing is parked, staged aside or left to land. The one stable service runs, unless it
      was stopped from outside; every effect on the way was asked for under its intent. */
  method UpgradeThenRecover(world: World, version: Version, turn: Turn, turns: seq<Turn>, predicates: Predicates)
    returns (durable: bool, ghost cut: Disk)
    requires Sound(world.store.disk, world.host, world.seen) && Settled(world.store.disk, world.host)
    modifies world`host, world`seen, world.store`disk, world.store.faults
    ensures Sound(world.store.disk, world.host, world.seen)
    ensures Settled(world.store.disk, world.host)
    ensures !old(world.host).stopped && Undisturbed([turn] + turns) ==>
              Serving(world.host, Stable, world.store.disk.slots.stable)
    ensures durable <==> |cut.journal| > |old(world.store.disk).journal| && LastIntent(cut.journal) == Promoted
    ensures old(world.store.disk).journal <= cut.journal <= world.store.disk.journal
            && world.store.disk == Recovered(cut)
    ensures world.store.disk.slots.stable == if durable then Complete(version) else old(world.store.disk).slots.stable
    ensures if durable then Promised(old(world.store.disk), world.store.disk, version)
            else
              world.store.disk.journal == old(world.store.disk).journal
              || LastIntent(world.store.disk.journal) == RolledBack
    ensures forall i :: 0 <= i < |world.seen.demands| ==> world.seen.demands[i].Justified()
  {
    ghost var d0 := world.store.disk;
    if Undisturbed([turn] + turns) {
      assert ([turn] + turns)[0] == turn && forall i :: 0 <= i < |turns| ==> turns[i] == ([turn] + turns)[i + 1];
    }
    durable := InterruptedUpgrade(world, version, turn, predicates);
    cut := world.store.disk;
    RecoveryDecides(d0, world.store.disk, version);
    RecoverUntilDone(world, turns, predicates);
  }

  method InterruptedUpgrade(world: World, version: Version, turn: Turn, predicates: Predicates) returns (durable: bool)
    requires Sound(world.store.disk, world.host, world.seen) && Settled(world.store.disk, world.host)
    modifies world`host, world`seen, world.store`disk, world.store.faults
    ensures Underway(old(world.store.disk), version, world.store.disk, world.host, world.seen)
    ensures durable <==>
              |world.store.disk.journal| > |old(world.store.disk).journal|
              && LastIntent(world.store.disk.journal) == Promoted
    ensures world.host.stopped ==> old(world.host).stopped || turn.hand == StopService
  {
    var n := |world.store.disk.journal|;
    Between(world, turn);
    var worker := new Engine(world, predicates);
    var r := worker.ObserveSettled();
    OriginIsLast(world.store.disk.journal);
    var outcome: EngineOutcome;
    r, outcome := worker.Upgrade(version);
    durable := |world.store.disk.journal| > n && LastIntent(world.store.disk.journal) == Promoted;
  }

  // ---------------------------------------------------------------- the shipped simulation

  /** One round: the target, the boundary at which the worker dies, and whether the readback refuses. */
  datatype Round = Round(target: Version, crashAt: Option<nat>, refuse: bool)

  /** What the simulation asks of the world after each round. */
  function Judge(initial: Snapshot, d: Disk, h: Host): Status {
    if h.parked then Err(Invalid(HarnessParked))
    else if !WorkloadPreserved(initial, Observe(d, h)) then Err(Invalid(HarnessWorkloadChanged))
    else if !ServiceSettlesLive([Observe(d, h)], 1) then Err(Invalid(HarnessNotLive))
    else Ok
  }

  lemma SettledPasses(initial: Snapshot, d: Disk, h: Host)
    requires Consistent(d, h) && Settled(d, h) && !h.stopped && initial.workload == Some(SYNTHETIC_WORKLOAD)
    ensures Judge(initial, d, h) == Ok
  {
    var s := Observe(d, h);
    assert h.live[0] in s.live && StableLive(s);
    assert [s][0] == s;
  }

  /** One attempt that may die: recover, then upgrade. */
  method Attempt(world: World, round: Round, verifierPid: nat) returns (r: Status)
    requires Sound(world.store.disk, world.host, world.seen) && !world.host.stopped
    modifies world`host, world`seen, world.store`disk, world.store.faults
    ensures Sound(world.store.disk, world.host, world.seen) && !world.host.stopped
    ensures r.Err? && r.error != Crash ==>
              r.error == Invalid(HostEvidenceInvalid) && verifierPid == world.host.incarnation > 1
    ensures round.crashAt.None? ==> !(r.Err? && r.error == Crash)
  {
    var predicates := Predicates(round.refuse, verifierPid);
    var plan := if round.crashAt.Some? then map[round.crashAt.value := Kill] else map[];
    forall e | Planned(e, plan) ensures e == Crash && round.crashAt.Some? {
      if round.crashAt.Some? {
        OneKillOneCrash(round.crashAt.value, e);
      } else {
        NothingPlanned(e);
      }
    }
    world.store.faults.Inject(plan);
    var worker := new Engine(world, predicates);
    r := worker.Recover();
    if r.Ok? {
      var outcome: EngineOutcome;
      r, outcome := worker.Upgrade(round.target);
    }
  }

  /** One attempt that may die, then one recovery. */
  method PlayRound(world: World, round: Round, initial: Snapshot, verifierPid: nat) returns (r: Status, crashed: bool)
    requires Sound(world.store.disk, world.host, world.seen) && !world.host.stopped
    requires initial.workload == Some(SYNTHETIC_WORKLOAD)
    modifies world`host, world`seen, world.store`disk, world.store.faults
    ensures Sound(world.store.disk, world.host, world.seen) && !world.host.stopped
    ensures r.Ok? ==> Settled(world.store.disk, world.host)
    ensures r.Err? ==> r.error == Invalid(HostEvidenceInvalid) && verifierPid == world.host.incarnation > 1
    ensures crashed ==> r.Ok? && round.crashAt.Some?
  {
    r := Attempt(world, round, verifierPid);
    crashed := r.Err? && r.error == Crash;
    if r.Ok? || crashed {
      r := RecoverOnce(world, Turn(map[], false, Leave), Predicates(round.refuse, verifierPid));
      if r.Err? {
        NothingPlanned(r.error);
      } else {
        SettledPasses(initial, world.store.disk, world.host);
        r := Judge(initial, world.store.disk, world.host);
      }
    }
  }

  /** Every schedule passes. A round can only fail where the harness gives the candidate the
      verifier's own process number, which the evidence check refuses. */
  method Simulate(first: Version, rounds: seq<Round>, verifierPid: nat)
    returns (r: Status, crashes: nat, incarnations: nat)
    ensures r.Err? ==> r.error == Invalid(HostEvidenceInvalid) && verifierPid == incarnations > 1
    ensures crashes <= |rounds|
  {
    var faults := new Faults();
    var store := new FileStore(faults, first);
    var world := new World(store, first);
    var initial := Observe(store.disk, world.host);
    crashes := 0;
    for i := 0 to |rounds|
      invariant Sound(store.disk, world.host, world.seen) && Settled(store.disk, world.host) && !world.host.stopped
      invariant world.store == store && store.faults == faults && fresh(world) && fresh(store) && fresh(faults)
      invariant crashes <= i
    {
      var crashed: bool;
      r, crashed := PlayRound(world, rounds[i], initial, verifierPid);
      if r.Err? {
        return r, crashes, world.host.incarnation;
      }
      crashes := crashes + if crashed then 1 else 0;
    }
    return Ok, crashes, world.host.incarnation;
  }
}
