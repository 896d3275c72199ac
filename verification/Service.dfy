/** Any number of workers, one after another, each dying or failing wherever it may. */
module Service {
  import opened State
  import opened Storage
  import opened Worlds
  import opened Protocol
  import opened Engine
  import opened Receipts
  import opened Runner

  /** One worker's turn: what it is asked, what it finds, and what goes wrong. */
  datatype Shift = Shift(
    request: Request, around: Surroundings, plan: map<nat, Fault>, lands: bool, hand: Hand, predicates: Predicates)

  /** A fresh installation, as bootstrap leaves it: one stable slot, its service running, no records. */
  method Bootstrap(version: Version) returns (world: World, ghost chronicle: Chronicle)
    ensures fresh(world) && fresh(world.store) && fresh(world.store.faults) && fresh(chronicle)
    ensures Coherent(world.store.disk, world.host, world.seen, chronicle.hist)
    ensures Settled(world.store.disk, world.host) && world.host.live != []
    ensures world.store.disk == Disk(Slots(Complete(version), Absent, Absent, Absent), [], Genesis, map[])
    ensures chronicle.hist.drives == []
  {
    var faults := new Faults();
    var store := new FileStore(faults, version);
    world := new World(store, version);
    chronicle := new Chronicle();
  }

  /** What happens before a worker starts: an earlier call may land, the service may be stopped
      or started from outside. No receipt is disturbed. */
  method Between(world: World, shift: Shift, ghost chronicle: Chronicle)
    requires Coherent(world.store.disk, world.host, world.seen, chronicle.hist)
    modifies world`host, world.store.faults
    ensures Coherent(world.store.disk, world.host, world.seen, chronicle.hist)
    ensures world.store.faults.plan == shift.plan && world.store.faults.boundary == 0
    ensures world.host.pending == old(world.host).pending || world.host.pending.None?
    ensures !shift.lands && shift.hand == Leave ==> world.host == old(world.host)
    ensures world.host.stopped ==> old(world.host).stopped || shift.hand == StopService
  {
    ghost var h := world.host;
    world.LandLate(shift.lands);
    LandingKeepsAgreement(world.store.disk, h, world.seen, chronicle.hist, world.host);
    HandKeepsAgreement(world.store.disk, world.host, world.seen, chronicle.hist, shift.hand);
    world.ByHand(shift.hand);
    world.store.faults.Inject(shift.plan);
  }

  method Serve(world: World, shift: Shift, ghost chronicle: Chronicle) returns (answer: Option<Response>)
    requires Coherent(world.store.disk, world.host, world.seen, chronicle.hist)
    modifies world`host, world`seen, world.store`disk, world.store.faults, chronicle
    ensures Coherent(world.store.disk, world.host, world.seen, chronicle.hist)
    ensures Keeps(old(world.store.disk), world.store.disk)
    ensures DrivenFor(shift.request, shift.around, old(chronicle.hist), chronicle.hist)
    ensures answer.Some? ==> Faithful(shift.request, shift.around, shift.plan, answer.value, world.store.disk)
    ensures answer.None? ==> Has(shift.plan, Kill)
    ensures answer.Some? ==> answer.value.error != Some(Crash)
    ensures world.host.stopped ==> old(world.host).stopped || shift.hand == StopService
    ensures HandsOff(shift.request, shift.around) ==> world.store.disk == old(world.store.disk)
    ensures Barren(shift.request, shift.around, old(world.store.disk)) ==>
              && world.store.disk == old(world.store.disk)
              && (answer.Some? ==> Fruitless(answer.value, Expected(shift.request).value))
    ensures Unhindered(shift.request, shift.around, shift.plan, old(world.store.disk)) ==>
              && answer.Some?
              && FairlyServed(shift.request, answer.value.error, old(world.store.disk), world.store.disk, world.host,
                              shift.predicates)
    // a call in flight is one the worker found, having asked for nothing itself, or its own
    ensures answer.Some? && world.host.pending.Some?
            && (world.host.pending != old(world.host).pending || world.seen != old(world.seen)) ==>
              exists b ::
                b in shift.plan
                && InFlightSince(shift.plan, b, chronicle.hist.drives != old(chronicle.hist).drives,
                                 world.store.faults.boundary, answer.value.error == Some(Uncertain))
    ensures !shift.lands && shift.hand == Leave ==>
              Decided(shift.request, shift.around, shift.plan, 0, old(world.store.disk), old(world.host),
                      old(chronicle.hist), world.seen != old(world.seen),
                      Ended(answer), world.store.faults.boundary,
                      world.store.disk, world.host, chronicle.hist)
  {
    Between(world, shift, chronicle);
    var worker := new Runner(world, shift.predicates, chronicle);
    answer := worker.Execute(shift.request, shift.around);
    if answer.Some? && world.host.pending.Some?
       && (world.host.pending != old(world.host).pending || world.seen != old(world.seen)) {
      InFlightIsTold(answer.value, world.host, shift.plan, chronicle.hist.drives != old(chronicle.hist).drives,
                     world.store.faults.boundary);
    }
  }

  /** Over every sequence of requests, recoveries and crashes: journal and receipts agree, no
      receipt is ever changed or lost, and no worker is ever refused because the two disagree. */
  method ServeAll(world: World, shifts: seq<Shift>, ghost chronicle: Chronicle) returns (answers: seq<Option<Response>>)
    requires Coherent(world.store.disk, world.host, world.seen, chronicle.hist)
    modifies world`host, world`seen, world.store`disk, world.store.faults, chronicle
    ensures Coherent(world.store.disk, world.host, world.seen, chronicle.hist)
    ensures Keeps(old(world.store.disk), world.store.disk)
    ensures |answers| == |shifts|
    ensures forall i :: 0 <= i < |shifts| && answers[i].Some? && answers[i].value.error.Some? ==>
              Foreseen(answers[i].value.error.value, shifts[i].around, shifts[i].plan)
  {
    answers := [];
    for k := 0 to |shifts|
      invariant Coherent(world.store.disk, world.host, world.seen, chronicle.hist)
      invariant Keeps(old(world.store.disk), world.store.disk)
      invariant |answers| == k
      invariant forall i :: 0 <= i < k && answers[i].Some? && answers[i].value.error.Some? ==>
                  Foreseen(answers[i].value.error.value, shifts[i].around, shifts[i].plan)
    {
      ghost var d := world.store.disk;
      var answer := Serve(world, shifts[k], chronicle);
      KeepsTransitive(old(world.store.disk), d, world.store.disk);
      answers := answers + [answer];
    }
  }

  /** The life of an installation: whatever its workers were asked and met, no operation was
      handed to the engine twice, every one that was is on record, every terminal receipt was
      true when written, and every effect of every worker was asked for under its own durable
      intent, with no earlier call still in flight. A call is left in flight only with its operation open. */
  method Life(version: Version, shifts: seq<Shift>)
    returns (world: World, ghost hist: History, answers: seq<Option<Response>>)
    ensures Sound(world.store.disk, world.host, world.seen) && world.store.disk.operation != Unreadable
    ensures forall i, j :: 0 <= i < j < |hist.drives| ==> hist.drives[i] != hist.drives[j]
    ensures forall i :: 0 <= i < |hist.drives| ==> Known(world.store.disk, hist.drives[i])
    ensures forall id | Receipt(world.store.disk, id).Some? ::
              Truthful(Receipt(world.store.disk, id).value, hist, world.store.disk.journal)
    ensures forall i :: 0 <= i < |world.seen.demands| ==>
              Authorized(world.seen.demands[i].action, world.seen.demands[i].last) && world.seen.demands[i].clear
    ensures world.host.pending.Some? ==> Unfinished(world.store.disk)
    ensures |answers| == |shifts|
    ensures forall i :: 0 <= i < |shifts| && answers[i].Some? && answers[i].value.error.Some? ==>
              Foreseen(answers[i].value.error.value, shifts[i].around, shifts[i].plan)
  {
    ghost var chronicle: Chronicle;
    world, chronicle := Bootstrap(version);
    answers := ServeAll(world, shifts, chronicle);
    hist := chronicle.hist;
    assert Obeyed(world.seen.demands);
    if world.host.pending.Some? {
      InFlightIsUnfinished(world.store.disk, world.host, world.seen, hist);
    }
    assert Archived(world.store.disk, hist) && Current(world.store.disk, world.host, hist);
  }

  // ---------------------------------------------------------------- a request repeated

  /** An id no record uses. */
  method FreshId(d: Disk) returns (id: string)
    ensures !Known(d, id) && id != ""
  {
    var used := d.archives.Keys + if d.operation.Observed? then {d.operation.operation.id} else {};
    var rest := used;
    id := "i";
    while id in rest
      invariant forall s :: s in used ==> s in rest || |s| < |id|
      invariant id != ""
      decreases |rest|
    {
      rest := rest - {id};
      id := id + "i";
    }
  }

  /** A first upgrade that nothing hinders, on a fresh installation. */
  method FirstUpgrade(first: Version, v: Version, calm: Surroundings, predicates: Predicates)
    returns (world: World, ghost chronicle: Chronicle)
    requires first != v && calm == Surroundings(false, Granted, Auto, Release(v), None)
             && predicates == Predicates(false, 0)
    ensures fresh(world) && fresh(world.store) && fresh(world.store.faults) && fresh(chronicle)
    ensures Coherent(world.store.disk, world.host, world.seen, chronicle.hist)
    ensures Finishes(world.store.disk, "first", v, OPromoted)
  {
    world, chronicle := Bootstrap(first);
    SettledIsRecovered(world.store.disk, world.host);
    var answer := Serve(world, Shift(RUpgrade("first", v, true), calm, map[], false, Leave, predicates), chronicle);
  }

  /** The worker that dies: it has admitted the request and opened its operation. */
  method OpenAgain(world: World, v: Version, id: string, calm: Surroundings, predicates: Predicates,
                   ghost chronicle: Chronicle)
    returns (answer: Option<Response>)
    requires Coherent(world.store.disk, world.host, world.seen, chronicle.hist)
    requires Terminal(world.store.disk)
             && Finishes(world.store.disk, world.store.disk.operation.operation.id, v, OPromoted)
    requires !Known(world.store.disk, id) && calm.lock.Granted? && !calm.managedElsewhere
    modifies world`host, world`seen, world.store`disk, world.store.faults, chronicle
    ensures Coherent(world.store.disk, world.host, world.seen, chronicle.hist)
    ensures answer.None? && Unfinished(world.store.disk)
    ensures IsOpen(world.store.disk, world.host, chronicle.hist, world.store.disk.operation.operation)
    ensures var op := world.store.disk.operation.operation; op.id == id && op.targetVersion == op.fromVersion == v
    ensures LastIntent(world.store.disk.journal) == Promoted
  {
    var plan := map[Opening(world.store.disk) := Kill];
    ghost var d := world.store.disk;
    assert DiesAt(plan, 0, Opening(d));
    answer := Serve(world, Shift(RUpgrade(id, v, true), calm, plan, false, Leave, predicates), chronicle);
    assert Opened(world.store.disk, world.host, chronicle.hist, id, v, d);
  }

  /** A run: an upgrade to `v` succeeds; a worker asked for `v` again dies right after it has
      opened the operation; the next one recovers. The repeated operation then reads as promoted,
      with no promotion since it was opened. */
  method RepeatedRequest(first: Version, v: Version)
    returns (world: World, ghost chronicle: Chronicle, id: string, answers: seq<Option<Response>>)
    requires first != v
    ensures Coherent(world.store.disk, world.host, world.seen, chronicle.hist)
    ensures |answers| == 2 && answers[0].None? && answers[1].Some? && answers[1].value.error.None?
    ensures id in chronicle.hist.begun && id !in chronicle.hist.drives
    ensures Finishes(world.store.disk, id, v, OPromoted) && world.store.disk.operation.operation.fromVersion == v
    ensures !PromotedSince(world.store.disk.journal, chronicle.hist.begun[id], v)
  {
    var calm, predicates := Surroundings(false, Granted, Auto, Release(v), None), Predicates(false, 0);
    world, chronicle := FirstUpgrade(first, v, calm, predicates);
    id := FreshId(world.store.disk);
    var died := OpenAgain(world, v, id, calm, predicates, chronicle);
    SettledIsRecovered(world.store.disk, world.host);
    var recovered := Serve(world, Shift(RRecover(Some((id, v))), calm, map[], false, Leave, predicates), chronicle);
    answers := [died, recovered];
  }
}
