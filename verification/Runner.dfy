/** A worker: it serves one request under the lock, driving the engine and keeping the
    operation receipt in step with it. */
module Runner {
  import opened State
  import opened Storage
  import opened Invariants
  import opened Worlds
  import opened Protocol
  import opened Engine
  import opened Receipts

  datatype Policy = Auto | Confirm | NotifyOnly

  datatype Fetched = Release(version: Version) | VersionUnavailable | SourceDown

  /** What becomes of the attempt to take the contender lock: it is held by somebody who looks
      alive, or its record cannot be written. */
  datatype Gate = Granted | Taken | Unwritable

  /** Everything a worker finds outside the state directory. */
  datatype Surroundings = Surroundings(
    managedElsewhere: bool,
    lock: Gate,
    policy: Policy,
    fetched: Fetched,
    incompatible: Option<string>)

  datatype Request =
    | RUpgrade(id: string, target: Version, consented: bool)
    | RRecover(expected: Option<(string, Version)>)
    | RStatus

  datatype UpgradeOutcome = UPromoted | URolledBack(reason: string) | UHeld(reason: string) | UUpToDate

  /** Requests that are served only under the lock. */
  predicate TakesLock(request: Request, around: Surroundings) {
    !request.RStatus? && !(around.managedElsewhere && request.RUpgrade?)
  }

  function GateError(gate: Gate): Error
    requires !gate.Granted?
  {
    if gate.Taken? then Locked else Invalid(LockUnwritable)
  }

  /** The ways a request may fail. */
  predicate Foreseen(e: Error, around: Surroundings, plan: map<nat, Fault>) {
    Encountered(e, plan) || (!around.lock.Granted? && e == GateError(around.lock))
  }

  /** The ways a request may fail under the lock. The state mismatch, the unfinished journal, the
      operation in progress and the archive conflict are not among them. */
  predicate Encountered(e: Error, plan: map<nat, Fault>) {
    || Planned(e, plan)
    || e.Replay?
    || (e.Invalid? && (e.refusal == ReceiptUnreadable || e.refusal == OperationIdConflict
                       || e.refusal == RecoveryOperationNotFound || e.refusal == PinnedVersionMismatch
                       || e.refusal == FetchFailed || e.refusal == CandidatePreparationFailed
                       || e.refusal == HostEvidenceInvalid))
  }

  class Runner {
    const world: World
    const predicates: Predicates
    ghost const chronicle: Chronicle

    constructor (world: World, predicates: Predicates, ghost chronicle: Chronicle)
      ensures this.world == world && this.predicates == predicates && this.chronicle == chronicle
    {
      this.world := world;
      this.predicates := predicates;
      this.chronicle := chronicle;
    }

    /** Rewrite the open operation: its phase, and its outcome once there is one. */
    method Transition(op: Operation, phase: OperationPhase, outcome: Option<Outcome>, reason: Option<string>)
      returns (r: Status, op': Operation)
      requires Coherent(world.store.disk, world.host, world.seen, chronicle.hist)
      requires world.store.disk.operation == Observed(op) && op.outcome.None? && op.id in chronicle.hist.begun
      requires outcome.Some? ==>
                 Recordable(op, outcome.value, chronicle.hist.begun[op.id], world.store.disk, world.host)
      modifies world.store`disk, world.store.faults`boundary, chronicle
      ensures Coherent(world.store.disk, world.host, world.seen, chronicle.hist)
      ensures Keeps(old(world.store.disk), world.store.disk)
      ensures chronicle.hist.begun == old(chronicle.hist).begun && chronicle.hist.drives == old(chronicle.hist).drives
      ensures op' == op.(phase := phase, outcome := outcome, reason := if reason.Some? then reason.value else op.reason)
      ensures world.store.disk == old(world.store.disk).(operation := world.store.disk.operation)
      ensures r.Ok? ==> world.store.disk.operation == Observed(op')
      ensures world.store.disk.operation == Observed(op) || world.store.disk.operation == Observed(op')
      ensures r.Err? ==> Planned(r.error, world.store.faults.plan)
      ensures r == WriteEnds(world.store.faults.plan, old(world.store.faults.boundary))
      ensures world.store.faults.boundary == WriteStops(world.store.faults.plan, old(world.store.faults.boundary))
    {
      op' := op.(phase := phase, outcome := outcome, reason := if reason.Some? then reason.value else op.reason);
      TransitionIsSafe(world.store.disk, world.host, chronicle.hist, op, op');
      r := world.store.PersistOperation(op');
      ghost var now := world.store.disk.operation;
      if outcome.Some? && now == Observed(op') {
        chronicle.hist := chronicle.hist.(held := chronicle.hist.held[op.id := StableNow(world.store.disk)]);
      }
    }

    /** Close an open operation from what the journal and the slots say. */
    method Settle() returns (r: Status)
      requires Coherent(world.store.disk, world.host, world.seen, chronicle.hist)
      requires Settled(world.store.disk, world.host)
      modifies world.store`disk, world.store.faults`boundary, chronicle
      ensures Coherent(world.store.disk, world.host, world.seen, chronicle.hist)
      ensures Keeps(old(world.store.disk), world.store.disk)
      ensures SameBegun(old(chronicle.hist), chronicle.hist)
      ensures world.store.disk.slots == old(world.store.disk).slots
              && world.store.disk.journal == old(world.store.disk).journal
      ensures r.Ok? ==>
                world.store.disk.operation != Unreadable && world.store.disk.archives == old(world.store.disk).archives
      ensures r.Ok? && world.store.disk.operation.Observed? ==> world.store.disk.operation.operation.outcome.Some?
      ensures r.Ok? ==> SameOperation(old(world.store.disk), world.store.disk)
      ensures r.Ok? && Unfinished(old(world.store.disk)) ==>
                && world.store.disk.operation.Observed?
                && world.store.disk.operation.operation.outcome ==
                     Some(SettlesAs(old(world.store.disk), old(world.store.disk).operation.operation.targetVersion))
      ensures !Unfinished(old(world.store.disk)) ==> world.store.disk == old(world.store.disk)
      ensures old(world.store.disk).operation == Unreadable ==> world.store.disk == old(world.store.disk)
      ensures r.Err? ==>
                Planned(r.error, world.store.faults.plan)
                || (old(world.store.disk).operation == Unreadable && r.error == Invalid(ReceiptUnreadable))
      ensures old(world.store.disk).operation != Unreadable && !Unfinished(old(world.store.disk)) ==>
                r.Ok? && world.store.faults.boundary == old(world.store.faults.boundary)
    {
      if world.store.disk.operation == Unreadable {
        return Err(Invalid(ReceiptUnreadable));
      }
      if world.store.disk.operation == Genesis || world.store.disk.operation.operation.outcome.Some? {
        return Ok;
      }
      var op := world.store.disk.operation.operation;
      var state :- TransactionState(world.store.disk);
      if state.phase == Promoted && state.stable == op.targetVersion {
        r, op := Transition(op, Finished(OPromoted), Some(OPromoted), None);
      } else if state.phase.AtRest() {
        var reason := if state.phase == RolledBack then state.reason
                      else "recovery settled at " + state.phase.DebugName() + " with stable " + state.stable;
        r, op := Transition(op, Finished(ORolledBack), Some(ORolledBack), Some(reason));
      } else {
        r := Ok;
      }
    }

    /** A recorded outcome means nothing is left to replay; otherwise recover the transaction. */
    method RecoverEngine(engine: Engine) returns (r: Status)
      requires Coherent(world.store.disk, world.host, world.seen, chronicle.hist) && engine.world == world
      modifies engine`seqNo, world`host, world`seen, world.store`disk, world.store.faults`boundary
      ensures world.host.stopped ==> old(world.host).stopped
      ensures Coherent(world.store.disk, world.host, world.seen, chronicle.hist)
      ensures Keeps(old(world.store.disk), world.store.disk)
      ensures world.store.disk.operation == old(world.store.disk).operation
              && world.store.disk.archives == old(world.store.disk).archives
      ensures r.Ok? ==> Settled(world.store.disk, world.host) && engine.seqNo == |world.store.disk.journal|
      ensures r.Ok? ==> world.store.disk == Recovered(old(world.store.disk))
      ensures Terminal(old(world.store.disk)) ==>
                world.store.disk == old(world.store.disk) && world.host == old(world.host)
      ensures r.Ok? && !Terminal(old(world.store.disk)) && Restarts(LastIntent(old(world.store.disk).journal)) ==>
                !world.host.stopped
      ensures old(world.store.disk).operation == Unreadable ==>
                r == Err(Invalid(ReceiptUnreadable)) && world.store.disk == old(world.store.disk)
                && world.host == old(world.host)
      ensures r.Err? ==>
                Planned(r.error, world.store.faults.plan)
                || (old(world.store.disk).operation == Unreadable && r.error == Invalid(ReceiptUnreadable))
      ensures (world.host == old(world.host) && world.seen == old(world.seen))
              || Leaves(world.host, r, world.store.faults)
      ensures AtEase(old(world.store.disk))
              && Quiet(world.store.faults.plan, old(world.store.faults.boundary), Effort(old(world.store.disk))) ==>
                r.Ok?
                && world.store.faults.boundary == old(world.store.faults.boundary) + Effort(old(world.store.disk))
                && world.store.disk == old(world.store.disk) && world.host == old(world.host)
    {
      ghost var d, h := world.store.disk, world.host;
      if world.store.disk.operation == Unreadable {
        return Err(Invalid(ReceiptUnreadable));
      }
      if world.store.disk.operation.Observed? && world.store.disk.operation.operation.outcome.Some? {
        var op := world.store.disk.operation.operation;
        var state :- TransactionState(world.store.disk);
        var expected := if op.outcome.value == OPromoted then op.targetVersion else op.fromVersion;
        if !state.phase.AtRest() || state.stable != expected {
          return Err(Invalid(SettledOperationStateMismatch));
        }
        r := engine.ObserveSettled();
        OriginIsLast(world.store.disk.journal);
        SettledIsRecovered(world.store.disk, world.host);
      } else {
        r := engine.Recover();
        RecoverStepIsSafe(d, h, chronicle.hist, world.store.disk, world.host);
      }
    }

    method Recover(expected: Option<(string, Version)>, around: Surroundings) returns (r: Status)
      requires Coherent(world.store.disk, world.host, world.seen, chronicle.hist)
      modifies world`host, world`seen, world.store`disk, world.store.faults`boundary, chronicle
      ensures world.host.stopped ==> old(world.host).stopped
      ensures Coherent(world.store.disk, world.host, world.seen, chronicle.hist)
      ensures Keeps(old(world.store.disk), world.store.disk) && SameBegun(old(chronicle.hist), chronicle.hist)
      ensures r.Ok? ==> Settled(world.store.disk, world.host) && world.store.disk.operation != Unreadable
      ensures r.Ok? && world.store.disk.operation.Observed? ==> world.store.disk.operation.operation.outcome.Some?
      ensures r.Ok? && expected.Some? ==>
                && world.store.disk.operation.Observed?
                && world.store.disk.operation.operation.id == expected.value.0
                && world.store.disk.operation.operation.targetVersion == expected.value.1
      ensures r.Ok? ==> SameOperation(old(world.store.disk), world.store.disk)
      ensures r.Ok? && Unfinished(old(world.store.disk)) ==>
                && world.store.disk.journal == Recovered(old(world.store.disk)).journal
                && ClosedAs(old(world.store.disk), world.store.disk)
      ensures Terminal(old(world.store.disk)) ==>
                world.store.disk == old(world.store.disk) && world.host == old(world.host)
      ensures r.Ok? && !Terminal(old(world.store.disk)) && Restarts(LastIntent(old(world.store.disk).journal)) ==>
                !world.host.stopped
      ensures r.Err? && r.error.Replay? ==>
                expected.Some? && Replays(old(world.store.disk), expected.value.0, expected.value.1, r.error)
      ensures old(world.store.disk).operation == Unreadable ==>
                r.Err? && world.store.disk == old(world.store.disk) && world.host == old(world.host)
      ensures expected.Some? && Unserved(old(world.store.disk), expected.value) ==>
                r.Err? && !r.error.Replay? && world.store.disk == old(world.store.disk) && world.host == old(world.host)
      ensures !around.lock.Granted? ==>
                r == Err(GateError(around.lock)) && world.store.disk == old(world.store.disk)
                && world.host == old(world.host)
      ensures r.Err? ==>
                || Planned(r.error, world.store.faults.plan) || !around.lock.Granted?
                || (Declined(old(world.store.disk), expected, r) && world.store.disk == old(world.store.disk))
      ensures r.Err? ==> Foreseen(r.error, around, world.store.faults.plan)
      ensures Decided(RRecover(expected), around, world.store.faults.plan, old(world.store.faults.boundary),
                      old(world.store.disk), old(world.host), old(chronicle.hist),
                      world.seen != old(world.seen), r, world.store.faults.boundary,
                      world.store.disk, world.host, chronicle.hist)
    {
      if !around.lock.Granted? {
        return Err(GateError(around.lock));
      }
      if world.store.disk.operation == Unreadable {
        return Err(Invalid(ReceiptUnreadable));
      }
      if expected.Some? {
        PriorFacts(world.store.disk, world.host, chronicle.hist, expected.value.0, expected.value.1, true);
        :- Prior(world.store.disk, expected.value.0, expected.value.1, true);
      }
      var engine := new Engine(world, predicates);
      r := CatchUp(engine);
    }

    /** Recover what an earlier worker left, then close its operation. */
    method CatchUp(engine: Engine) returns (r: Status)
      requires Coherent(world.store.disk, world.host, world.seen, chronicle.hist) && engine.world == world
      modifies engine`seqNo, world`host, world`seen, world.store`disk, world.store.faults`boundary, chronicle
      ensures world.host.stopped ==> old(world.host).stopped
      ensures Coherent(world.store.disk, world.host, world.seen, chronicle.hist)
      ensures Keeps(old(world.store.disk), world.store.disk) && SameBegun(old(chronicle.hist), chronicle.hist)
      ensures r.Ok? ==> Settled(world.store.disk, world.host) && engine.seqNo == |world.store.disk.journal|
      ensures r.Ok? ==>
                world.store.disk.operation != Unreadable && world.store.disk.archives == old(world.store.disk).archives
      ensures r.Ok? && world.store.disk.operation.Observed? ==> world.store.disk.operation.operation.outcome.Some?
      ensures r.Ok? ==> SameOperation(old(world.store.disk), world.store.disk)
      ensures r.Ok? && Unfinished(old(world.store.disk)) ==>
                && world.store.disk.journal == Recovered(old(world.store.disk)).journal
                && ClosedAs(old(world.store.disk), world.store.disk)
      ensures Terminal(old(world.store.disk)) ==>
                world.store.disk == old(world.store.disk) && world.host == old(world.host)
      ensures r.Ok? && !Terminal(old(world.store.disk)) && Restarts(LastIntent(old(world.store.disk).journal)) ==>
                !world.host.stopped
      ensures r.Ok? ==> StableNow(world.store.disk) == StableNow(Recovered(old(world.store.disk)))
      ensures old(world.store.disk).operation == Unreadable ==>
                r.Err? && world.store.disk == old(world.store.disk) && world.host == old(world.host)
      ensures r.Err? ==>
                Planned(r.error, world.store.faults.plan)
                || (old(world.store.disk).operation == Unreadable && r.error == Invalid(ReceiptUnreadable))
      ensures (world.host == old(world.host) && world.seen == old(world.seen))
              || Accounts(world.host, r, world.store.faults.plan, false, world.store.faults.boundary)
      ensures AtEase(old(world.store.disk))
              && Quiet(world.store.faults.plan, old(world.store.faults.boundary), Effort(old(world.store.disk))) ==>
                r.Ok?
                && world.store.faults.boundary == old(world.store.faults.boundary) + Effort(old(world.store.disk))
                && world.store.disk == old(world.store.disk) && world.host == old(world.host)
    {
      ghost var d := world.store.disk;
      :- RecoverEngine(engine);
      ghost var d' := world.store.disk;
      r := Settle();
      KeepsTransitive(d, d', world.store.disk);
    }

    /** Retire a finished predecessor's receipt, where it stays readable. */
    method Archive(op: Operation) returns (r: Status)
      requires Coherent(world.store.disk, world.host, world.seen, chronicle.hist)
      requires world.store.disk.operation == Observed(op) && op.outcome.Some?
      modifies world.store`disk, world.store.faults`boundary
      ensures Coherent(world.store.disk, world.host, world.seen, chronicle.hist)
      ensures Keeps(old(world.store.disk), world.store.disk)
      ensures world.store.disk == old(world.store.disk).(archives := world.store.disk.archives)
      ensures r.Ok? ==> world.store.disk.archives == old(world.store.disk).archives[op.id := op]
      ensures r.Err? ==> Planned(r.error, world.store.faults.plan)
      ensures op.id in old(world.store.disk).archives ==>
                r.Ok? && world.store.faults.boundary == old(world.store.faults.boundary)
      ensures op.id !in old(world.store.disk).archives ==>
                r == WriteEnds(world.store.faults.plan, old(world.store.faults.boundary))
                && (r.Ok? ==> world.store.faults.boundary == old(world.store.faults.boundary) + 2)
    {
      ArchiveIsSafe(world.store.disk, world.host, chronicle.hist, op);
      var existing := ReadArchive(world.store.disk, op.id);
      match existing {
        case Unreadable => r := Err(Invalid(ReceiptUnreadable));
        case Observed(kept) =>
          r := if kept.targetVersion != op.targetVersion || kept.outcome != op.outcome
               then Err(Invalid(OperationArchiveConflict)) else Ok;
        case Genesis => r := world.store.PersistArchive(op);
      }
    }

    /** Archive the finished predecessor, if there is one, and read the installed version. */
    method Retire() returns (r: Status, installed: Version)
      requires Coherent(world.store.disk, world.host, world.seen, chronicle.hist)
      requires Settled(world.store.disk, world.host)
      requires world.store.disk.operation.Observed? ==> world.store.disk.operation.operation.outcome.Some?
      modifies world.store`disk, world.store.faults`boundary
      ensures Coherent(world.store.disk, world.host, world.seen, chronicle.hist)
      ensures Keeps(old(world.store.disk), world.store.disk)
      ensures world.store.disk == old(world.store.disk).(archives := world.store.disk.archives)
      ensures r.Ok? && world.store.disk.operation.Observed? ==>
                var op := world.store.disk.operation.operation;
                world.store.disk.archives == old(world.store.disk).archives[op.id := op]
      ensures !world.store.disk.operation.Observed? ==> world.store.disk == old(world.store.disk)
      ensures installed == StableNow(world.store.disk)
      ensures r.Err? ==> Planned(r.error, world.store.faults.plan)
      ensures Quiet(world.store.faults.plan, old(world.store.faults.boundary),
                    OpenBoundary(old(world.store.disk)) - 2) ==>
                r.Ok?
                && world.store.faults.boundary + 2 ==
                     old(world.store.faults.boundary) + OpenBoundary(old(world.store.disk))
    {
      r, installed := Ok, StableNow(world.store.disk);
      if world.store.disk.operation.Observed? {
        :- Archive(world.store.disk.operation.operation);
      } else {
        assert Keeps(old(world.store.disk), world.store.disk);
      }
      var current :- TransactionState(world.store.disk);
      installed := current.stable;
    }

    /** The first record of an operation nobody has used. */
    method Begin(op: Operation) returns (r: Status)
      requires Coherent(world.store.disk, world.host, world.seen, chronicle.hist)
      requires Settled(world.store.disk, world.host) && world.store.disk.operation != Unreadable
      requires op.outcome.None? && world.store.disk.slots.stable == Complete(op.fromVersion)
      requires op.id !in world.store.disk.archives
      requires world.store.disk.operation.Observed? ==>
                 world.store.disk.operation.operation.id in world.store.disk.archives
      modifies world.store`disk, world.store.faults`boundary, chronicle
      ensures Coherent(world.store.disk, world.host, world.seen, chronicle.hist)
      ensures Keeps(old(world.store.disk), world.store.disk) && chronicle.hist.drives == old(chronicle.hist).drives
      ensures world.store.disk == old(world.store.disk).(operation := world.store.disk.operation)
      ensures r.Ok? ==> IsOpen(world.store.disk, world.host, chronicle.hist, op)
      ensures r.Err? ==> Planned(r.error, world.store.faults.plan)
      ensures Spared(world.store.faults.plan, old(world.store.faults.boundary) + 1) ==>
                && IsOpen(world.store.disk, world.host, chronicle.hist, op)
                && world.store.faults.boundary == old(world.store.faults.boundary) + 2
                && r == StepEnds(world.store.faults.plan, world.store.faults.boundary)
    {
      OpenIsSafe(world.store.disk, world.host, chronicle.hist, op);
      ghost var n := |world.store.disk.journal|;
      r := world.store.PersistOperation(op);
      ghost var now := world.store.disk.operation;
      if now == Observed(op) {
        chronicle.hist := chronicle.hist.(begun := chronicle.hist.begun[op.id := n]);
      }
    }

    /** Open the requested operation on the caught-up installation. */
    method Open(id: string, target: Version) returns (r: Status, op: Operation)
      requires Coherent(world.store.disk, world.host, world.seen, chronicle.hist)
      requires Settled(world.store.disk, world.host) && world.store.disk.operation != Unreadable
      requires world.store.disk.operation.Observed? ==>
                 world.store.disk.operation.operation.outcome.Some? && world.store.disk.operation.operation.id != id
      requires id !in world.store.disk.archives
      modifies world.store`disk, world.store.faults`boundary, chronicle
      ensures Coherent(world.store.disk, world.host, world.seen, chronicle.hist)
      ensures Keeps(old(world.store.disk), world.store.disk) && chronicle.hist.drives == old(chronicle.hist).drives
      ensures world.store.disk.slots == old(world.store.disk).slots
              && world.store.disk.journal == old(world.store.disk).journal
      ensures op.id == id && op.targetVersion == target && op.outcome.None?
      ensures r.Ok? ==> op.fromVersion == StableNow(old(world.store.disk))
      ensures r.Ok? ==> IsOpen(world.store.disk, world.host, chronicle.hist, op)
      ensures r.Err? ==> Planned(r.error, world.store.faults.plan)
      ensures Quiet(world.store.faults.plan, old(world.store.faults.boundary),
                    OpenBoundary(old(world.store.disk)) - 1) ==>
                && IsOpen(world.store.disk, world.host, chronicle.hist, op)
                && op.fromVersion == StableNow(old(world.store.disk))
                && world.store.faults.boundary ==
                     old(world.store.faults.boundary) + OpenBoundary(old(world.store.disk))
                && r == StepEnds(world.store.faults.plan, world.store.faults.boundary)
    {
      op := Operation(id, target, target, Checking, None, "");
      ghost var d := world.store.disk;
      var installed: Version;
      r, installed := Retire();
      op := op.(fromVersion := installed);
      if r.Ok? {
        ghost var d' := world.store.disk;
        r := Begin(op);
        KeepsTransitive(d, d', world.store.disk);
      }
    }

    /** Report progress on an open operation. */
    method Report(op: Operation, phase: OperationPhase) returns (r: Status, op': Operation)
      requires Coherent(world.store.disk, world.host, world.seen, chronicle.hist)
      requires IsOpen(world.store.disk, world.host, chronicle.hist, op)
      modifies world.store`disk, world.store.faults`boundary, chronicle
      ensures Coherent(world.store.disk, world.host, world.seen, chronicle.hist)
      ensures Keeps(old(world.store.disk), world.store.disk) && SameBegun(old(chronicle.hist), chronicle.hist)
      ensures op' == op.(phase := phase)
      ensures world.store.disk == old(world.store.disk).(operation := world.store.disk.operation)
      ensures r.Ok? ==> IsOpen(world.store.disk, world.host, chronicle.hist, op')
      ensures r.Err? ==> Planned(r.error, world.store.faults.plan)
      ensures r == WriteEnds(world.store.faults.plan, old(world.store.faults.boundary))
              && (r.Ok? ==> world.store.faults.boundary == old(world.store.faults.boundary) + 2)
      ensures r.Err? ==> world.store.faults.plan != map[]
    {
      r, op' := Transition(op, phase, None, None);
    }

    /** Close an open operation that was not driven. */
    method Close(op: Operation, outcome: Outcome, reason: string) returns (r: Status)
      requires Coherent(world.store.disk, world.host, world.seen, chronicle.hist)
      requires IsOpen(world.store.disk, world.host, chronicle.hist, op) && (outcome == OHeld || outcome == OFailed)
      modifies world.store`disk, world.store.faults`boundary, chronicle
      ensures Coherent(world.store.disk, world.host, world.seen, chronicle.hist)
      ensures Keeps(old(world.store.disk), world.store.disk) && SameBegun(old(chronicle.hist), chronicle.hist)
      ensures r.Ok? ==> Closed(world.store.disk, op, outcome)
      ensures r.Err? ==> Planned(r.error, world.store.faults.plan)
    {
      var closed: Operation;
      r, closed := Transition(op, Finished(outcome), Some(outcome), Some(reason));
    }

    method Hold(op: Operation, reason: string) returns (r: Status)
      requires Coherent(world.store.disk, world.host, world.seen, chronicle.hist)
      requires IsOpen(world.store.disk, world.host, chronicle.hist, op)
      modifies world.store`disk, world.store.faults`boundary, chronicle
      ensures Coherent(world.store.disk, world.host, world.seen, chronicle.hist)
      ensures Keeps(old(world.store.disk), world.store.disk) && SameBegun(old(chronicle.hist), chronicle.hist)
      ensures r.Ok? ==> Closed(world.store.disk, op, OHeld)
      ensures r.Err? ==> Planned(r.error, world.store.faults.plan)
    {
      r := Ok;
      :- Close(op, OHeld, reason);
      r := world.store.faults.Step();
    }

    /** Find the release and ask policy and compatibility: hold, fail, or go on. */
    method Vet(op: Operation, consented: bool, around: Surroundings) returns (r: Status, held: Option<string>)
      requires Coherent(world.store.disk, world.host, world.seen, chronicle.hist)
      requires IsOpen(world.store.disk, world.host, chronicle.hist, op)
      modifies world.store`disk, world.store.faults`boundary, chronicle
      ensures Coherent(world.store.disk, world.host, world.seen, chronicle.hist)
      ensures Keeps(old(world.store.disk), world.store.disk) && SameBegun(old(chronicle.hist), chronicle.hist)
      ensures r.Ok? && held.Some? ==> Closed(world.store.disk, op, OHeld)
      ensures r.Ok? && held.None? ==> world.store.disk == old(world.store.disk) && chronicle.hist == old(chronicle.hist)
      ensures r.Ok? ==> (held.None? <==> Accepted(op.targetVersion, consented, around))
      ensures r.Err? && !Planned(r.error, world.store.faults.plan) ==>
                around.fetched != Release(op.targetVersion) && Closed(world.store.disk, op, OFailed)
      ensures r.Err? ==> Refused(r.error, world.store.faults.plan)
      ensures Accepted(op.targetVersion, consented, around)
              && Quiet(world.store.faults.plan, old(world.store.faults.boundary), 1) ==>
                r.Ok? && world.store.faults.boundary == old(world.store.faults.boundary) + 1
    {
      held := None;
      if around.fetched == VersionUnavailable && consented {
        held := Some("consented-version-unavailable");
        r := Hold(op, held.value);
        return;
      }
      if around.fetched != Release(op.targetVersion) {
        :- Close(op, OFailed, if around.fetched.Release? then "target-version-mismatch" else "release source failed");
        return Err(Invalid(if around.fetched == SourceDown then FetchFailed else PinnedVersionMismatch)), None;
      }
      if !consented && around.policy != Auto {
        held := Some(if around.policy == Confirm then "confirmation-required" else "notify-only");
        r := Hold(op, held.value);
        return;
      }
      :- world.store.faults.Step();
      held := around.incompatible;
      r := Ok;
      if held.Some? {
        r := Hold(op, held.value);
      }
    }

    /** Download, verify and prepare the candidate outside the slots. */
    method Acquire(op: Operation) returns (r: Status, op': Operation)
      requires Coherent(world.store.disk, world.host, world.seen, chronicle.hist)
      requires IsOpen(world.store.disk, world.host, chronicle.hist, op)
      modifies world.store`disk, world.store.faults`boundary, chronicle
      ensures Coherent(world.store.disk, world.host, world.seen, chronicle.hist)
      ensures Keeps(old(world.store.disk), world.store.disk) && SameBegun(old(chronicle.hist), chronicle.hist)
      ensures op'.id == op.id && op'.targetVersion == op.targetVersion && op'.fromVersion == op.fromVersion
      ensures world.store.disk == old(world.store.disk).(operation := world.store.disk.operation)
      ensures r.Ok? ==> IsOpen(world.store.disk, world.host, chronicle.hist, op')
      ensures r.Err? ==> Planned(r.error, world.store.faults.plan)
      ensures Quiet(world.store.faults.plan, old(world.store.faults.boundary), 8) ==>
                r.Ok? && world.store.faults.boundary == old(world.store.faults.boundary) + 8
    {
      ghost var d := world.store.disk;
      r, op' := Report(op, Downloading);
      if r.Ok? {
        r := world.store.faults.Step();
      }
      if r.Err? {
        return;
      }
      ghost var d1 := world.store.disk;
      r, op' := Report(op', Verifying);
      KeepsTransitive(d, d1, world.store.disk);
      if r.Err? {
        return;
      }
      ghost var d2 := world.store.disk;
      r, op' := Report(op', Staging);
      KeepsTransitive(d, d2, world.store.disk);
      if r.Ok? {
        r := world.store.faults.Step();
      }
    }

    /** The candidate's own check; its refusal closes the operation. */
    method Examine(op: Operation) returns (r: Status)
      requires Coherent(world.store.disk, world.host, world.seen, chronicle.hist)
      requires IsOpen(world.store.disk, world.host, chronicle.hist, op)
      modifies world.store`disk, world.store.faults`boundary, chronicle
      ensures Coherent(world.store.disk, world.host, world.seen, chronicle.hist)
      ensures Keeps(old(world.store.disk), world.store.disk) && SameBegun(old(chronicle.hist), chronicle.hist)
      ensures r.Ok? ==> world.store.disk == old(world.store.disk)
      ensures Spared(world.store.faults.plan, old(world.store.faults.boundary) + 1) ==>
                r.Ok? && world.store.faults.boundary == old(world.store.faults.boundary) + 1
      ensures r.Err? && !Planned(r.error, world.store.faults.plan) ==>
                r.error == Invalid(CandidatePreparationFailed) && Closed(world.store.disk, op, OFailed)
      ensures r.Err? ==> world.store.faults.plan != map[]
    {
      r := world.store.faults.Step();
      if r.Ok? || r.error == Crash {
        return;
      }
      :- Close(op, OFailed, "candidate preparation failed");
      return Err(Invalid(CandidatePreparationFailed));
    }

    /** Have the candidate examined and record that its handover is next. */
    method PrepareCandidate(op: Operation) returns (r: Status, op': Operation)
      requires Coherent(world.store.disk, world.host, world.seen, chronicle.hist)
      requires IsOpen(world.store.disk, world.host, chronicle.hist, op)
      modifies world.store`disk, world.store.faults`boundary, chronicle
      ensures Coherent(world.store.disk, world.host, world.seen, chronicle.hist)
      ensures Keeps(old(world.store.disk), world.store.disk) && SameBegun(old(chronicle.hist), chronicle.hist)
      ensures op'.id == op.id && op'.targetVersion == op.targetVersion && op'.fromVersion == op.fromVersion
      ensures r.Ok? ==> IsOpen(world.store.disk, world.host, chronicle.hist, op')
      ensures r.Ok? ==> world.store.disk == old(world.store.disk).(operation := world.store.disk.operation)
      ensures r.Err? && r.error == Invalid(CandidatePreparationFailed) ==> Closed(world.store.disk, op, OFailed)
      ensures r.Err? ==> Refused(r.error, world.store.faults.plan) && world.store.faults.plan != map[]
      ensures Quiet(world.store.faults.plan, old(world.store.faults.boundary), 4) ==>
                r.Ok? && world.store.faults.boundary == old(world.store.faults.boundary) + 4
    {
      op' := op;
      :- Examine(op);
      :- world.store.faults.Step();
      r, op' := Report(op, Handover);
    }

    /** Hand the open operation to the engine: the one place that does. */
    method Drive(engine: Engine, op: Operation) returns (r: Status, outcome: EngineOutcome)
      requires Coherent(world.store.disk, world.host, world.seen, chronicle.hist)
      requires IsOpen(world.store.disk, world.host, chronicle.hist, op)
      requires engine.world == world && engine.predicates == predicates && engine.seqNo == |world.store.disk.journal|
      modifies engine`seqNo, world`host, world`seen, world.store`disk, world.store.faults`boundary, chronicle
      ensures world.host.stopped ==> old(world.host).stopped
      ensures Coherent(world.store.disk, world.host, world.seen, chronicle.hist)
      ensures Keeps(old(world.store.disk), world.store.disk)
      ensures chronicle.hist == old(chronicle.hist).(drives := old(chronicle.hist).drives + [op.id])
      ensures world.store.disk.operation == Observed(op) && op.id in chronicle.hist.begun
      ensures r.Ok? && !outcome.EUpToDate? ==> !world.host.stopped
      ensures r.Ok? ==> Recordable(op, Verdict(outcome), chronicle.hist.begun[op.id], world.store.disk, world.host)
      ensures r.Err? ==> Refused(r.error, world.store.faults.plan)
      ensures world.store.faults.plan == map[] ==>
                if r.Ok? then Verdict(outcome) == Fair(op.fromVersion, op.targetVersion, predicates.refuse)
                else Clash(r.error, world.host, predicates)
      ensures Leaves(world.host, r, world.store.faults)
      ensures Hands(old(world.store.disk), op.targetVersion, old(world.host)) ==>
                Strands(old(world.store.faults.boundary), 20, world.host, world.store.faults)
    {
      ghost var d, h := world.store.disk, world.host;
      DriveIsSafe(d, h, chronicle.hist, op);
      chronicle.hist := chronicle.hist.(drives := chronicle.hist.drives + [op.id]);
      r, outcome := engine.Upgrade(op.targetVersion);
      NothingPlanned(if r.Err? then r.error else Invalid(HostCommandFailed));
      ghost var n := chronicle.hist.begun[op.id];
      UpgradeIsProgress(op, n, d, world.store.disk);
      EngineStepIsSafe(d, h, chronicle.hist, world.store.disk, world.host);
      if r.Ok? {
        ConclusionIsRecordable(op, n, world.store.disk, world.host);
      }
    }

    /** Tell the hooks how the engine ended, then close the operation accordingly. */
    method Conclude(op: Operation, outcome: EngineOutcome) returns (r: Status)
      requires Coherent(world.store.disk, world.host, world.seen, chronicle.hist)
      requires world.store.disk.operation == Observed(op) && op.outcome.None? && op.id in chronicle.hist.begun
      requires Recordable(op, Verdict(outcome), chronicle.hist.begun[op.id], world.store.disk, world.host)
      modifies world.store`disk, world.store.faults`boundary, chronicle
      ensures Coherent(world.store.disk, world.host, world.seen, chronicle.hist)
      ensures Keeps(old(world.store.disk), world.store.disk) && SameBegun(old(chronicle.hist), chronicle.hist)
      ensures r.Err? ==> StillOpen(world.store.disk, op) || Closed(world.store.disk, op, Verdict(outcome))
      ensures r.Ok? ==> Closed(world.store.disk, op, Verdict(outcome))
      ensures r.Err? ==> Planned(r.error, world.store.faults.plan)
      ensures r.Err? ==> world.store.faults.plan != map[]
    {
      if !outcome.EUpToDate? {
        :- world.store.faults.Step();
      }
      if outcome.EPromoted? {
        :- world.store.faults.Step();
      }
      var closed: Operation;
      r, closed := Transition(op, Finished(Verdict(outcome)), Some(Verdict(outcome)),
                              if outcome.ERolledBack? then Some(outcome.reason) else None);
    }

    /** Drive the prepared operation and close it; an error leaves it open for recovery. */
    method Install(engine: Engine, op: Operation) returns (r: Status, outcome: EngineOutcome)
      requires Coherent(world.store.disk, world.host, world.seen, chronicle.hist)
      requires IsOpen(world.store.disk, world.host, chronicle.hist, op)
      requires engine.world == world && engine.predicates == predicates && engine.seqNo == |world.store.disk.journal|
      modifies engine`seqNo, world`host, world`seen, world.store`disk, world.store.faults`boundary, chronicle
      ensures world.host.stopped ==> old(world.host).stopped
      ensures Coherent(world.store.disk, world.host, world.seen, chronicle.hist)
      ensures Keeps(old(world.store.disk), world.store.disk)
      ensures chronicle.hist.drives == old(chronicle.hist).drives + [op.id]
      ensures r.Err? ==> StillOpen(world.store.disk, op) || Closed(world.store.disk, op, Verdict(outcome))
      ensures r.Ok? && !outcome.EUpToDate? ==> !world.host.stopped
      ensures r.Ok? ==> Closed(world.store.disk, op, Verdict(outcome))
      ensures r.Err? ==> Refused(r.error, world.store.faults.plan)
      ensures world.store.faults.plan == map[] ==>
                if r.Ok? then Verdict(outcome) == Fair(op.fromVersion, op.targetVersion, predicates.refuse)
                else Clash(r.error, world.host, predicates)
      ensures Accounts(world.host, r, world.store.faults.plan, true, world.store.faults.boundary)
      ensures Hands(old(world.store.disk), op.targetVersion, old(world.host)) ==>
                Slips(world.store.faults.plan, old(world.store.faults.boundary), 20, world.host, r)
    {
      ghost var d := world.store.disk;
      r, outcome := Drive(engine, op);
      ghost var d' := world.store.disk;
      if r.Ok? {
        r := Conclude(op, outcome);
      } else {
        FalterAccounts(world.host, r.error, world.store.faults.plan, world.store.faults.boundary);
        r := Falter(op, r.error);
      }
      KeepsTransitive(d, d', world.store.disk);
    }

    /** The engine failed, which an open record is to say. A record that cannot be written takes
        the place of the engine's error, an uncertain one included. */
    method Falter(op: Operation, e: Error) returns (r: Status)
      requires Coherent(world.store.disk, world.host, world.seen, chronicle.hist)
      requires world.store.disk.operation == Observed(op) && op.outcome.None? && op.id in chronicle.hist.begun
      modifies world.store`disk, world.store.faults`boundary, chronicle
      ensures Coherent(world.store.disk, world.host, world.seen, chronicle.hist)
      ensures Keeps(old(world.store.disk), world.store.disk) && SameBegun(old(chronicle.hist), chronicle.hist)
      ensures StillOpen(world.store.disk, op)
      ensures r == Faltered(world.store.faults.plan, old(world.store.faults.boundary), e)
      ensures world.store.faults.boundary ==
                if e == Crash then old(world.store.faults.boundary)
                else WriteStops(world.store.faults.plan, old(world.store.faults.boundary))
      ensures r.Err? && r.error != e ==> Planned(r.error, world.store.faults.plan)
      ensures world.store.faults.plan == map[] ==> r == Err(e)
    {
      r := Err(e);
      if e != Crash {
        var noted: Status;
        var ignored: Operation;
        noted, ignored := Transition(op, Recovering, None, Some("engine failed"));
        if noted.Err? {
          r := noted;
        }
      }
    }

    /** An accepted operation: acquire and prepare the candidate, then install it. */
    method Proceed(engine: Engine, op: Operation) returns (r: Status, outcome: EngineOutcome)
      requires Coherent(world.store.disk, world.host, world.seen, chronicle.hist)
      requires IsOpen(world.store.disk, world.host, chronicle.hist, op)
      requires engine.world == world && engine.predicates == predicates && engine.seqNo == |world.store.disk.journal|
      modifies engine`seqNo, world`host, world`seen, world.store`disk, world.store.faults`boundary, chronicle
      ensures world.host.stopped ==> old(world.host).stopped
      ensures Coherent(world.store.disk, world.host, world.seen, chronicle.hist)
      ensures Keeps(old(world.store.disk), world.store.disk)
      ensures Driven(old(chronicle.hist), chronicle.hist, op.id, true)
      ensures r.Ok? && !outcome.EUpToDate? ==> !world.host.stopped
      ensures r.Ok? ==> Closed(world.store.disk, op, Verdict(outcome))
      ensures r.Err? ==> Refused(r.error, world.store.faults.plan)
      ensures world.store.faults.plan == map[] ==>
                if r.Ok? then Verdict(outcome) == Fair(op.fromVersion, op.targetVersion, predicates.refuse)
                else Clash(r.error, world.host, predicates)
      ensures Accounts(world.host, r, world.store.faults.plan, chronicle.hist.drives != old(chronicle.hist).drives,
                       world.store.faults.boundary)
      ensures Hands(old(world.store.disk), op.targetVersion, old(world.host)) ==>
                Slips(world.store.faults.plan, old(world.store.faults.boundary), 32, world.host, r)
    {
      outcome := EUpToDate;
      ghost var d, b := world.store.disk, world.store.faults.boundary;
      var ready: Operation;
      r, ready := Acquire(op);
      if r.Err? {
        NothingPlanned(r.error);
        return;
      }
      ghost var d1 := world.store.disk;
      r, ready := PrepareCandidate(ready);
      KeepsTransitive(d, d1, world.store.disk);
      if r.Err? {
        return;
      }
      ghost var d2, b2 := world.store.disk, world.store.faults.boundary;
      assert Quiet(world.store.faults.plan, b, 12) ==> b2 == b + 12;
      r, outcome := Install(engine, ready);
      KeepsTransitive(d, d2, world.store.disk);
      if Hands(d2, op.targetVersion, old(world.host)) {
        SlipsLater(world.store.faults.plan, b, 12, b2, 20, world.host, r);
      }
    }

    /** Carry an open operation to its end. */
    method Carry(engine: Engine, op: Operation, consented: bool, around: Surroundings)
      returns (r: Status, outcome: UpgradeOutcome)
      requires Coherent(world.store.disk, world.host, world.seen, chronicle.hist)
      requires IsOpen(world.store.disk, world.host, chronicle.hist, op)
      requires engine.world == world && engine.predicates == predicates && engine.seqNo == |world.store.disk.journal|
      modifies engine`seqNo, world`host, world`seen, world.store`disk, world.store.faults`boundary, chronicle
      ensures world.host.stopped ==> old(world.host).stopped
      ensures Coherent(world.store.disk, world.host, world.seen, chronicle.hist)
      ensures Keeps(old(world.store.disk), world.store.disk)
      ensures Driven(old(chronicle.hist), chronicle.hist, op.id, Accepted(op.targetVersion, consented, around))
      ensures r.Ok? && (outcome.UPromoted? || outcome.URolledBack?) ==> !world.host.stopped
      ensures r.Ok? ==> Closed(world.store.disk, op, Reported(outcome))
      ensures r.Err? ==> Refused(r.error, world.store.faults.plan)
      ensures world.store.faults.plan == map[] && Accepted(op.targetVersion, consented, around) ==>
                if r.Ok? then Reported(outcome) == Fair(op.fromVersion, op.targetVersion, predicates.refuse)
                else Clash(r.error, world.host, predicates)
      ensures Accounts(world.host, r, world.store.faults.plan, chronicle.hist.drives != old(chronicle.hist).drives,
                       world.store.faults.boundary)
      ensures Accepted(op.targetVersion, consented, around)
              && Hands(old(world.store.disk), op.targetVersion, old(world.host)) ==>
                Slips(world.store.faults.plan, old(world.store.faults.boundary), 33, world.host, r)
    {
      outcome := UUpToDate;
      var held :- Vet(op, consented, around);
      if held.Some? {
        return Ok, UHeld(held.value);
      }
      var concluded: EngineOutcome;
      r, concluded := Proceed(engine, op);
      outcome := Announced(concluded);
      AnnouncedVerdict(concluded);
    }

    /** Open the operation on the caught-up installation and carry it to its end. */
    method Start(engine: Engine, id: string, target: Version, consented: bool, around: Surroundings)
      returns (r: Status, outcome: UpgradeOutcome)
      requires Coherent(world.store.disk, world.host, world.seen, chronicle.hist)
      requires Settled(world.store.disk, world.host) && world.store.disk.operation != Unreadable
      requires world.store.disk.operation.Observed? ==>
                 world.store.disk.operation.operation.outcome.Some? && world.store.disk.operation.operation.id != id
      requires id !in world.store.disk.archives
      requires engine.world == world && engine.predicates == predicates && engine.seqNo == |world.store.disk.journal|
      modifies engine`seqNo, world`host, world`seen, world.store`disk, world.store.faults`boundary, chronicle
      ensures world.host.stopped ==> old(world.host).stopped
      ensures Coherent(world.store.disk, world.host, world.seen, chronicle.hist)
      ensures Keeps(old(world.store.disk), world.store.disk)
      ensures Driven(old(chronicle.hist), chronicle.hist, id, Accepted(target, consented, around))
      ensures r.Ok? && (outcome.UPromoted? || outcome.URolledBack?) ==> !world.host.stopped
      ensures r.Ok? ==> Finishes(world.store.disk, id, target, Reported(outcome))
      ensures r.Err? ==> Refused(r.error, world.store.faults.plan)
      ensures world.store.faults.plan == map[] && Accepted(target, consented, around) ==>
                if r.Ok? then Reported(outcome) == Fair(StableNow(old(world.store.disk)), target, predicates.refuse)
                else Clash(r.error, world.host, predicates)
      ensures Accounts(world.host, r, world.store.faults.plan, chronicle.hist.drives != old(chronicle.hist).drives,
                       world.store.faults.boundary)
      ensures Traced(id, target, Accepted(target, consented, around), world.store.faults.plan,
                     old(world.store.faults.boundary), OpenBoundary(old(world.store.disk)), old(world.store.disk),
                     old(world.host), r, world.store.disk, world.host, chronicle.hist)
    {
      outcome := UUpToDate;
      ghost var d, h, b := world.store.disk, world.host, world.store.faults.boundary;
      var op: Operation;
      r, op := Open(id, target);
      if r.Err? {
        NothingPlanned(r.error);
        DeathIsTraced(id, target, Accepted(target, consented, around), world.store.faults.plan, b,
                      OpenBoundary(d), d, h, r, world.store.disk, world.host, chronicle.hist);
        return;
      }
      ghost var d', b' := world.store.disk, world.store.faults.boundary;
      assert Quiet(world.store.faults.plan, b, OpenBoundary(d) - 1) ==>
               b' == b + OpenBoundary(d) && Spared(world.store.faults.plan, b');
      r, outcome := Carry(engine, op, consented, around);
      KeepsTransitive(d, d', world.store.disk);
      LossIsTraced(id, target, Accepted(target, consented, around), world.store.faults.plan, b,
                   OpenBoundary(d), b', d, h, r, world.store.disk, world.host, chronicle.hist);
    }

    /** Replay a finished request, catch up with what an earlier worker left, and see that
        nothing is in the way of the new operation. */
    method Admit(engine: Engine, id: string, target: Version) returns (r: Status)
      requires Coherent(world.store.disk, world.host, world.seen, chronicle.hist) && engine.world == world
      modifies engine`seqNo, world`host, world`seen, world.store`disk, world.store.faults`boundary, chronicle
      ensures world.host.stopped ==> old(world.host).stopped
      ensures Coherent(world.store.disk, world.host, world.seen, chronicle.hist)
      ensures Keeps(old(world.store.disk), world.store.disk) && chronicle.hist.drives == old(chronicle.hist).drives
      ensures r.Ok? ==>
                && Settled(world.store.disk, world.host) && engine.seqNo == |world.store.disk.journal|
                && world.store.disk.operation != Unreadable && id !in world.store.disk.archives
      ensures r.Ok? && world.store.disk.operation.Observed? ==>
                world.store.disk.operation.operation.outcome.Some? && world.store.disk.operation.operation.id != id
      ensures r.Err? && r.error.Replay? ==> Replays(world.store.disk, id, target, r.error)
      ensures old(world.store.disk).operation == Unreadable ==>
                r.Err? && world.store.disk == old(world.store.disk) && world.host == old(world.host)
      ensures r.Err? ==> Encountered(r.error, world.store.faults.plan)
      ensures Terminal(old(world.store.disk)) ==>
                world.store.disk == old(world.store.disk) && world.host == old(world.host)
      ensures r.Ok? ==> StableNow(world.store.disk) == StableNow(Recovered(old(world.store.disk)))
      ensures world.store.faults.plan == map[] && New(old(world.store.disk), id) ==> r.Ok?
      ensures (world.host == old(world.host) && world.seen == old(world.seen))
              || Accounts(world.host, r, world.store.faults.plan, false, world.store.faults.boundary)
      ensures AtEase(old(world.store.disk)) && New(old(world.store.disk), id)
              && Quiet(world.store.faults.plan, old(world.store.faults.boundary), Effort(old(world.store.disk))) ==>
                r.Ok?
                && world.store.faults.boundary == old(world.store.faults.boundary) + Effort(old(world.store.disk))
                && world.store.disk == old(world.store.disk) && world.host == old(world.host)
    {
      if world.store.disk.operation == Unreadable {
        return Err(Invalid(ReceiptUnreadable));
      }
      PriorFacts(world.store.disk, world.host, chronicle.hist, id, target, false);
      :- Prior(world.store.disk, id, target, false);
      :- CatchUp(engine);
      r := InTheWay(world.store.disk, id);
    }

    /** Serve an upgrade under the lock. */
    method DriveLocked(id: string, target: Version, consented: bool, around: Surroundings)
      returns (r: Status, outcome: UpgradeOutcome)
      requires Coherent(world.store.disk, world.host, world.seen, chronicle.hist)
      modifies world`host, world`seen, world.store`disk, world.store.faults`boundary, chronicle
      ensures world.host.stopped ==> old(world.host).stopped
      ensures Coherent(world.store.disk, world.host, world.seen, chronicle.hist)
      ensures Keeps(old(world.store.disk), world.store.disk)
      ensures Driven(old(chronicle.hist), chronicle.hist, id, Accepted(target, consented, around))
      ensures r.Ok? && (outcome.UPromoted? || outcome.URolledBack?) ==> !world.host.stopped
      ensures r.Ok? ==> Finishes(world.store.disk, id, target, Reported(outcome))
      ensures r.Err? && r.error.Replay? ==> Replays(world.store.disk, id, target, r.error)
      ensures old(world.store.disk).operation == Unreadable ==>
                r.Err? && world.store.disk == old(world.store.disk) && world.host == old(world.host)
      ensures r.Err? ==> Encountered(r.error, world.store.faults.plan)
      ensures world.store.faults.plan == map[] && New(old(world.store.disk), id)
              && Accepted(target, consented, around) ==>
                if r.Ok? then Reported(outcome) == Fair(StableNow(Recovered(old(world.store.disk))), target,
                                                        predicates.refuse)
                else Clash(r.error, world.host, predicates)
      ensures (world.host == old(world.host) && world.seen == old(world.seen))
              || Accounts(world.host, r, world.store.faults.plan, chronicle.hist.drives != old(chronicle.hist).drives,
                       world.store.faults.boundary)
      ensures AtEase(old(world.store.disk)) && New(old(world.store.disk), id) ==>
                Traced(id, target, Accepted(target, consented, around), world.store.faults.plan,
                       old(world.store.faults.boundary), Opening(old(world.store.disk)), old(world.store.disk),
                       old(world.host),
                       r, world.store.disk, world.host, chronicle.hist)
    {
      outcome := UUpToDate;
      var engine := new Engine(world, predicates);
      ghost var d, h, b := world.store.disk, world.host, world.store.faults.boundary;
      r := Admit(engine, id, target);
      ghost var d', b' := world.store.disk, world.store.faults.boundary;
      assert AtEase(d) && New(d, id) && Quiet(world.store.faults.plan, b, Effort(d)) ==> r.Ok? && b' == b + Effort(d);
      if r.Err? {
        TracedLater(id, target, Accepted(target, consented, around), world.store.faults.plan, b, b', d, h,
                    r, world.store.disk, world.host, chronicle.hist);
        return;
      }
      r, outcome := Start(engine, id, target, consented, around);
      KeepsTransitive(d, d', world.store.disk);
      TracedLater(id, target, Accepted(target, consented, around), world.store.faults.plan, b, b', d, h,
                  r, world.store.disk, world.host, chronicle.hist);
    }

    method Upgrade(id: string, target: Version, consented: bool, around: Surroundings)
      returns (r: Status, outcome: UpgradeOutcome)
      requires Coherent(world.store.disk, world.host, world.seen, chronicle.hist)
      modifies world`host, world`seen, world.store`disk, world.store.faults`boundary, chronicle
      ensures world.host.stopped ==> old(world.host).stopped
      ensures Coherent(world.store.disk, world.host, world.seen, chronicle.hist)
      ensures Keeps(old(world.store.disk), world.store.disk)
      ensures Driven(old(chronicle.hist), chronicle.hist, id, Accepted(target, consented, around))
      ensures around.managedElsewhere || !around.lock.Granted? ==>
                world.store.disk == old(world.store.disk) && world.host == old(world.host)
      ensures !around.lock.Granted? && !around.managedElsewhere ==> r == Err(GateError(around.lock))
      ensures around.managedElsewhere ==> outcome.UHeld? && (r.Err? ==> Planned(r.error, world.store.faults.plan))
      ensures r.Ok? && (outcome.UPromoted? || outcome.URolledBack?) ==> !world.host.stopped
      ensures r.Ok? ==>
                (around.managedElsewhere && outcome.UHeld?) || Finishes(world.store.disk, id, target, Reported(outcome))
      ensures r.Err? && r.error.Replay? ==> Replays(world.store.disk, id, target, r.error)
      ensures old(world.store.disk).operation == Unreadable ==>
                world.store.disk == old(world.store.disk) && world.host == old(world.host)
      ensures r.Err? ==> Foreseen(r.error, around, world.store.faults.plan)
      ensures (&& world.store.faults.plan == map[] && New(old(world.store.disk), id)
               && Accepted(target, consented, around) && !around.managedElsewhere && around.lock.Granted?) ==>
                if r.Ok? then Reported(outcome) == Fair(StableNow(Recovered(old(world.store.disk))), target,
                                                        predicates.refuse)
                else Clash(r.error, world.host, predicates)
      ensures Decided(RUpgrade(id, target, consented), around, world.store.faults.plan,
                      old(world.store.faults.boundary), old(world.store.disk), old(world.host), old(chronicle.hist),
                      world.seen != old(world.seen), r, world.store.faults.boundary,
                      world.store.disk, world.host, chronicle.hist)
    {
      if around.managedElsewhere {
        outcome := UHeld("this install is managed by another manager");
        r := world.store.faults.Step();
      } else if !around.lock.Granted? {
        outcome := UHeld("");
        r := Err(GateError(around.lock));
      } else {
        r, outcome := DriveLocked(id, target, consented, around);
      }
    }

    /** One request to the worker. No response means the worker died on the way. */
    method Execute(request: Request, around: Surroundings) returns (answer: Option<Response>)
      requires Coherent(world.store.disk, world.host, world.seen, chronicle.hist)
      modifies world`host, world`seen, world.store`disk, world.store.faults`boundary, chronicle
      ensures world.host.stopped ==> old(world.host).stopped
      ensures Coherent(world.store.disk, world.host, world.seen, chronicle.hist)
      ensures Keeps(old(world.store.disk), world.store.disk)
      ensures DrivenFor(request, around, old(chronicle.hist), chronicle.hist)
      ensures answer.None? ==> Has(world.store.faults.plan, Kill)
      ensures answer.Some? ==> answer.value.error != Some(Crash)
      ensures answer.Some? ==> Faithful(request, around, world.store.faults.plan, answer.value, world.store.disk)
      ensures HandsOff(request, around) || old(world.store.disk).operation == Unreadable ==>
                world.store.disk == old(world.store.disk) && world.host == old(world.host)
      ensures Barren(request, around, old(world.store.disk)) ==>
                && world.store.disk == old(world.store.disk)
                && (answer.Some? ==> Fruitless(answer.value, Expected(request).value))
      ensures Unhindered(request, around, world.store.faults.plan, old(world.store.disk)) ==>
                answer.Some?
                && FairlyServed(request, answer.value.error, old(world.store.disk), world.store.disk, world.host,
                                predicates)
      ensures Decided(request, around, world.store.faults.plan, old(world.store.faults.boundary), old(world.store.disk),
                      old(world.host), old(chronicle.hist),
                      world.seen != old(world.seen), Ended(answer), world.store.faults.boundary,
                      world.store.disk, world.host, chronicle.hist)
    {
      var r: Status;
      var said: Word;
      r, said := Dispatch(request, around);
      if r == Err(Crash) {
        return None;
      }
      ReplayIsDecided(request, around, world.store.faults.plan, old(world.store.faults.boundary),
                      old(world.store.disk), old(world.host), old(chronicle.hist),
                      world.seen != old(world.seen), r, world.store.faults.boundary,
                      world.store.disk, world.host, chronicle.hist);
      var response := Answer(request, around, r, said);
      answer := Some(response);
    }

    /** Put how the request ended into a response, with the record as it is now. */
    method Answer(request: Request, around: Surroundings, r: Status, said: Word) returns (response: Response)
      requires Coherent(world.store.disk, world.host, world.seen, chronicle.hist)
      requires Grounded(request, around, world.store.faults.plan, r, said, world.store.disk)
      ensures Faithful(request, around, world.store.faults.plan, response, world.store.disk)
      ensures Ended(Some(response)) == if r.Err? && r.error.Replay? then Ok else r
      ensures Barren(request, around, world.store.disk) && (request.RRecover? ==> r.Err? && !r.error.Replay?) ==>
                Fruitless(response, Expected(request).value)
    {
      RespondIsFaithful(request, around, world.store.faults.plan, r, said, world.store.disk);
      if Barren(request, around, world.store.disk) && (request.RRecover? ==> r.Err? && !r.error.Replay?) {
        BarrenIsFruitless(request, around, world.store.faults.plan, r, said, world.store.disk, world.host,
                          chronicle.hist);
      }
      response := Respond(request, r, said, world.store.disk.operation);
    }

    /** The request itself, before it is put into a response. */
    method Dispatch(request: Request, around: Surroundings) returns (r: Status, said: Word)
      requires Coherent(world.store.disk, world.host, world.seen, chronicle.hist)
      modifies world`host, world`seen, world.store`disk, world.store.faults`boundary, chronicle
      ensures world.host.stopped ==> old(world.host).stopped
      ensures Coherent(world.store.disk, world.host, world.seen, chronicle.hist)
      ensures Keeps(old(world.store.disk), world.store.disk)
      ensures DrivenFor(request, around, old(chronicle.hist), chronicle.hist)
      ensures Grounded(request, around, world.store.faults.plan, r, said, world.store.disk)
      ensures HandsOff(request, around) || old(world.store.disk).operation == Unreadable ==>
                world.store.disk == old(world.store.disk) && world.host == old(world.host)
      ensures Barren(request, around, old(world.store.disk)) ==>
                world.store.disk == old(world.store.disk) && (request.RRecover? ==> r.Err? && !r.error.Replay?)
      ensures Unhindered(request, around, world.store.faults.plan, old(world.store.disk)) ==>
                FairlyServed(request, if r.Err? then Some(r.error) else None, old(world.store.disk), world.store.disk,
                             world.host, predicates)
      ensures Decided(request, around, world.store.faults.plan, old(world.store.faults.boundary), old(world.store.disk),
                      old(world.host), old(chronicle.hist),
                      world.seen != old(world.seen), r, world.store.faults.boundary,
                      world.store.disk, world.host, chronicle.hist)
    {
      match request {
        case RStatus =>
          return Ok, WSeen;
        case RRecover(expected) =>
          r := Recover(expected, around);
          said := WRecovered;
        case RUpgrade(id, target, consented) =>
          var outcome: UpgradeOutcome;
          r, outcome := Upgrade(id, target, consented, around);
          said := Said(Reported(outcome));
      }
    }
  }

  /** How a worker that stays alive reports a host call it left in flight at boundary `b`: as the
      engine learned of it, unless it was driving an operation whose record it then failed to write. */
  function ReportError(plan: map<nat, Fault>, b: nat, driving: bool): Error
    requires b in plan
  {
    if driving && plan[b] != Kill && WriteEnds(plan, b).Err? then WriteEnds(plan, b).error else LeftError(plan[b])
  }

  /** What remains of an error of the engine once the open record was to say so. */
  function Faltered(plan: map<nat, Fault>, b: nat, e: Error): Status {
    if e == Crash || WriteEnds(plan, b).Ok? then Err(e) else WriteEnds(plan, b)
  }

  lemma FalterAccounts(h: Host, e: Error, plan: map<nat, Fault>, b: nat)
    requires h.pending.Some? ==> b in plan && plan[b] != Refuse && e == LeftError(plan[b])
    ensures Accounts(h, Faltered(plan, b, e), plan, true, if e == Crash then b else WriteStops(plan, b))
    ensures h.pending.Some? ==> Faltered(plan, b, e) == Err(ReportError(plan, b, true))
  {
  }

  /** The boundary at which such a worker ends. */
  function LastBoundary(plan: map<nat, Fault>, b: nat, driving: bool): nat
    requires b in plan
  {
    if driving && plan[b] != Kill then WriteStops(plan, b) else b
  }

  /** A worker that ends at boundary `last` with error `e` left its call in flight at `b`. */
  predicate ReportedAt(e: Error, plan: map<nat, Fault>, b: nat, driving: bool, last: nat) {
    b in plan && plan[b] != Refuse && e == ReportError(plan, b, driving) && last == LastBoundary(plan, b, driving)
  }

  /** A call of this worker that is left in flight is what it failed of. */
  predicate Accounts(h: Host, r: Status, plan: map<nat, Fault>, driving: bool, last: nat) {
    h.pending.Some? ==> r.Err? && exists b :: b in plan && ReportedAt(r.error, plan, b, driving, last)
  }

  /** A call left in flight at boundary `b` is reported as uncertain, unless it ended in a definite
      error or the record of the operation it was made for could then not be written. */
  predicate Told(plan: map<nat, Fault>, b: nat, driving: bool) {
    b in plan && plan[b] == Hang && (driving ==> WriteEnds(plan, b).Ok?)
  }

  /** A live worker that ended at boundary `last` left a call in flight at `b`, and its error says
      so exactly when it was told so. */
  predicate InFlightSince(plan: map<nat, Fault>, b: nat, driving: bool, last: nat, uncertain: bool) {
    Loses(plan, b) && last == LastBoundary(plan, b, driving) && (uncertain <==> Told(plan, b, driving))
  }

  lemma InFlightIsTold(response: Response, h: Host, plan: map<nat, Fault>, driving: bool, last: nat)
    requires Accounts(h, Ended(Some(response)), plan, driving, last)
    requires h.pending.Some? && response.error != Some(Crash)
    ensures exists b :: b in plan && InFlightSince(plan, b, driving, last, response.error == Some(Uncertain))
  {
    var b :| b in plan && ReportedAt(response.error.value, plan, b, driving, last);
    assert InFlightSince(plan, b, driving, last, response.error == Some(Uncertain));
  }

  /** There is only one boundary it can have been. */
  lemma InFlightSinceOnce(plan: map<nat, Fault>, b: nat, c: nat, driving: bool, last: nat, uncertain: bool)
    requires InFlightSince(plan, b, driving, last, uncertain) && InFlightSince(plan, c, driving, last, uncertain)
    ensures b == c
  {
  }

  /** The current record keeps a new operation from being opened: it is the operation's own receipt,
      or somebody else's open operation. */
  function InTheWay(d: Disk, id: string): Status {
    match d.operation
    case Observed(op) =>
      if op.id == id && op.outcome.Some? then Err(Replay(op))
      else if op.id != id && op.outcome.None? then Err(Invalid(OperationInProgress))
      else Ok
    case _ => Ok
  }

  /** When the first fault falls at the `n`th boundary after `b` and loses a host call of a driven
      operation, the call is left in flight and reported so. */
  predicate Slips(plan: map<nat, Fault>, b: nat, n: nat, h: Host, r: Status) {
    n > 0 && Quiet(plan, b, n - 1) && Loses(plan, b + n) ==>
      h.pending.Some? && r == Err(ReportError(plan, b + n, true))
  }

  lemma SlipsLater(plan: map<nat, Fault>, b: nat, k: nat, b': nat, n: nat, h: Host, r: Status)
    requires n > 0 && Slips(plan, b', n, h, r) && (Quiet(plan, b, k) ==> b' == b + k)
    ensures Slips(plan, b, k + n, h, r)
  {
  }

  /** An upgrade that no other manager and no lock keeps out. */
  predicate Free(request: Request, around: Surroundings) {
    request.RUpgrade? && !around.managedElsewhere && around.lock.Granted?
  }

  /** Nothing is left to catch up with. */
  predicate AtEase(d: Disk) {
    d.operation == Genesis || Terminal(d)
  }

  /** How many boundaries catching up with nothing takes: the fence of a fresh installation. */
  function Effort(d: Disk): nat {
    if d.operation == Genesis then 2 else 0
  }

  /** How many boundaries opening an operation takes, its predecessor archived first if need be. */
  function OpenBoundary(d: Disk): nat {
    if d.operation.Observed? && d.operation.operation.id !in d.archives then 4 else 2
  }

  /** The boundary right after the record of a new operation. */
  function Opening(d: Disk): nat {
    Effort(d) + OpenBoundary(d)
  }

  /** The first fault falls at the `n`th boundary after `b`, and the worker dies of it. */
  predicate DiesAt(plan: map<nat, Fault>, b: nat, n: nat) {
    n > 0 && Quiet(plan, b, n - 1) && !Spared(plan, b + n) && plan[b + n] == Kill
  }

  ghost predicate Opened(d: Disk, h: Host, hist: History, id: string, target: Version, d0: Disk) {
    && d.operation.Observed? && IsOpen(d, h, hist, d.operation.operation) && d.journal == d0.journal
    && d.operation.operation.id == id && d.operation.operation.targetVersion == target
    && d.operation.operation.fromVersion == StableNow(d0)
  }

  /** An upgrade that opens its operation at the `n`th boundary after `b`: dying right there it leaves
      the operation open, and losing its first host call, 33 boundaries later, it reports that. */
  ghost predicate Traced(id: string, target: Version, accepted: bool, plan: map<nat, Fault>, b: nat, n: nat, d: Disk,
                         h: Host,
                         r: Status, d': Disk, h': Host, hist': History) {
    && (accepted && Hands(d, target, h) ==> Slips(plan, b, n + 33, h', r))
    && (DiesAt(plan, b, n) ==> r == Err(Crash) && Opened(d', h', hist', id, target, d))
  }

  lemma DeathIsTraced(id: string, target: Version, accepted: bool, plan: map<nat, Fault>, b: nat, n: nat, d: Disk,
                      h: Host, r: Status, d': Disk, h': Host, hist': History)
    requires n > 0
    requires Quiet(plan, b, n - 1) ==>
               !Spared(plan, b + n) && r == StepEnds(plan, b + n) && Opened(d', h', hist', id, target, d)
    ensures Traced(id, target, accepted, plan, b, n, d, h, r, d', h', hist')
  {
  }

  lemma LossIsTraced(id: string, target: Version, accepted: bool, plan: map<nat, Fault>, b: nat, n: nat, b': nat,
                     d: Disk, h: Host, r: Status, d': Disk, h': Host, hist': History)
    requires n > 0
    requires Quiet(plan, b, n - 1) ==> b' == b + n && Spared(plan, b')
    requires accepted && Hands(d, target, h) ==> Slips(plan, b', 33, h', r)
    ensures Traced(id, target, accepted, plan, b, n, d, h, r, d', h', hist')
  {
  }

  /** The same from before the worker has caught up. */
  lemma TracedLater(id: string, target: Version, accepted: bool, plan: map<nat, Fault>, b: nat, b': nat, d: Disk,
                    h: Host, r: Status, d': Disk, h': Host, hist': History)
    requires AtEase(d) && New(d, id) && Quiet(plan, b, Effort(d)) ==>
               b' == b + Effort(d) && Traced(id, target, accepted, plan, b', OpenBoundary(d), d, h, r, d', h', hist')
    ensures AtEase(d) && New(d, id) ==>
              Traced(id, target, accepted, plan, b, Opening(d), d, h, r, d', h', hist')
  {
  }

  /** A recovery of the open operation that nothing hinders. */
  predicate Mends(request: Request, around: Surroundings, plan: map<nat, Fault>, d: Disk) {
    && request.RRecover? && plan == map[] && around.lock.Granted? && Unfinished(d)
    && (request.expected.Some? ==>
          request.expected.value == (d.operation.operation.id, d.operation.operation.targetVersion))
  }

  /** The open operation was recovered and closed as the recovered journal says. */
  predicate Mended(d: Disk, d': Disk) {
    Unfinished(d) && d'.journal == Recovered(d).journal && SameOperation(d, d') && ClosedAs(d, d')
  }

  /** What the fault plan decides of a request that begins after boundary `b`: how a call left in
      flight is reported, unless the worker found it and asked for nothing itself; and the runs in
      which one fault falls at a known boundary, or none does. */
  ghost predicate Decided(request: Request, around: Surroundings, plan: map<nat, Fault>, b: nat, d: Disk, h: Host,
                          hist: History, asked: bool, r: Status, last: nat, d': Disk, h': Host, hist': History) {
    && ((h' == h && !asked) || Accounts(h', r, plan, hist'.drives != hist.drives, last))
    && (Free(request, around) && AtEase(d) && New(d, request.id) ==>
          Traced(request.id, request.target, Accepted(request.target, request.consented, around), plan, b, Opening(d),
                 d, h, r, d', h', hist'))
    && (Mends(request, around, plan, d) ==> r.Ok? && Mended(d, d'))
  }

  /** A replayed receipt, which is no error in a response, is none of these cases. */
  lemma ReplayIsDecided(request: Request, around: Surroundings, plan: map<nat, Fault>, b: nat, d: Disk, h: Host,
                        hist: History, asked: bool, r: Status, last: nat, d': Disk, h': Host, hist': History)
    requires Decided(request, around, plan, b, d, h, hist, asked, r, last, d', h', hist')
    ensures Decided(request, around, plan, b, d, h, hist, asked, if r.Err? && r.error.Replay? then Ok else r,
                    last, d', h', hist')
  {
  }

  /** How a request ended, by its response; without one the worker died. */
  function Ended(answer: Option<Response>): Status {
    match answer
    case None => Err(Crash)
    case Some(response) => if response.error.Some? then Err(response.error.value) else Ok
  }

  /** Requests that touch neither records nor host. */
  predicate HandsOff(request: Request, around: Surroundings) {
    !TakesLock(request, around) || !around.lock.Granted?
  }

  function Said(outcome: Outcome): Word {
    match outcome
    case OPromoted => WPromoted
    case ORolledBack => WRolledBack
    case OHeld => WHeld
    case OUpToDate => WUpToDate
    case OFailed => WFailed
  }

  /** The response to a request that ended with `r`, with the receipt file as read afterwards. */
  function Respond(request: Request, r: Status, said: Word, read: OperationRead): Response {
    var operation := if r.Err? && r.error.Replay? then Observed(r.error.operation) else read;
    var active := operation.Observed? && operation.operation.outcome.None?;
    var unresolved := active || r == Err(Uncertain) || operation == Unreadable;
    var (code, said, error) :=
      match r
      case Ok => (if said == WRolledBack then 1 else if said == WHeld then 2 else 0, said, None)
      case Err(Replay(_)) => (operation.ExitCode(), WReplayed, None)
      case Err(Locked) => (2, WBusy, Some(Locked))
      case Err(e) => (if unresolved then 3 else 1, if unresolved then WRecoveryRequired else WFailed, Some(e));
    if request.RUpgrade? && code == 0
       && !(operation.Observed? && operation.operation.id == request.id
            && operation.operation.targetVersion == request.target)
    then Response(ActionOf(request), 1, WFailed, operation, Some(Invalid(RunnerReceiptMismatch)))
    else
      var code := if !request.RStatus? && code == 0 then operation.ExitCode() else code;
      var code := if operation == Unreadable && code != 2 then (if request.RStatus? then 1 else 3) else code;
      Response(ActionOf(request), code, said, operation, error)
  }

  /** What a recovery answers from the records alone: an unreadable receipt, an operation it
      does not know or knows with another target, or one that has already ended. */
  predicate Declined(d: Disk, expected: Option<(string, Version)>, r: Status) {
    || d.operation == Unreadable
    || (expected.Some? && r.Err? && r == Prior(d, expected.value.0, expected.value.1, true))
  }

  /** A request goes on only when no receipt of it is in the way, and a recovery only when its
      operation is open; otherwise the receipt itself is the answer, or the request is refused. */
  lemma PriorFacts(d: Disk, h: Host, hist: History, id: string, target: Version, recover: bool)
    requires Agree(d, h, hist)
    ensures Prior(d, id, target, recover) == Ok ==> id !in d.archives
    ensures Prior(d, id, target, recover) == Ok && d.operation.Observed?
            && (recover || d.operation.operation.id == id) ==>
              SameRequest(d.operation.operation, id, target)
    ensures Prior(d, id, target, recover) == Ok && recover ==> d.operation.Observed?
    ensures Prior(d, id, target, recover).Err? ==>
              var e := Prior(d, id, target, recover).error;
              if e.Replay? then Replays(d, id, target, e)
              else
                e.Invalid?
                && (e.refusal == ReceiptUnreadable || e.refusal == OperationIdConflict
                    || e.refusal == RecoveryOperationNotFound)
  {
  }

  predicate SameRequest(op: Operation, id: string, target: Version) {
    op.id == id && op.targetVersion == target && op.outcome.None?
  }

  /** Recovery cannot end this operation: its receipt is unreadable, unknown, or of another target. */
  predicate Unserved(d: Disk, expected: (string, Version)) {
    var prior := Prior(d, expected.0, expected.1, true);
    prior.Err? && !prior.error.Replay?
  }

  /** Nothing this request asks for can come of it: its recovery is not served, and neither is
      an upgrade while another manager owns the installation. */
  predicate Barren(request: Request, around: Surroundings, d: Disk) {
    && Expected(request).Some? && Unserved(d, Expected(request).value)
    && (request.RUpgrade? ==> around.managedElsewhere)
  }

  /** The response neither closes the operation nor says that somebody else is at work. */
  predicate Fruitless(response: Response, expected: (string, Version)) {
    if response.error.Some? then !(response.action == UpgradeAction && response.result == WBusy)
    else !Closes(response, expected)
  }

  /** The record of an operation, archived or current. */
  function OnRecord(d: Disk, id: string): Option<Operation> {
    if id in d.archives then Some(d.archives[id])
    else if d.operation.Observed? && d.operation.operation.id == id then Some(d.operation.operation)
    else None
  }

  /** Exactly when a recovery is not served: the record is unreadable, or it holds no operation
      of that id and target. */
  lemma UnservedExactly(d: Disk, h: Host, hist: History, expected: (string, Version))
    requires Agree(d, h, hist)
    ensures Unserved(d, expected) <==>
              || d.operation == Unreadable
              || OnRecord(d, expected.0).None?
              || OnRecord(d, expected.0).value.targetVersion != expected.1
  {
  }

  /** Exactly when a hold by another manager closes the request: the operation was held before. */
  lemma ManagedHoldCloses(request: Request, d: Disk)
    requires request.RUpgrade?
    ensures var response := Respond(request, Ok, WHeld, d.operation);
            response.error.None?
            && (Closes(response, Expected(request).value) <==> Finishes(d, request.id, request.target, OHeld))
  {
  }

  lemma BarrenIsFruitless(request: Request, around: Surroundings, plan: map<nat, Fault>, r: Status, said: Word, d: Disk,
                          h: Host, hist: History)
    requires Barren(request, around, d) && Agree(d, h, hist) && Grounded(request, around, plan, r, said, d)
    requires request.RRecover? ==> r.Err? && !r.error.Replay?
    ensures Fruitless(Respond(request, r, said, d.operation), Expected(request).value)
  {
    UnservedExactly(d, h, hist, Expected(request).value);
    if request.RUpgrade? {
      ManagedHoldCloses(request, d);
    }
  }

  /** How the worker's methods leave the records when they return, and which errors they met. */
  predicate Grounded(request: Request, around: Surroundings, plan: map<nat, Fault>, r: Status, said: Word, d: Disk) {
    && (r.Err? ==> Foreseen(r.error, around, plan))
    && (TakesLock(request, around) && !around.lock.Granted? ==> r == Err(GateError(around.lock)))
    && (!TakesLock(request, around) && r.Err? ==> Encountered(r.error, plan))
    && said != WBusy
    && match request
       case RStatus => r.Ok?
       case RRecover(None) => !(r.Err? && r.error.Replay?)
       case RRecover(Some((id, target))) =>
         && said == WRecovered
         && (r.Ok? ==> Ends(d, id, target))
         && (r.Err? && r.error.Replay? ==> Replays(d, id, target, r.error))
         && (r.Err? && !r.error.Replay? ==>
               Planned(r.error, plan) || !around.lock.Granted? || Unserved(d, (id, target)))
       case RUpgrade(id, target, _) =>
         if around.managedElsewhere then said == WHeld && (r.Err? ==> Planned(r.error, plan))
         else
           && (r.Ok? ==> Ends(d, id, target) && said == Said(d.operation.operation.outcome.value))
           && (r.Err? && r.error.Replay? ==> Replays(d, id, target, r.error))
  }

  /** An error response says by its result and exit code whether work may remain: 2 when the lock was held,
      3 when an operation is open, a call may still land, or the record is unreadable, else 1. */
  predicate TellsWhatRemains(response: Response, d: Disk)
    requires response.error.Some?
  {
    if response.error.value.Locked? then response.exitCode == 2 && response.result == WBusy
    else if Unfinished(d) || response.error.value == Uncertain || d.operation == Unreadable then
      response.exitCode == 3 && response.result == WRecoveryRequired
    else response.exitCode == 1 && response.result == WFailed
  }

  /** What a response is worth: success only with the receipt to show for it, a receipt that
      closes the request unless an error is named, the hold itself under another manager, and
      no error that was not met. */
  predicate Faithful(request: Request, around: Surroundings, plan: map<nat, Fault>, response: Response, d: Disk) {
    (
    && response.action == ActionOf(request)
    && Honest(request, response, d)
    && (response.error.Some? ==> Foreseen(response.error.value, around, plan) && TellsWhatRemains(response, d))
    && (TakesLock(request, around) && !around.lock.Granted? ==> response.error == Some(GateError(around.lock)))
    && (response.result == WBusy <==> TakesLock(request, around) && around.lock.Taken?)
    && (response.error.None? && Expected(request).Some? ==>
          if around.managedElsewhere && request.RUpgrade? then response == Respond(request, Ok, WHeld, d.operation)
          else Closes(response, Expected(request).value))
    && (response.error.Some? && request.RRecover? && request.expected.Some? ==>
          Planned(response.error.value, plan) || !around.lock.Granted? || Unserved(d, request.expected.value))
    ) == true
  }

  /** Put into a response, what the worker's methods left and met is told faithfully; in
      particular the receipt mismatch it guards against does not occur. */
  lemma RespondIsFaithful(request: Request, around: Surroundings, plan: map<nat, Fault>, r: Status, said: Word, d: Disk)
    requires Grounded(request, around, plan, r, said, d)
    ensures var response := Respond(request, r, said, d.operation);
            && Faithful(request, around, plan, response, d)
            && (response.error.Some? ==> r == Err(response.error.value) && !r.error.Replay?)
            && (r.Err? && !r.error.Replay? ==> response.error == Some(r.error))
  {
  }

  /** The response carries a terminal receipt of the expected operation, with its exit code. */
  predicate Closes(response: Response, expected: (string, Version)) {
    && response.operation.Observed?
    && response.operation.operation.id == expected.0
    && response.operation.operation.targetVersion == expected.1
    && response.operation.operation.outcome.Some?
    && response.operation.operation.outcome.value.ExitCode() == response.exitCode
  }

  /** What a response says in one word. */
  datatype Word =
    | WSeen | WRecovered | WPromoted | WRolledBack | WHeld | WUpToDate
    | WReplayed | WBusy | WRecoveryRequired | WFailed

  datatype Response = Response(action: Action, exitCode: nat, result: Word, operation: OperationRead,
                               error: Option<Error>)

  datatype Action = UpgradeAction | RecoverAction | StatusAction

  function ActionOf(request: Request): Action {
    match request
    case RUpgrade(_, _, _) => UpgradeAction
    case RRecover(_) => RecoverAction
    case RStatus => StatusAction
  }

  function Expected(request: Request): Option<(string, Version)> {
    match request
    case RUpgrade(id, target, _) => Some((id, target))
    case RRecover(expected) => expected
    case RStatus => None
  }

  /** A response never claims more than the records do: success for an identified request is a
      terminal receipt of that operation, on disk, with a successful outcome. */
  predicate Honest(request: Request, response: Response, d: Disk) {
    var expected := Expected(request);
    response.exitCode == 0 && expected.Some? ==>
      && response.operation.Observed?
      && response.operation.operation.id == expected.value.0
      && response.operation.operation.targetVersion == expected.value.1
      && response.operation.operation.outcome.Some?
      && response.operation.operation.outcome.value.ExitCode() == 0
      && Receipt(d, expected.value.0) == Some(response.operation.operation)
  }

  /** The records can be read and do not know this operation. */
  predicate New(d: Disk, id: string) {
    d.operation != Unreadable && !Known(d, id)
  }

  /** A new upgrade that is accepted, finds the lock free, and meets no fault. */
  predicate Unhindered(request: Request, around: Surroundings, plan: map<nat, Fault>, d: Disk) {
    && request.RUpgrade? && plan == map[] && New(d, request.id)
    && Accepted(request.target, request.consented, around) && !around.managedElsewhere && around.lock.Granted?
  }

  /** How an upgrade that nothing hinders ends. */
  function Fair(from: Version, target: Version, refuse: bool): Outcome {
    if from == target then OUpToDate else if refuse then ORolledBack else OPromoted
  }

  /** It ends with the fair outcome on record, or with the one error left when nothing goes wrong. */
  predicate FairlyServed(request: Request, error: Option<Error>, d: Disk, d': Disk, h': Host, predicates: Predicates)
    requires request.RUpgrade?
  {
    if error.Some? then Clash(error.value, h', predicates)
    else Finishes(d', request.id, request.target, Fair(StableNow(Recovered(d)), request.target, predicates.refuse))
  }

  /** The one error left when nothing goes wrong: the candidate runs under the verifier's own pid. */
  predicate Clash(e: Error, h: Host, predicates: Predicates) {
    e == Invalid(HostEvidenceInvalid) && predicates.verifierPid == h.incarnation
  }

  /** At most this operation was handed to the engine, and only if that was allowed. */
  ghost predicate Driven(hist: History, hist': History, id: string, allowed: bool) {
    hist'.drives == hist.drives || (allowed && hist'.drives == hist.drives + [id])
  }

  /** Only an accepted upgrade reaches the engine. */
  ghost predicate DrivenFor(request: Request, around: Surroundings, hist: History, hist': History) {
    if request.RUpgrade? then Driven(hist, hist', request.id, Accepted(request.target, request.consented, around))
    else SameBegun(hist, hist')
  }

  /** The release is the one asked for, somebody or the policy consented, and it is compatible. */
  predicate Accepted(target: Version, consented: bool, around: Surroundings) {
    around.fetched == Release(target) && (consented || around.policy == Auto) && around.incompatible.None?
  }

  function Announced(outcome: EngineOutcome): UpgradeOutcome {
    match outcome
    case EPromoted(_) => UPromoted
    case ERolledBack(reason) => URolledBack(reason)
    case EUpToDate => UUpToDate
  }

  /** The current receipt is this operation's, and terminal. */
  predicate Ends(d: Disk, id: string, target: Version) {
    d.operation.Observed? && d.operation.operation.id == id
    && d.operation.operation.targetVersion == target && d.operation.operation.outcome.Some?
  }

  /** The current receipt closes this request with this outcome. */
  predicate Finishes(d: Disk, id: string, target: Version, outcome: Outcome) {
    d.operation.Observed? && d.operation.operation.id == id
    && d.operation.operation.targetVersion == target && d.operation.operation.outcome == Some(outcome)
  }

  function Reported(outcome: UpgradeOutcome): Outcome {
    match outcome
    case UPromoted => OPromoted
    case URolledBack(_) => ORolledBack
    case UHeld(_) => OHeld
    case UUpToDate => OUpToDate
  }

  function Verdict(outcome: EngineOutcome): Outcome {
    match outcome
    case EPromoted(_) => OPromoted
    case ERolledBack(_) => ORolledBack
    case EUpToDate => OUpToDate
  }

  lemma AnnouncedVerdict(outcome: EngineOutcome)
    ensures Reported(Announced(outcome)) == Verdict(outcome)
  {
  }

  /** The ways an opened operation may fail before it is closed. */
  predicate Refused(e: Error, plan: map<nat, Fault>) {
    || Planned(e, plan)
    || (e.Invalid? && (e.refusal == PinnedVersionMismatch || e.refusal == FetchFailed
                       || e.refusal == CandidatePreparationFailed || e.refusal == HostEvidenceInvalid))
  }

  predicate Closed(d: Disk, op: Operation, outcome: Outcome) {
    Finishes(d, op.id, op.targetVersion, outcome)
  }

  predicate Terminal(d: Disk) {
    d.operation.Observed? && d.operation.operation.outcome.Some?
  }

  /** The open operation of `d` was closed as the recovered journal says. */
  predicate ClosedAs(d: Disk, d': Disk)
    requires Unfinished(d)
  {
    d'.operation.Observed?
    && d'.operation.operation.outcome == Some(SettlesAs(Recovered(d), d.operation.operation.targetVersion))
  }

  predicate StillOpen(d: Disk, op: Operation) {
    Unfinished(d) && d.operation.operation.id == op.id && d.operation.operation.targetVersion == op.targetVersion
  }

  predicate Unfinished(d: Disk) {
    d.operation.Observed? && d.operation.operation.outcome.None?
  }

  /** Nothing was opened or driven meanwhile. */
  ghost predicate SameBegun(hist: History, hist': History) {
    hist'.begun == hist.begun && hist'.drives == hist.drives
  }

  /** The operation is open on the installation it was opened on, and has not been driven. */
  ghost predicate IsOpen(d: Disk, h: Host, hist: History, op: Operation) {
    && d.operation == Observed(op) && op.outcome.None?
    && op.id in hist.begun && hist.begun[op.id] == |d.journal| && op.id !in hist.drives
    && Settled(d, h) && d.slots.stable == Complete(op.fromVersion)
  }

  predicate SameOperation(d: Disk, d': Disk) {
    match d.operation
    case Observed(op) =>
      d'.operation.Observed? && d'.operation.operation.id == op.id
      && d'.operation.operation.targetVersion == op.targetVersion
         && d'.operation.operation.fromVersion == op.fromVersion
    case _ => d'.operation == d.operation
  }

  /** The error carries the receipt this request asks for, as it is on disk. */
  predicate Replays(d: Disk, id: string, target: Version, e: Error) {
    e.Replay? && Receipt(d, id) == Some(e.operation) && e.operation.outcome.Some? && e.operation.id == id
    && e.operation.targetVersion == target
  }
}
