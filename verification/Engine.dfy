/** The transaction itself: write-ahead intents, effects issued under them, and a recovery
    that replays the last durable intent. */
module Engine {
  import opened State
  import opened Journals
  import opened Storage
  import opened Invariants
  import opened Worlds
  import opened Protocol

  datatype EngineOutcome = EPromoted(version: Version) | ERolledBack(reason: string) | EUpToDate

  /** The readback decision: the probed version must be the target, and nothing else may refuse. */
  datatype Predicates = Predicates(refuse: bool, verifierPid: nat)

  /** Recovery from here starts the stable service, even one that was stopped from outside. */
  predicate Restarts(last: Phase) {
    last == HandingOver || last == RunningExperiment || last == Readback || last == RolledBack
  }

  /** A finished upgrade: nothing is under way, and the journal says how it ended. */
  predicate Concluded(d0: Disk, d: Disk, h: Host, version: Version, outcome: EngineOutcome) {
    && Settled(d, h)
    && match outcome
       case EUpToDate => d == d0 && d.slots.stable == Complete(version)
       case EPromoted(v) => v == version && |d.journal| > |d0.journal| && LastIntent(d.journal) == Promoted
       case ERolledBack(_) => |d.journal| > |d0.journal| && LastIntent(d.journal) == RolledBack
  }

  /** An upgrade to `version` from here stages, hands over, and asks the running service to quiesce. */
  predicate Hands(d: Disk, version: Version, h: Host) {
    d.slots.staging == Absent && d.slots.stable != Complete(version) && h.live != []
  }

  class Engine {
    const world: World
    const predicates: Predicates
    var seqNo: nat

    constructor (world: World, predicates: Predicates)
      ensures this.world == world && this.predicates == predicates && seqNo == 0
    {
      this.world := world;
      this.predicates := predicates;
      seqNo := 0;
    }

    /** Append the next intent. It can fail with the entry durable, and then the engine stops. */
    method Journal(intent: Phase, version: Option<Version>, priorStartId: Option<nat>, reason: string)
      returns (r: Status)
      requires Sound(world.store.disk, world.host, world.seen) && seqNo == |world.store.disk.journal|
      requires Legal(Origin(Intents(world.store.disk.journal)), intent)
      requires Shape(Appended(world.store.disk, JournalEntry(seqNo, intent, version, priorStartId, reason)), world.host)
      requires Attested(world.store.disk.journal + [JournalEntry(seqNo, intent, version, priorStartId, reason)],
                        world.seen.sights)
      modifies this`seqNo, world.store`disk, world.store.faults`boundary
      ensures Sound(world.store.disk, world.host, world.seen)
      ensures r.Ok? ==>
                && world.store.disk == Appended(old(world.store.disk),
                                                JournalEntry(old(seqNo), intent, version, priorStartId, reason))
                && seqNo == |world.store.disk.journal|
      ensures r.Err? ==>
                || world.store.disk == old(world.store.disk)
                || world.store.disk == Appended(old(world.store.disk),
                                                JournalEntry(old(seqNo), intent, version, priorStartId, reason))
      ensures r.Err? ==> Planned(r.error, world.store.faults.plan)
      ensures Quiet(world.store.faults.plan, old(world.store.faults.boundary), 4) ==>
                r.Ok? && world.store.faults.boundary == old(world.store.faults.boundary) + 4
    {
      var entry := JournalEntry(seqNo, intent, version, priorStartId, reason);
      IntentIsSafe(world.store.disk, world.host, entry);
      ConsistentIsClean(world.store.disk, world.host);
      ConsistentIsClean(Appended(world.store.disk, entry), world.host);
      OriginIsLast(world.store.disk.journal);
      :- world.Append(entry);
      seqNo := seqNo + 1;
      return Ok;
    }

    /** A host call under its budget; every way it can end keeps the invariant. */
    method Bounded(e: HostEffect) returns (r: Status)
      requires Sound(world.store.disk, world.host, world.seen) && Due(e, world.store.disk, world.host)
      modifies world`host, world`seen, world.store.faults`boundary
      ensures world.host.stopped ==> old(world.host).stopped
      ensures Sound(world.store.disk, world.host, world.seen)
      ensures r.Ok? ==> world.host == Land(e, old(world.host), View(world.store.disk.slots))
      ensures world.seen.sights == old(world.seen).sights
      ensures r.Err? ==> Planned(r.error, world.store.faults.plan)
      ensures Leaves(world.host, r, world.store.faults)
      ensures Strands(old(world.store.faults.boundary), 2, world.host, world.store.faults)
    {
      DueCallIsSafe(e, world.store.disk, world.host);
      DemandIsSound(world.store.disk, world.host, world.seen, Action.Call(e));
      ConsistentIsClean(world.store.disk, world.host);
      ConsistentIsClean(world.store.disk, Land(e, world.host, View(world.store.disk.slots)));
      r := world.Call(e);
    }

    method Fence() returns (r: Status)
      requires Sound(world.store.disk, world.host, world.seen)
      modifies world`host, world.store.faults`boundary
      ensures world.host.stopped ==> old(world.host).stopped
      ensures Sound(world.store.disk, world.host, world.seen)
      ensures r.Ok? ==> world.host.pending.None?
      ensures r.Err? ==> world.host == old(world.host) || world.host.pending.None?
      ensures r.Err? ==> Planned(r.error, world.store.faults.plan)
      ensures Quiet(world.store.faults.plan, old(world.store.faults.boundary), 2) ==>
                r.Ok? && world.store.faults.boundary == old(world.store.faults.boundary) + 2
      ensures old(world.host).pending.None? && r.Ok? ==> world.host == old(world.host)
    {
      ghost var d, h := world.store.disk, world.host;
      forall h' | Drained(h, View(d.slots), h') ensures Consistent(d, h') && h'.pending.None? {
        LandingIsSafe(d, h, h');
      }
      r := world.Fence();
    }

    /** Stop the candidate, start stable, resume, drop the experiment: every step of it can be repeated. */
    method Restore() returns (r: Status)
      requires Sound(world.store.disk, world.host, world.seen) && world.host.pending.None?
               && LastIntent(world.store.disk.journal) == RolledBack
      modifies world`host, world`seen, world.store`disk, world.store.faults`boundary
      ensures world.host.stopped ==> old(world.host).stopped
      ensures Sound(world.store.disk, world.host, world.seen)
      ensures world.store.disk == old(world.store.disk).(
                slots := old(world.store.disk).slots.(experiment := world.store.disk.slots.experiment))
      ensures r.Ok? ==> Settled(world.store.disk, world.host) && !world.host.stopped
      ensures r.Err? ==> Planned(r.error, world.store.faults.plan)
      ensures Leaves(world.host, r, world.store.faults)
    {
      r := Ok;
      :- Bounded(Stop(Experiment));
      :- Bounded(Start(Stable));
      :- Bounded(Resume);
      r := Drop();
    }

    method Drop() returns (r: Status)
      requires Sound(world.store.disk, world.host, world.seen) && world.host.pending.None?
               && LastIntent(world.store.disk.journal) == RolledBack
      requires Rests(world.host, Stable, world.store.disk.slots.stable) && !world.host.parked
      modifies world`host, world`seen, world.store`disk, world.store.faults`boundary
      ensures world.host.stopped ==> old(world.host).stopped
      ensures Sound(world.store.disk, world.host, world.seen)
      ensures world.store.disk == old(world.store.disk).(
                slots := old(world.store.disk).slots.(experiment := world.store.disk.slots.experiment))
      ensures r.Ok? ==> Settled(world.store.disk, world.host)
      ensures r.Err? ==> Planned(r.error, world.store.faults.plan)
      ensures world.host.pending.None?
    {
      ghost var d, h := world.store.disk, world.host;
      DemandIsSound(d, h, world.seen, ClearSlot);
      r := world.Clear();
      DropIsSafe(d, h, world.store.disk, world.host);
    }

    /** The slot renames of a durable promotion, begun or repeated. */
    method Commit() returns (r: Status)
      requires Sound(world.store.disk, world.host, world.seen) && world.host.pending.None?
               && LastIntent(world.store.disk.journal) == Promoted
      modifies world`host, world`seen, world.store`disk, world.store.faults`boundary
      ensures world.host.stopped ==> old(world.host).stopped
      ensures Sound(world.store.disk, world.host, world.seen) && world.host.pending.None?
      ensures world.store.disk == old(world.store.disk).(slots := world.store.disk.slots)
      ensures world.store.disk.slots.staging == old(world.store.disk).slots.staging
      ensures RecoveredStable(world.store.disk) == old(RecoveredStable(world.store.disk))
      ensures r.Ok? ==>
                && world.store.disk.slots.experiment == world.store.disk.slots.backup == Absent
                && Rests(world.host, Stable, world.store.disk.slots.stable)
      ensures r.Err? ==> Planned(r.error, world.store.faults.plan)
    {
      ghost var d, h := world.store.disk, world.host;
      DemandIsSound(d, h, world.seen, PromoteSlots);
      r := world.Promote();
      CommitIsSafe(d, h, world.store.disk, world.host);
    }

    /** Replay the commit: the slot renames, then resume. */
    method Finish() returns (r: Status)
      requires Sound(world.store.disk, world.host, world.seen) && world.host.pending.None?
               && LastIntent(world.store.disk.journal) == Promoted
      modifies world`host, world`seen, world.store`disk, world.store.faults`boundary
      ensures world.host.stopped ==> old(world.host).stopped
      ensures Sound(world.store.disk, world.host, world.seen)
      ensures world.store.disk == old(world.store.disk).(slots := world.store.disk.slots)
      ensures world.store.disk.slots.staging == old(world.store.disk).slots.staging
      ensures RecoveredStable(world.store.disk) == old(RecoveredStable(world.store.disk))
      ensures r.Ok? ==> Settled(world.store.disk, world.host)
      ensures r.Err? ==> Planned(r.error, world.store.faults.plan)
      ensures Leaves(world.host, r, world.store.faults)
    {
      r := Ok;
      :- Commit();
      r := Bounded(Resume);
    }

    method Rollback(reason: string, skipRestart: bool) returns (r: Status)
      requires Sound(world.store.disk, world.host, world.seen) && seqNo == |world.store.disk.journal|
               && world.host.pending.None?
      requires InFlight(LastIntent(world.store.disk.journal))
      requires skipRestart <==> LastIntent(world.store.disk.journal) == Staged
      modifies this`seqNo, world`host, world`seen, world.store`disk, world.store.faults`boundary
      ensures world.host.stopped ==> old(world.host).stopped
      ensures Sound(world.store.disk, world.host, world.seen)
      ensures world.store.disk == old(world.store.disk).(
                slots := old(world.store.disk).slots.(experiment := world.store.disk.slots.experiment),
                journal := world.store.disk.journal)
      ensures world.store.disk.journal == old(world.store.disk).journal ==> world.store.disk == old(world.store.disk)
      ensures r.Ok? ==> Settled(world.store.disk, world.host) && seqNo == |world.store.disk.journal|
      ensures r.Ok? && !skipRestart ==> !world.host.stopped
      ensures r.Ok? || world.store.disk.journal != old(world.store.disk).journal ==>
                world.store.disk.journal ==
                  old(world.store.disk).journal + [RollbackEntry(|old(world.store.disk).journal|, reason)]
      ensures r.Err? ==> Planned(r.error, world.store.faults.plan)
      ensures Leaves(world.host, r, world.store.faults)
    {
      RollbackIsSafe(world.store.disk, world.host, reason);
      AttestedSnoc(world.store.disk.journal, world.seen.sights, RollbackEntry(seqNo, reason));
      :- Journal(RolledBack, None, None, reason);
      if skipRestart {
        r := Drop();
      } else {
        r := Restore();
      }
    }

    /** Continue the sequence after a durably settled operation. */
    method ObserveSettled() returns (r: Status)
      modifies this`seqNo
      ensures r.Ok? <==> LastIntent(world.store.disk.journal).AtRest()
      ensures r.Ok? ==> seqNo == NextSeq(world.store.disk.journal)
      ensures r.Err? ==> r.error == Invalid(SettledOperationHasUnfinishedJournal)
    {
      if world.store.disk.journal != [] && !LastIntent(world.store.disk.journal).AtRest() {
        return Err(Invalid(SettledOperationHasUnfinishedJournal));
      }
      seqNo := NextSeq(world.store.disk.journal);
      return Ok;
    }

    /** Drain earlier host calls, then replay the last durable intent. Finished, it leaves
        exactly `Recovered` of what it found; interrupted, it leaves something that
        recovers to the same state. */
    method Recover() returns (r: Status)
      requires Sound(world.store.disk, world.host, world.seen)
      modifies this`seqNo, world`host, world`seen, world.store`disk, world.store.faults`boundary
      ensures world.host.stopped ==> old(world.host).stopped
      ensures Sound(world.store.disk, world.host, world.seen)
      ensures r.Ok? ==>
                && Settled(world.store.disk, world.host)
                && world.store.disk == Recovered(old(world.store.disk))
                && seqNo == |world.store.disk.journal|
                && (Restarts(LastIntent(old(world.store.disk).journal)) ==> !world.host.stopped)
      ensures r.Err? ==>
                Recovered(world.store.disk) == Recovered(old(world.store.disk))
                && Planned(r.error, world.store.faults.plan)
      ensures old(world.store.disk).journal <= world.store.disk.journal
      ensures (world.host == old(world.host) && world.seen == old(world.seen))
              || Leaves(world.host, r, world.store.faults)
      ensures old(world.store.disk).journal == [] && old(world.host).pending.None?
              && Quiet(world.store.faults.plan, old(world.store.faults.boundary), 2) ==>
                r.Ok? && world.store.faults.boundary == old(world.store.faults.boundary) + 2
                && world.store.disk == old(world.store.disk) && world.host == old(world.host)
    {
      ghost var d := world.store.disk;
      OriginIsLast(d.journal);
      seqNo := NextSeq(world.store.disk.journal);
      :- Fence();
      r := Replay();
      if r.Ok? {
        SettledIsRecovered(world.store.disk, world.host);
      }
    }

    method Replay() returns (r: Status)
      requires Sound(world.store.disk, world.host, world.seen) && world.host.pending.None?
               && seqNo == |world.store.disk.journal|
      modifies this`seqNo, world`host, world`seen, world.store`disk, world.store.faults`boundary
      ensures world.host.stopped ==> old(world.host).stopped
      ensures Sound(world.store.disk, world.host, world.seen)
              && Recovered(world.store.disk) == Recovered(old(world.store.disk))
      ensures r.Ok? ==> Settled(world.store.disk, world.host) && seqNo == |world.store.disk.journal|
      ensures r.Ok? && Restarts(LastIntent(old(world.store.disk).journal)) ==> !world.host.stopped
      ensures r.Err? ==> Planned(r.error, world.store.faults.plan)
      ensures old(world.store.disk).journal <= world.store.disk.journal
      ensures Leaves(world.host, r, world.store.faults)
      ensures old(world.store.disk).journal == [] ==>
                r.Ok? && world.store.faults.boundary == old(world.store.faults.boundary)
                && world.store.disk == old(world.store.disk) && world.host == old(world.host)
    {
      ghost var d := world.store.disk;
      var last := LastIntent(world.store.disk.journal);
      match last {
        case Idle =>
          r := Ok;
        case Promoted =>
          r := Finish();
          SameRecovery(d, world.store.disk);
        case RolledBack =>
          r := Restore();
          SameRecovery(d, world.store.disk);
        case _ =>
          r := Rollback(CrashReason(last), last == Staged);
          if world.store.disk.journal != d.journal {
            RollbackIsRecovery(d, world.store.disk);
          }
      }
    }

    method StageCandidate(version: Version, ghost d0: Disk) returns (r: Status)
      requires Underway(d0, version, world.store.disk, world.host, world.seen)
               && LastIntent(world.store.disk.journal) == Staged
      requires Candidate(world.store.disk.journal) == Complete(version) && world.store.disk.slots.experiment == Absent
      modifies world`host, world`seen, world.store`disk, world.store.faults`boundary
      ensures world.host.stopped ==> old(world.host).stopped
      ensures Underway(d0, version, world.store.disk, world.host, world.seen)
      ensures world.store.disk.journal == old(world.store.disk).journal
      ensures r.Ok? ==>
                world.store.disk.slots.experiment == Complete(version) && world.host.live == old(world.host).live
      ensures r.Ok? ==>
                world.host.incarnation == old(world.host).incarnation && world.host.stopped == old(world.host).stopped
      ensures world.seen.sights == old(world.seen).sights
      ensures r.Err? ==> Planned(r.error, world.store.faults.plan)
      ensures world.host.pending.None?
      ensures old(world.store.disk).slots.staging == Absent
              && Quiet(world.store.faults.plan, old(world.store.faults.boundary), 7) ==>
                r.Ok? && world.store.faults.boundary == old(world.store.faults.boundary) + 7
    {
      ghost var d, h := world.store.disk, world.host;
      DemandIsSound(d, h, world.seen, StageSlot);
      r := world.Stage(version);
      StagingIsSafe(d, h, world.store.disk, world.host);
    }

    /** Quiesce and stop the stable service, then start the candidate. */
    method HandOver(version: Version, ghost d0: Disk) returns (r: Status)
      requires Underway(d0, version, world.store.disk, world.host, world.seen)
               && LastIntent(world.store.disk.journal) == HandingOver
      requires Rests(world.host, Stable, world.store.disk.slots.stable) && world.host.pending.None?
      modifies world`host, world`seen, world.store.faults`boundary
      ensures world.host.stopped ==> old(world.host).stopped
      ensures Underway(d0, version, world.store.disk, world.host, world.seen)
      ensures r.Ok? ==> Serving(world.host, Experiment, world.store.disk.slots.experiment) && world.host.pending.None?
      ensures r.Ok? ==>
                world.host.live[0].startId == old(world.host).incarnation + 1 == world.host.incarnation
                && world.host.parked
      ensures world.seen.sights == old(world.seen).sights
      ensures r.Err? ==> Planned(r.error, world.store.faults.plan)
      ensures Leaves(world.host, r, world.store.faults)
      ensures Strands(old(world.store.faults.boundary), 2, world.host, world.store.faults)
    {
      r := Ok;
      :- Bounded(Quiesce);
      :- Bounded(Stop(Stable));
      r := Bounded(Start(Experiment));
    }

    /** Roll back instead of promoting; the caller reports the reason. */
    method RollbackOutcome(reason: string, version: Version, ghost d0: Disk) returns (r: Status, outcome: EngineOutcome)
      requires Underway(d0, version, world.store.disk, world.host, world.seen) && seqNo == |world.store.disk.journal|
               && world.host.pending.None?
      requires LastIntent(world.store.disk.journal) == RunningExperiment
               || LastIntent(world.store.disk.journal) == Readback
      modifies this`seqNo, world`host, world`seen, world.store`disk, world.store.faults`boundary
      ensures world.host.stopped ==> old(world.host).stopped
      ensures Underway(d0, version, world.store.disk, world.host, world.seen) && outcome == ERolledBack(reason)
      ensures r.Ok? ==> !world.host.stopped && Concluded(d0, world.store.disk, world.host, version, outcome)
      ensures r.Ok? ==> old(world.store.disk).journal <= world.store.disk.journal
      ensures r.Err? ==> Planned(r.error, world.store.faults.plan)
      ensures Leaves(world.host, r, world.store.faults)
    {
      outcome := ERolledBack(reason);
      ghost var d := world.store.disk;
      r := Rollback(reason, false);
      RollbackProgress(d0, d, world.store.disk, version, reason);
    }

    /** An error the plan accounts for, or evidence that carries the verifier's own pid. */
    predicate Excused(e: Error, pid: nat)
      reads world.store.faults
    {
      Planned(e, world.store.faults.plan)
      || (e == Invalid(HostEvidenceInvalid) && (pid == 0 || pid == predicates.verifierPid))
    }

    /** The readback decision, made by the configured predicates under the host budget. */
    method Evaluate(evidence: Evidence, target: Version) returns (r: Result<Option<string>>)
      modifies world.store.faults`boundary
      ensures r.Success? ==> (r.value.None? <==> evidence.version == target && !predicates.refuse)
      ensures r.Success? ==> evidence.Validate(predicates.verifierPid)
      ensures r.Failure? ==> Excused(r.error, evidence.pid)
    {
      var fault := world.store.faults.During();
      match fault {
        case None =>
        case Some(Refuse) => return Failure(Invalid(HostCommandFailed));
        case Some(Lose) => return Failure(Invalid(HostCommandFailed));
        case Some(Kill) => return Failure(Crash);
        case Some(Hang) => return Failure(Uncertain);
      }
      if !evidence.Validate(predicates.verifierPid) {
        return Failure(Invalid(HostEvidenceInvalid));
      }
      if evidence.version != target {
        return Success(Some("live process reports " + evidence.version + ", expected " + target));
      }
      return Success(if predicates.refuse then Some("synthetic readback refusal") else None);
    }

    /** The next forward intent of an upgrade to `version`. */
    method Advance(intent: Phase, version: Version, priorStartId: Option<nat>, ghost d0: Disk) returns (r: Status)
      requires Underway(d0, version, world.store.disk, world.host, world.seen) && seqNo == |world.store.disk.journal|
      requires Ready(intent, world.store.disk, world.host, version) && (intent == Staged ==> world.store.disk == d0)
      requires Attested(world.store.disk.journal + [JournalEntry(seqNo, intent, Some(version), priorStartId, "")],
                        world.seen.sights)
      modifies this`seqNo, world.store`disk, world.store.faults`boundary
      ensures Underway(d0, version, world.store.disk, world.host, world.seen)
      ensures r.Ok? ==>
                && world.store.disk == Appended(old(world.store.disk),
                                                JournalEntry(old(seqNo), intent, Some(version), priorStartId, ""))
                && seqNo == |world.store.disk.journal|
      ensures r.Err? ==> Planned(r.error, world.store.faults.plan)
      ensures Quiet(world.store.faults.plan, old(world.store.faults.boundary), 4) ==>
                r.Ok? && world.store.faults.boundary == old(world.store.faults.boundary) + 4
    {
      AdvanceIsSafe(d0, world.store.disk, world.host, version,
                    JournalEntry(seqNo, intent, Some(version), priorStartId, ""));
      r := Journal(intent, Some(version), priorStartId, "");
    }

    /** Commit an accepted candidate. */
    method Conclude(version: Version, ghost d0: Disk) returns (r: Status, outcome: EngineOutcome)
      requires Underway(d0, version, world.store.disk, world.host, world.seen)
               && seqNo == |world.store.disk.journal| >= |d0.journal|
      requires Ready(Promoted, world.store.disk, world.host, version)
      requires Attested(world.store.disk.journal + [JournalEntry(seqNo, Promoted, Some(version), None, "")],
                        world.seen.sights)
      modifies this`seqNo, world`host, world`seen, world.store`disk, world.store.faults`boundary
      ensures world.host.stopped ==> old(world.host).stopped
      ensures Underway(d0, version, world.store.disk, world.host, world.seen) && outcome == EPromoted(version)
      ensures r.Ok? ==> !world.host.stopped && Concluded(d0, world.store.disk, world.host, version, outcome)
      ensures r.Ok? ==> old(world.store.disk).journal <= world.store.disk.journal
      ensures r.Err? ==> Planned(r.error, world.store.faults.plan)
      ensures Leaves(world.host, r, world.store.faults)
    {
      outcome := EPromoted(version);
      :- Advance(Promoted, version, None, d0);
      r := Finish();
    }

    /** A bounded probe, remembered under the journal length it was taken at. */
    method Probe(version: Version, ghost d0: Disk) returns (r: Result<Evidence>)
      requires Underway(d0, version, world.store.disk, world.host, world.seen)
      modifies world`seen, world.store.faults`boundary
      ensures Underway(d0, version, world.store.disk, world.host, world.seen)
      ensures world.seen.sights.ages ==
                old(world.seen).sights.ages[|world.store.disk.journal| := world.host.incarnation]
      ensures r.Success? ==>
                && world.host.live != []
                && r.value == Testimony(world.host.live[0])
                && world.seen.sights.probes == old(world.seen).sights.probes[|world.store.disk.journal| := r.value]
      ensures r.Failure? ==>
                Planned(r.error, world.store.faults.plan)
                || (world.host.live == [] && r.error == Invalid(ModelServiceStopped))
      ensures world.host.live != [] && Quiet(world.store.faults.plan, old(world.store.faults.boundary), 3) ==>
                r.Success? && world.store.faults.boundary == old(world.store.faults.boundary) + 3
    {
      ghost var journal, sights := world.store.disk.journal, world.seen.sights;
      ConsistentIsClean(world.store.disk, world.host);
      r := world.Probe();
      AttestedProbe(journal, sights, world.seen.sights);
    }

    /** Probe the candidate and journal the readback. A definite probe failure is no evidence, not an error. */
    method Observe(version: Version, prior: Option<Evidence>, ghost d0: Disk)
      returns (r: Status, seen: Option<Evidence>)
      requires Underway(d0, version, world.store.disk, world.host, world.seen) && seqNo == |world.store.disk.journal|
      requires LastIntent(world.store.disk.journal) == RunningExperiment
               && Ready(Readback, world.store.disk, world.host, version)
      requires HandedOver(d0, world.store.disk, version, prior)
      modifies this`seqNo, world`seen, world.store`disk, world.store.faults`boundary
      ensures Underway(d0, version, world.store.disk, world.host, world.seen)
      ensures r.Ok? ==> seqNo == |world.store.disk.journal| && HandedOver(d0, world.store.disk, version, prior)
      ensures r.Ok? && seen.None? ==> world.store.disk == old(world.store.disk)
      ensures r.Ok? && seen.Some? ==>
                && seqNo == old(seqNo) + 1
                && LastIntent(world.store.disk.journal) == Readback
                   && Ready(Promoted, world.store.disk, world.host, version)
                && old(seqNo) in world.seen.sights.probes && world.seen.sights.probes[old(seqNo)] == seen.value
                && world.seen.sights.ages == old(world.seen).sights.ages[old(seqNo) := world.host.incarnation]
                && seen.value == Testimony(world.host.live[0])
      ensures r.Ok? ==> old(world.store.disk).journal <= world.store.disk.journal
      ensures r.Err? ==> Planned(r.error, world.store.faults.plan)
      ensures r.Ok? && seen.None? ==> Planned(Invalid(HostCommandFailed), world.store.faults.plan)
    {
      seen := None;
      var probe := Probe(version, d0);
      if probe.Failure? {
        r := if probe.error.Invalid? then Ok else Err(probe.error);
        return;
      }
      seen := Some(probe.value);
      var entry := JournalEntry(seqNo, Readback, Some(version), None, "");
      AttestedSnoc(world.store.disk.journal, world.seen.sights, entry);
      TrialContinues(d0, world.store.disk, world.host, version, prior, entry);
      r := Advance(Readback, version, None, d0);
    }

    /** A stale incarnation is refused before the predicates are asked. */
    method Judge(version: Version, prior: Option<Evidence>, evidence: Evidence)
      returns (refusal: Result<Option<string>>)
      modifies world.store.faults`boundary
      ensures refusal.Success? ==>
                (refusal.value.None? <==>
                   Fresh(prior, evidence.startId) && evidence.version == version && !predicates.refuse)
      ensures refusal.Success? && Fresh(prior, evidence.startId) ==> evidence.Validate(predicates.verifierPid)
      ensures refusal.Failure? ==> Excused(refusal.error, evidence.pid)
    {
      if prior.Some? && prior.value.startId == evidence.startId {
        return Success(Some("live process is still the pre-upgrade incarnation"));
      }
      refusal := Evaluate(evidence, version);
      if refusal.Success? && refusal.value.Some? {
        refusal := Success(Some("predicates refused: " + refusal.value.value));
      }
    }

    /** Commit an accepted candidate, roll a refused one back. */
    method Decide(version: Version, prior: Option<Evidence>, evidence: Evidence, ghost d0: Disk)
      returns (r: Status, outcome: EngineOutcome)
      requires Underway(d0, version, world.store.disk, world.host, world.seen)
               && HandedOver(d0, world.store.disk, version, prior)
      requires seqNo == |world.store.disk.journal| == |d0.journal| + 4
      requires LastIntent(world.store.disk.journal) == Readback
               && Ready(Promoted, world.store.disk, world.host, version)
      requires seqNo - 1 in world.seen.sights.probes && world.seen.sights.probes[seqNo - 1] == evidence
      requires |d0.journal| in world.seen.sights.ages && evidence.startId > world.seen.sights.ages[|d0.journal|]
      modifies this`seqNo, world`host, world`seen, world.store`disk, world.store.faults`boundary
      ensures world.host.stopped ==> old(world.host).stopped
      ensures Underway(d0, version, world.store.disk, world.host, world.seen)
      ensures r.Ok? ==>
                !world.host.stopped && Concluded(d0, world.store.disk, world.host, version, outcome)
                && !outcome.EUpToDate?
      ensures r.Ok? ==>
                (outcome.EPromoted? <==>
                   Fresh(prior, evidence.startId) && evidence.version == version && !predicates.refuse)
      ensures r.Ok? && Fresh(prior, evidence.startId) ==> evidence.Validate(predicates.verifierPid)
      ensures r.Ok? ==> old(world.store.disk).journal <= world.store.disk.journal
      ensures r.Err? ==> Excused(r.error, evidence.pid)
      ensures r.Err? && !Planned(r.error, world.store.faults.plan) ==> world.host == old(world.host)
      ensures Leaves(world.host, r, world.store.faults)
    {
      outcome := EUpToDate;
      var refusal := Judge(version, prior, evidence);
      if refusal.Failure? {
        r := Err(refusal.error);
      } else if refusal.value.Some? {
        r, outcome := RollbackOutcome(refusal.value.value, version, d0);
      } else {
        FreshCandidateIsAttested(d0, world.store.disk, world.seen.sights, version, prior, evidence);
        r, outcome := Conclude(version, d0);
      }
    }

    /** The candidate runs: observe it, then decide. */
    method Trial(version: Version, prior: Option<Evidence>, ghost d0: Disk) returns (r: Status, outcome: EngineOutcome)
      requires Underway(d0, version, world.store.disk, world.host, world.seen)
               && HandedOver(d0, world.store.disk, version, prior)
      requires seqNo == |world.store.disk.journal| == |d0.journal| + 3
      requires LastIntent(world.store.disk.journal) == RunningExperiment
               && Ready(Readback, world.store.disk, world.host, version)
      requires |d0.journal| in world.seen.sights.ages
               && world.host.live[0].startId > world.seen.sights.ages[|d0.journal|]
      modifies this`seqNo, world`host, world`seen, world.store`disk, world.store.faults`boundary
      ensures world.host.stopped ==> old(world.host).stopped
      ensures Underway(d0, version, world.store.disk, world.host, world.seen)
      ensures r.Ok? ==>
                !world.host.stopped && Concluded(d0, world.store.disk, world.host, version, outcome)
                && !outcome.EUpToDate?
      ensures r.Ok? && !Planned(Invalid(HostCommandFailed), world.store.faults.plan) ==>
                && (outcome.EPromoted? <==> Fresh(prior, old(world.host).live[0].startId) && !predicates.refuse)
                && (Fresh(prior, old(world.host).live[0].startId) ==>
                      old(world.host).live[0].pid != predicates.verifierPid)
      ensures r.Ok? ==> HandedOver(d0, world.store.disk, version, prior)
      ensures r.Err? ==> Excused(r.error, old(world.host).live[0].pid)
      ensures r.Err? && !Planned(r.error, world.store.faults.plan) ==> world.host == old(world.host)
      ensures Leaves(world.host, r, world.store.faults)
    {
      outcome := EUpToDate;
      var seen: Option<Evidence>;
      r, seen := Observe(version, prior, d0);
      if r.Ok? {
        if seen.None? {
          r, outcome := RollbackOutcome("experiment probe failed", version, d0);
        } else {
          r, outcome := Decide(version, prior, seen.value, d0);
        }
      }
    }

    predicate Fresh(prior: Option<Evidence>, startId: nat) {
      prior.Some? ==> prior.value.startId != startId
    }

    /** Install `version`. Interrupted anywhere, what recovery settles on is the old version
        until the Promoted intent is durable, and the new one from then on. */
    method Upgrade(version: Version) returns (r: Status, outcome: EngineOutcome)
      requires Sound(world.store.disk, world.host, world.seen) && Settled(world.store.disk, world.host)
               && seqNo == |world.store.disk.journal|
      modifies this`seqNo, world`host, world`seen, world.store`disk, world.store.faults`boundary
      ensures world.host.stopped ==> old(world.host).stopped
      ensures Underway(old(world.store.disk), version, world.store.disk, world.host, world.seen)
      ensures r.Ok? ==> Concluded(old(world.store.disk), world.store.disk, world.host, version, outcome)
      ensures r.Err? ==> Excused(r.error, old(world.host).incarnation + 1)
      ensures r.Err? && !Planned(r.error, world.store.faults.plan) ==>
                world.host.incarnation == old(world.host).incarnation + 1
      ensures r.Ok? && !outcome.EUpToDate? ==> !world.host.stopped
      ensures r.Ok? && outcome.EUpToDate? ==> world.host == old(world.host)
      ensures r.Ok? && !outcome.EUpToDate? && old(world.host).live != []
              && !Planned(Invalid(HostCommandFailed), world.store.faults.plan) ==>
                HandedOver(old(world.store.disk), world.store.disk, version, Some(Testimony(old(world.host).live[0])))
      ensures old(world.store.disk).slots.stable == Complete(version) <==> (r.Ok? && outcome.EUpToDate?)
      ensures r.Ok? && !outcome.EUpToDate? && !Planned(Invalid(HostCommandFailed), world.store.faults.plan) ==>
                (outcome.EPromoted? <==> !predicates.refuse)
                && predicates.verifierPid != old(world.host).incarnation + 1
      ensures Leaves(world.host, r, world.store.faults)
      ensures Hands(old(world.store.disk), version, old(world.host)) ==>
                Strands(old(world.store.faults.boundary), 20, world.host, world.store.faults)
    {
      ghost var d0 := world.store.disk;
      outcome := EUpToDate;
      var stable :- world.store.Version(StableDir);
      var _ :- world.store.Version(ExperimentDir);
      if stable.None? {
        return Err(Invalid(StableSlotRequired)), outcome;
      }
      if stable.value == version {
        return Ok, outcome;
      }
      var probe := Probe(version, d0);
      if probe.Failure? && !probe.error.Invalid? {
        return Err(probe.error), outcome;
      }
      r, outcome := Install(version, if probe.Success? then Some(probe.value) else None, d0);
    }

    /** Bring the candidate in, let it run, and decide. */
    method Install(version: Version, prior: Option<Evidence>, ghost d0: Disk)
      returns (r: Status, outcome: EngineOutcome)
      requires Underway(d0, version, world.store.disk, world.host, world.seen) && world.store.disk == d0
      requires seqNo == |d0.journal| && Settled(d0, world.host)
      requires prior.Some? ==> prior.value.startId <= world.host.incarnation
      requires |d0.journal| in world.seen.sights.ages && world.seen.sights.ages[|d0.journal|] == world.host.incarnation
      modifies this`seqNo, world`host, world`seen, world.store`disk, world.store.faults`boundary
      ensures world.host.stopped ==> old(world.host).stopped
      ensures Underway(d0, version, world.store.disk, world.host, world.seen)
      ensures r.Ok? ==>
                && Concluded(d0, world.store.disk, world.host, version, outcome) && !outcome.EUpToDate?
                && HandedOver(d0, world.store.disk, version, prior) && !world.host.stopped
      ensures r.Err? ==> Excused(r.error, old(world.host).incarnation + 1)
      ensures r.Err? && !Planned(r.error, world.store.faults.plan) ==>
                world.host.incarnation == old(world.host).incarnation + 1
      ensures r.Ok? && !Planned(Invalid(HostCommandFailed), world.store.faults.plan) ==>
                (outcome.EPromoted? <==> !predicates.refuse)
                && predicates.verifierPid != old(world.host).incarnation + 1
      ensures Leaves(world.host, r, world.store.faults)
      ensures d0.slots.staging == Absent ==>
                Strands(old(world.store.faults.boundary), 17, world.host, world.store.faults)
    {
      outcome := EUpToDate;
      r := Prepare(version, prior, d0);
      if r.Ok? {
        r, outcome := Trial(version, prior, d0);
      }
    }

    /** Bring the candidate in under its intent. */
    method BringIn(version: Version, ghost d0: Disk) returns (r: Status)
      requires Underway(d0, version, world.store.disk, world.host, world.seen) && world.store.disk == d0
      requires seqNo == |d0.journal| && Settled(d0, world.host)
      modifies this`seqNo, world`host, world`seen, world.store`disk, world.store.faults`boundary
      ensures world.host.stopped ==> old(world.host).stopped
      ensures Underway(d0, version, world.store.disk, world.host, world.seen)
      ensures r.Ok? ==>
                && seqNo == |world.store.disk.journal| == |d0.journal| + 1
                && Ready(HandingOver, world.store.disk, world.host, version)
                && world.host.incarnation == old(world.host).incarnation
      ensures world.seen.sights == old(world.seen).sights
      ensures r.Err? ==> Planned(r.error, world.store.faults.plan)
      ensures Leaves(world.host, r, world.store.faults)
      ensures d0.slots.staging == Absent && Quiet(world.store.faults.plan, old(world.store.faults.boundary), 11) ==>
                r.Ok? && world.store.faults.boundary == old(world.store.faults.boundary) + 11
    {
      AttestedSnoc(world.store.disk.journal, world.seen.sights, JournalEntry(seqNo, Staged, Some(version), None, ""));
      :- Advance(Staged, version, None, d0);
      r := StageCandidate(version, d0);
    }

    /** Journal the handover, with the incarnation it leaves, and run the candidate. */
    method TakeOver(version: Version, prior: Option<Evidence>, ghost d0: Disk) returns (r: Status)
      requires Underway(d0, version, world.store.disk, world.host, world.seen)
      requires seqNo == |world.store.disk.journal| == |d0.journal| + 1
      requires Ready(HandingOver, world.store.disk, world.host, version)
      modifies this`seqNo, world`host, world`seen, world.store`disk, world.store.faults`boundary
      ensures world.host.stopped ==> old(world.host).stopped
      ensures Underway(d0, version, world.store.disk, world.host, world.seen)
      ensures r.Ok? ==>
                && HandedOver(d0, world.store.disk, version, prior)
                && seqNo == |world.store.disk.journal| == |d0.journal| + 2
                && Ready(RunningExperiment, world.store.disk, world.host, version)
                && world.host.live[0].pid == world.host.live[0].startId == world.host.incarnation
                && world.host.incarnation == old(world.host).incarnation + 1
      ensures world.seen.sights == old(world.seen).sights
      ensures r.Err? ==> Planned(r.error, world.store.faults.plan)
      ensures Leaves(world.host, r, world.store.faults)
      ensures Strands(old(world.store.faults.boundary), 6, world.host, world.store.faults)
    {
      var priorStartId := if prior.Some? then Some(prior.value.startId) else None;
      AttestedSnoc(world.store.disk.journal, world.seen.sights,
                   JournalEntry(seqNo, HandingOver, Some(version), priorStartId, ""));
      :- Advance(HandingOver, version, priorStartId, d0);
      r := HandOver(version, d0);
    }

    /** Stage the candidate and hand the service over to it, each effect under its intent. */
    method Prepare(version: Version, prior: Option<Evidence>, ghost d0: Disk) returns (r: Status)
      requires Underway(d0, version, world.store.disk, world.host, world.seen) && world.store.disk == d0
      requires seqNo == |d0.journal| && Settled(d0, world.host)
      modifies this`seqNo, world`host, world`seen, world.store`disk, world.store.faults`boundary
      ensures world.host.stopped ==> old(world.host).stopped
      ensures Underway(d0, version, world.store.disk, world.host, world.seen)
      ensures r.Ok? ==>
                && HandedOver(d0, world.store.disk, version, prior)
                && seqNo == |world.store.disk.journal| == |d0.journal| + 3
                && LastIntent(world.store.disk.journal) == RunningExperiment
                && Ready(Readback, world.store.disk, world.host, version)
                && world.host.live[0].pid == world.host.live[0].startId == world.host.incarnation
                && world.host.incarnation == old(world.host).incarnation + 1
      ensures world.seen.sights == old(world.seen).sights
      ensures r.Err? ==> Planned(r.error, world.store.faults.plan)
      ensures Leaves(world.host, r, world.store.faults)
      ensures d0.slots.staging == Absent ==>
                Strands(old(world.store.faults.boundary), 17, world.host, world.store.faults)
    {
      r := Ok;
      :- BringIn(version, d0);
      :- TakeOver(version, prior, d0);
      r := Announce(version, prior, d0);
    }

    /** Record that the candidate runs. */
    method Announce(version: Version, prior: Option<Evidence>, ghost d0: Disk) returns (r: Status)
      requires Underway(d0, version, world.store.disk, world.host, world.seen)
               && HandedOver(d0, world.store.disk, version, prior)
      requires seqNo == |world.store.disk.journal|
      requires Ready(RunningExperiment, world.store.disk, world.host, version)
      modifies this`seqNo, world.store`disk, world.store.faults`boundary
      ensures Underway(d0, version, world.store.disk, world.host, world.seen)
      ensures r.Ok? ==>
                && HandedOver(d0, world.store.disk, version, prior)
                && seqNo == |world.store.disk.journal| == old(seqNo) + 1
                && LastIntent(world.store.disk.journal) == RunningExperiment
                && Ready(Readback, world.store.disk, world.host, version)
      ensures r.Err? ==> Planned(r.error, world.store.faults.plan)
    {
      var entry := JournalEntry(seqNo, RunningExperiment, Some(version), None, "");
      AttestedSnoc(world.store.disk.journal, world.seen.sights, entry);
      TrialContinues(d0, world.store.disk, world.host, version, prior, entry);
      r := Advance(RunningExperiment, version, None, d0);
    }
  }
}
