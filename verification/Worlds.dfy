/** The harness world: a file store, a host that runs at most what it is told, and the
    boundaries at which a fault may fall. A host call can be lost in flight; it then
    stays pending and lands at any later moment, until a fence drains it. Between workers
    the service may be stopped from outside, and started where that cannot make two run. */
module Worlds {
  import opened State
  import opened Storage
  import opened Invariants

  datatype HostEffect = Quiesce | Stop(slot: Slot) | Start(slot: Slot) | Resume

  datatype Host = Host(
    live: seq<LiveProcess>,
    incarnation: nat,
    parked: bool,
    workload: string,
    phase: Phase,
    pending: Option<HostEffect>,
    stopped: bool)  // stopped from outside, and not started since

  const SYNTHETIC_WORKLOAD := "synthetic-workload"

  /** What a host call does once it takes effect. */
  function Land(e: HostEffect, h: Host, t: TwoSlots): Host {
    match e
    case Quiesce => h.(parked := true, phase := HandingOver)
    case Stop(_) => h.(live := [])
    case Start(slot) =>
      var version := SlotVersion(t, slot);
      if version.None? || exists p :: p in h.live && p.slot == slot then h
      else
        var id := h.incarnation + 1;
        h.(incarnation := id, live := h.live + [LiveProcess(slot, version.value, id, id)], stopped := false)
    case Resume => h.(parked := false)
  }

  /** Every way a pending call can have ended once it is drained. */
  predicate Drained(h: Host, t: TwoSlots, h': Host) {
    || h' == h.(pending := None)
    || (h.pending.Some? && h' == Land(h.pending.value, h, t).(pending := None))
  }

  datatype Action = Call(effect: HostEffect) | StageSlot | PromoteSlots | ClearSlot

  /** The durable intent each effect needs as the last journal entry. */
  predicate Authorized(a: Action, last: Phase) {
    match a
    case Call(Quiesce) => last == HandingOver
    case Call(Stop(Stable)) => last == HandingOver
    case Call(Start(Experiment)) => last == HandingOver
    case Call(Stop(Experiment)) => last == RolledBack
    case Call(Start(Stable)) => last == RolledBack
    case Call(Resume) => last == Promoted || last == RolledBack
    case StageSlot => last == Staged
    case PromoteSlots => last == Promoted
    case ClearSlot => last == RolledBack
  }

  function LastIntent(journal: seq<JournalEntry>): Phase {
    if journal == [] then Idle else journal[|journal| - 1].intent
  }

  function Observe(d: Disk, h: Host): Snapshot {
    Snapshot(h.phase, View(d.slots), h.live, Intents(d.journal), Some(h.workload), Some(SelfOwned))
  }

  predicate Clean(d: Disk, h: Host) {
    CheckInvariants(Observe(d, h), BUILT_IN_INVARIANTS) == []
  }

  /** What happens to the service between two workers, by hand or by itself. */
  datatype Hand = Leave | StopService | StartService

  function Handled(hand: Hand, d: Disk, h: Host): Host {
    match hand
    case Leave => h
    case StopService => if h.live == [] then h else h.(live := [], stopped := true)
    case StartService => if h.live == [] && Startable(d, h) then Land(Start(Stable), h, View(d.slots)) else h
  }

  /** When a start of the stable service from outside cannot make two run: no candidate runs or is
      about to. `Protocol.OutsideStart` shows that these are all such states. */
  predicate Startable(d: Disk, h: Host) {
    if h.live != [] then h.live[0].slot == Stable
    else
      match LastIntent(d.journal)
      case HandingOver => h.pending != Some(Start(Experiment))
      case RunningExperiment => false
      case Readback => false
      case Promoted => !d.slots.experiment.Complete?
      case _ => true
  }

  /** No transaction is under way and nothing of one is left. */
  predicate AtRest(d: Disk, h: Host) {
    && LastIntent(d.journal).AtRest()
    && d.slots.stable.Complete? && d.slots.experiment == d.slots.backup == Absent
    && !h.parked && h.pending.None?
  }

  /** An effect is issued under its own durable intent, and never while an earlier call may still land. */
  predicate Issuable(a: Action, d: Disk, h: Host) {
    h.pending.None? && Authorized(a, LastIntent(d.journal))
  }

  /** What an honest probe reports of the live process. */
  function Testimony(p: LiveProcess): Evidence {
    Evidence(p.version, p.pid, p.startId)
  }

  /** The last evidence taken at each journal length, and the newest incarnation when a probe was last tried there. */
  datatype Sights = Sights(probes: map<nat, Evidence>, ages: map<nat, nat>)

  /** An effect that was asked for: the last durable intent at that moment, and whether no earlier call could still
      land. */
  datatype Demand = Demand(action: Action, last: Phase, clear: bool) {
    predicate Justified() {
      clear && Authorized(action, last)
    }
  }

  /** What has been seen of the world so far, for stating properties of whole runs. */
  datatype Seen = Seen(sights: Sights, demands: seq<Demand>)

  function Noted(seen: Seen, a: Action, d: Disk, h: Host): Seen {
    seen.(demands := seen.demands + [Demand(a, LastIntent(d.journal), h.pending.None?)])
  }

  class World {
    const store: FileStore
    var host: Host
    ghost var seen: Seen

    constructor (store: FileStore, version: Version)
      ensures this.store == store && seen == Seen(Sights(map[], map[]), [])
      ensures host == Host([LiveProcess(Stable, version, 1, 1)], 1, false, SYNTHETIC_WORKLOAD, Idle, None, false)
    {
      this.store := store;
      host := Host([LiveProcess(Stable, version, 1, 1)], 1, false, SYNTHETIC_WORKLOAD, Idle, None, false);
      seen := Seen(Sights(map[], map[]), []);
    }

    /** A harness boundary: a fault may fall here, otherwise every oracle must hold. */
    method Step() returns (r: Status)
      modifies store.faults`boundary
      ensures store.faults.boundary == old(store.faults.boundary) + 1
      ensures Clean(store.disk, host) ==> r == StepEnds(store.faults.plan, store.faults.boundary)
      ensures Clean(store.disk, host) ==> r.Err? ==> Planned(r.error, store.faults.plan)
      ensures !Clean(store.disk, host) ==> r.Err?
    {
      r := Ok;
      :- store.faults.Step();
      if CheckInvariants(Observe(store.disk, host), BUILT_IN_INVARIANTS) != [] {
        return Err(Violation("HARNESS_INVARIANT"));
      }
      return Ok;
    }

    /** Note what is asked for, whether or not it is due. */
    ghost method Note(a: Action)
      modifies this`seen
      ensures seen == Noted(old(seen), a, store.disk, host)
    {
      seen := Noted(seen, a, store.disk, host);
    }

    /** One bounded host call. It may be refused, lost with the worker, or time out while
        the controller still runs, or fail with its controller out of sight; then it stays pending. */
    method Call(e: HostEffect) returns (r: Status)
      modifies this`host, this`seen, store.faults`boundary
      ensures seen == Noted(old(seen), Action.Call(e), store.disk, old(host))
      ensures r.Ok? ==> host == Land(e, old(host), View(store.disk.slots))
      ensures r.Err? ==>
                || host == old(host)
                || host == old(host).(pending := Some(e))
                || host == Land(e, old(host), View(store.disk.slots))
      ensures (&& Clean(store.disk, old(host))
              && Clean(store.disk, Land(e, old(host), View(store.disk.slots)))
              && (e.Start? ==> SlotVersion(View(store.disk.slots), e.slot).Some?)
             ) ==> r.Err? ==> Planned(r.error, store.faults.plan)
      ensures old(host).pending.None? ==> Leaves(host, r, store.faults)
      ensures Clean(store.disk, old(host)) ==> Strands(old(store.faults.boundary), 2, host, store.faults)
    {
      Note(Action.Call(e));
      :- Step();
      var fault := store.faults.During();
      match fault {
        case None =>
        case Some(Refuse) => return Err(Invalid(HostCommandFailed));
        case Some(Lose) => host := host.(pending := Some(e)); return Err(Invalid(HostCommandFailed));
        case Some(Kill) => host := host.(pending := Some(e)); return Err(Crash);
        case Some(Hang) => host := host.(pending := Some(e)); return Err(Uncertain);
      }
      if e.Start? && SlotVersion(View(store.disk.slots), e.slot).None? {
        return Err(Invalid(MissingModelSlot));
      }
      host := Land(e, host, View(store.disk.slots));
      r := Step();
    }

    /** Between workers: the service is stopped or started from outside. */
    method ByHand(hand: Hand)
      modifies this`host
      ensures host == Handled(hand, store.disk, old(host))
    {
      host := Handled(hand, store.disk, host);
    }

    /** The environment's move: a call still in flight lands now. */
    method LandLate(lands: bool)
      modifies this`host
      ensures Drained(old(host), View(store.disk.slots), host) || host == old(host)
      ensures !lands ==> host == old(host)
    {
      if lands && host.pending.Some? {
        host := Land(host.pending.value, host, View(store.disk.slots)).(pending := None);
      }
    }

    /** Wait out every earlier call. On success none is left, whether or not it landed. */
    method Fence() returns (r: Status)
      modifies this`host, store.faults`boundary
      ensures r.Ok? ==> Drained(old(host), View(store.disk.slots), host)
      ensures r.Err? ==> host == old(host) || Drained(old(host), View(store.disk.slots), host)
      ensures r.Err? ==> Planned(r.error, store.faults.plan)
      ensures Quiet(store.faults.plan, old(store.faults.boundary), 2) ==>
                r.Ok? && store.faults.boundary == old(store.faults.boundary) + 2
    {
      var fault := store.faults.During();
      match fault {
        case None =>
        case Some(Refuse) => return Err(Invalid(HostCommandFailed));
        case Some(Lose) => return Err(Invalid(HostCommandFailed));
        case Some(Kill) => return Err(Crash);
        case Some(Hang) => return Err(Uncertain);
      }
      if host.pending.Some? {
        var landed: bool := *;
        host := (if landed then Land(host.pending.value, host, View(store.disk.slots)) else host).(pending := None);
      }
      r := store.faults.Step();
    }

    method Probe() returns (r: Result<Evidence>)
      modifies this`seen, store.faults`boundary
      ensures seen.demands == old(seen).demands
      ensures seen.sights.ages == old(seen).sights.ages[|store.disk.journal| := host.incarnation]
      ensures r.Success? ==>
                && host.live != []
                && r.value == Testimony(host.live[0])
                && seen.sights.probes == old(seen).sights.probes[|store.disk.journal| := r.value]
      ensures r.Failure? ==> seen.sights.probes == old(seen).sights.probes
      ensures Clean(store.disk, host) ==> r.Failure? ==>
                Planned(r.error, store.faults.plan) || (host.live == [] && r.error == Invalid(ModelServiceStopped))
      ensures Clean(store.disk, host) && host.live != [] && Quiet(store.faults.plan, old(store.faults.boundary), 3) ==>
                r.Success? && store.faults.boundary == old(store.faults.boundary) + 3
    {
      seen := seen.(sights := seen.sights.(ages := seen.sights.ages[|store.disk.journal| := host.incarnation]));
      var s := Step();
      if s.Err? {
        return Failure(s.error);
      }
      var fault := store.faults.During();
      match fault {
        case None =>
        case Some(Refuse) => return Failure(Invalid(HostCommandFailed));
        case Some(Lose) => return Failure(Invalid(HostCommandFailed));
        case Some(Kill) => return Failure(Crash);
        case Some(Hang) => return Failure(Uncertain);
      }
      if host.live == [] {
        return Failure(Invalid(ModelServiceStopped));
      }
      s := Step();
      if s.Err? {
        return Failure(s.error);
      }
      r := Success(Testimony(host.live[0]));
      seen := seen.(sights := seen.sights.(probes := seen.sights.probes[|store.disk.journal| := r.value]));
    }

    method Append(entry: JournalEntry) returns (r: Status)
      modifies store`disk, store.faults`boundary
      ensures r.Ok? ==> store.disk == Appended(old(store.disk), entry)
      ensures r.Err? ==> store.disk == old(store.disk) || store.disk == Appended(old(store.disk), entry)
      ensures entry.seqNo != NextSeq(old(store.disk).journal) ==> store.disk == old(store.disk)
      ensures Clean(old(store.disk), host) && Clean(Appended(old(store.disk), entry), host) ==>
                entry.seqNo == NextSeq(old(store.disk).journal) ==> r.Err? ==> Planned(r.error, store.faults.plan)
      ensures Clean(old(store.disk), host) && Clean(Appended(old(store.disk), entry), host) ==>
                entry.seqNo == NextSeq(old(store.disk).journal)
                && Quiet(store.faults.plan, old(store.faults.boundary), 4) ==>
                  r.Ok? && store.faults.boundary == old(store.faults.boundary) + 4
    {
      r := Ok;
      :- Step();
      :- store.Append(entry);
      r := Step();
    }

    method Stage(version: Version) returns (r: Status)
      modifies this`host, this`seen, store`disk, store.faults`boundary
      ensures seen == Noted(old(seen), StageSlot, old(store.disk), old(host))
      ensures store.disk == old(store.disk).(slots := store.disk.slots)
      ensures store.disk.slots == old(store.disk).slots.(staging := store.disk.slots.staging,
                                                         experiment := store.disk.slots.experiment)
      ensures host == StagedHost(store.disk, old(host)) || (host == old(host) && store.disk == old(store.disk))
      ensures store.disk.slots.experiment == old(store.disk).slots.experiment
           || store.disk.slots.experiment == Partial || store.disk.slots.experiment == Absent
           || store.disk.slots.experiment == Complete(version)
      ensures old(store.disk).slots.experiment.Absent? ==> !store.disk.slots.experiment.Partial?
      ensures r.Ok? ==> store.disk.slots.experiment == Complete(version)
      ensures (&& Clean(old(store.disk), old(host))
              && (store.disk.slots.experiment == Complete(version) ==> Clean(store.disk, host))
             ) ==> r.Err? ==> Planned(r.error, store.faults.plan)
      ensures (&& Clean(old(store.disk), old(host))
               && (store.disk.slots.experiment == Complete(version) ==> Clean(store.disk, host))
              && old(store.disk).slots.experiment.Absent? && old(store.disk).slots.staging.Absent?
              && Quiet(store.faults.plan, old(store.faults.boundary), 7)
             ) ==> r.Ok? && store.faults.boundary == old(store.faults.boundary) + 7
    {
      Note(StageSlot);
      :- Step();
      r := store.Stage(version);
      host := StagedHost(store.disk, host);
      if r.Ok? {
        r := Step();
      }
    }

    /** The commit rename turns the running candidate into the stable service. */
    method Promote() returns (r: Status)
      modifies this`host, this`seen, store`disk, store.faults`boundary
      ensures seen == Noted(old(seen), PromoteSlots, old(store.disk), old(host))
      ensures store.disk == old(store.disk).(slots := store.disk.slots)
      ensures store.disk.slots.staging == old(store.disk).slots.staging
      ensures host == PromotedHost(store.disk, old(host)) || (host == old(host) && store.disk == old(store.disk))
      ensures Promoting(old(store.disk).slots) ==>
                && Promoting(store.disk.slots)
                && (|| View(store.disk.slots) == View(old(store.disk).slots)
                    || View(store.disk.slots) == PromoteStep(View(old(store.disk).slots)))
      ensures r.Ok? && Promoting(old(store.disk).slots) ==>
                && host == PromotedHost(store.disk, old(host))
                && View(store.disk.slots) == PromoteStep(View(old(store.disk).slots))
                && store.disk.slots.stable.Complete? && store.disk.slots.experiment == store.disk.slots.backup == Absent
      ensures (&& Clean(old(store.disk), old(host)) && Clean(store.disk, host)
              && Promoting(old(store.disk).slots)) ==> r.Err? ==> Planned(r.error, store.faults.plan)
    {
      Note(PromoteSlots);
      :- Step();
      r := store.Promote();
      host := PromotedHost(store.disk, host);
      if r.Ok? {
        r := Step();
      }
    }

    method Clear() returns (r: Status)
      modifies this`host, this`seen, store`disk, store.faults`boundary
      ensures seen == Noted(old(seen), ClearSlot, old(store.disk), old(host))
      ensures store.disk == old(store.disk).(slots := old(store.disk).slots.(experiment := store.disk.slots.experiment))
      ensures store.disk.slots.experiment == old(store.disk).slots.experiment
           || store.disk.slots.experiment == Partial || store.disk.slots.experiment == Absent
      ensures host == old(host) || (host == old(host).(phase := RolledBack) && store.disk.slots.experiment == Absent)
      ensures r.Ok? ==> host == old(host).(phase := RolledBack) && store.disk.slots.experiment == Absent
      ensures (&& Clean(old(store.disk), old(host)) && Clean(store.disk, host)
             ) ==> r.Err? ==> Planned(r.error, store.faults.plan)
    {
      Note(ClearSlot);
      :- Step();
      :- store.Clear();
      host := host.(phase := RolledBack);
      r := Step();
    }
  }

  /** A call of this worker that is left in flight fell at the last boundary, and ended the work. */
  predicate Leaves(h: Host, r: Status, faults: Faults)
    reads faults
  {
    h.pending.Some? ==>
      && r.Err? && faults.boundary in faults.plan && faults.plan[faults.boundary] != Refuse
      && r.error == LeftError(faults.plan[faults.boundary])
  }

  /** When the first fault falls at the `n`th boundary after `b` and loses a host call, that call
      is left in flight there. */
  predicate Strands(b: nat, n: nat, h: Host, faults: Faults)
    reads faults
  {
    n > 0 && Quiet(faults.plan, b, n - 1) && Loses(faults.plan, b + n) ==> h.pending.Some? && faults.boundary == b + n
  }

  function Appended(d: Disk, entry: JournalEntry): Disk {
    d.(journal := d.journal + [entry])
  }

  function StagedHost(d: Disk, h: Host): Host {
    if d.slots.experiment.Complete? then h.(phase := Staged) else h
  }

  function PromotedHost(d: Disk, h: Host): Host {
    if d.slots.experiment.Complete? then h
    else h.(phase := Promoted, live := seq(|h.live|, i requires 0 <= i < |h.live| => h.live[i].(slot := Stable)))
  }
}
