/** The durable state directory: four slot directories, the journal and the operation
    receipts. Renames and record writes are atomic, a directory removal is not, and a
    fault may fall before or after every one of them. */
module Storage {
  import opened State

  // ---------------------------------------------------------------- durable values

  /** A directory a crash can leave half removed or half filled. */
  datatype Dir = Absent | Partial | Complete(version: Version)

  datatype Name = StableDir | ExperimentDir | StableOld | ExperimentStaging

  datatype Slots = Slots(stable: Dir, experiment: Dir, backup: Dir, staging: Dir) {
    function Get(n: Name): Dir {
      match n
      case StableDir => stable
      case ExperimentDir => experiment
      case StableOld => backup
      case ExperimentStaging => staging
    }

    function With(n: Name, d: Dir): Slots {
      match n
      case StableDir => this.(stable := d)
      case ExperimentDir => this.(experiment := d)
      case StableOld => this.(backup := d)
      case ExperimentStaging => this.(staging := d)
    }
  }

  datatype Disk = Disk(
    slots: Slots,
    journal: seq<JournalEntry>,
    operation: OperationRead,
    archives: map<string, Operation>)

  // ---------------------------------------------------------------- one-step slots

  /** The two slots as the harness sees them. */
  datatype TwoSlots = TwoSlots(stable: Option<Version>, experiment: Option<Version>)

  function Content(d: Dir): Option<Version> {
    if d.Complete? then Some(d.version) else None
  }

  /** The stable slot is its directory, or the backup while a promotion is between its renames. */
  function View(s: Slots): TwoSlots {
    TwoSlots(if s.stable.Complete? then Content(s.stable) else Content(s.backup), Content(s.experiment))
  }

  function StageStep(t: TwoSlots, v: Version): TwoSlots {
    t.(experiment := Some(v))
  }

  function PromoteStep(t: TwoSlots): TwoSlots {
    if t.experiment.Some? then TwoSlots(t.experiment, None) else t
  }

  function ClearStep(t: TwoSlots): TwoSlots {
    t.(experiment := None)
  }

  /** What every interruption leaves: a complete stable directory, or a promotion that
      has moved it aside and still holds the candidate. */
  predicate Recoverable(s: Slots) {
    s.stable.Complete? || (s.stable.Absent? && s.backup.Complete? && s.experiment.Complete?)
  }

  // ---------------------------------------------------------------- faults

  /** The worker dies, a call times out, is refused, or ends in a definite error with its
      controller out of sight. */
  datatype Fault = Kill | Hang | Refuse | Lose

  /** Which boundary fails, and how; an empty plan is an uninterrupted run. */
  class Faults {
    var plan: map<nat, Fault>
    var boundary: nat

    constructor ()
      ensures plan == map[] && boundary == 0
    {
      plan := map[];
      boundary := 0;
    }

    method Inject(plan: map<nat, Fault>)
      modifies this
      ensures this.plan == plan && boundary == 0
    {
      this.plan := plan;
      boundary := 0;
    }

    /** One boundary around a file operation: the worker dies there, or the call fails. */
    method Step() returns (r: Status)
      modifies this`boundary
      ensures boundary == old(boundary) + 1 && r == StepEnds(plan, boundary)
      ensures r.Err? ==> FileError(r.error) && Planned(r.error, plan) && plan != map[]
    {
      boundary := boundary + 1;
      r := StepEnds(plan, boundary);
    }

    /** One boundary inside a host call. */
    method During() returns (f: Option<Fault>)
      modifies this`boundary
      ensures boundary == old(boundary) + 1 && f == if Spared(plan, boundary) then None else Some(plan[boundary])
      ensures f.Some? ==> Has(plan, f.value)
    {
      boundary := boundary + 1;
      f := if boundary in plan then Some(plan[boundary]) else None;
    }
  }

  /** No fault falls on this boundary. */
  predicate Spared(plan: map<nat, Fault>, b: nat) {
    b !in plan
  }

  /** How a file operation's boundary ends. */
  function StepEnds(plan: map<nat, Fault>, b: nat): Status {
    if Spared(plan, b) then Ok else Err(if plan[b] == Kill then Crash else Invalid(Io))
  }

  /** How a record write begun after boundary `b` ends: a boundary before it, one after it. */
  function WriteEnds(plan: map<nat, Fault>, b: nat): Status {
    if Spared(plan, b + 1) then StepEnds(plan, b + 2) else StepEnds(plan, b + 1)
  }

  /** The boundary at which it ends. */
  function WriteStops(plan: map<nat, Fault>, b: nat): nat {
    if Spared(plan, b + 1) then b + 2 else b + 1
  }

  /** No fault falls on the `n` boundaries after `b`. */
  predicate Quiet(plan: map<nat, Fault>, b: nat, n: nat) {
    forall i :: b < i <= b + n ==> Spared(plan, i)
  }

  /** How a host call that is left in flight is reported to the engine. */
  function LeftError(f: Fault): Error {
    match f
    case Kill => Crash
    case Hang => Uncertain
    case _ => Invalid(HostCommandFailed)
  }

  /** A fault at boundary `b` that leaves a host call in flight and the worker alive. */
  predicate Loses(plan: map<nat, Fault>, b: nat) {
    !Spared(plan, b) && (plan[b] == Hang || plan[b] == Lose)
  }

  predicate Has(plan: map<nat, Fault>, fault: Fault) {
    exists b :: b in plan && plan[b] == fault
  }

  /** The fault plan accounts for an error; no broken invariant is ever accounted for. */
  predicate Planned(e: Error, plan: map<nat, Fault>) {
    match e
    case Crash => Has(plan, Kill)
    case Uncertain => Has(plan, Hang)
    case Invalid(refusal) => (refusal == Io || refusal == HostCommandFailed)
    && (Has(plan, Refuse) || Has(plan, Hang) || Has(plan, Lose))
    case _ => false
  }

  lemma NothingPlanned(e: Error)
    ensures !Planned(e, map[])
  {
  }

  /** A file operation fails by a crash or by a definite refusal, never otherwise. */
  predicate FileError(e: Error) {
    e == Crash || e.Invalid?
  }

  // ---------------------------------------------------------------- the store

  class FileStore {
    const faults: Faults
    var disk: Disk

    constructor (faults: Faults, stable: Version)
      ensures this.faults == faults
      ensures disk == Disk(Slots(Complete(stable), Absent, Absent, Absent), [], Genesis, map[])
    {
      this.faults := faults;
      disk := Disk(Slots(Complete(stable), Absent, Absent, Absent), [], Genesis, map[]);
    }

    function Version(n: Name): Result<Option<State.Version>>
      reads this
    {
      match disk.slots.Get(n)
      case Absent => Success(None)
      case Partial => Failure(Invalid(IncompleteSlot))
      case Complete(v) => Success(Some(v))
    }

    method RemoveDir(n: Name) returns (r: Status)
      modifies this`disk, faults`boundary
      ensures r.Ok? ==> disk == old(disk).(slots := old(disk).slots.With(n, Absent))
      ensures r.Err? ==>
                exists d: Dir {:trigger old(disk).slots.With(n, d)} ::
                  (d == old(disk).slots.Get(n) || d == Partial || d == Absent)
                  && disk == old(disk).(slots := old(disk).slots.With(n, d))
      ensures r.Err? ==> FileError(r.error)
      ensures old(disk).slots.Get(n).Absent? ==> r.Ok? && faults.boundary == old(faults.boundary)
      ensures r.Err? ==> Planned(r.error, faults.plan)
    {
      var before := disk.slots;
      if before.Get(n).Absent? {
        assert before == before.With(n, Absent);
        return Ok;
      }
      assert before == before.With(n, before.Get(n));
      :- faults.Step();
      disk := disk.(slots := before.With(n, Partial));
      :- faults.Step();
      disk := disk.(slots := before.With(n, Absent));
      :- faults.Step();
      return Ok;
    }

    method Rename(from: Name, to: Name) returns (r: Status)
      requires from != to
      modifies this`disk, faults`boundary
      ensures r.Ok? ==> disk == old(disk).(slots := Moved(old(disk).slots, from, to))
      ensures r.Err? ==> disk == old(disk) || disk == old(disk).(slots := Moved(old(disk).slots, from, to))
      ensures r.Err? ==> FileError(r.error)
      ensures old(disk).slots.Get(from).Absent? || !old(disk).slots.Get(to).Absent? ==> r.Err? && disk == old(disk)
      ensures !old(disk).slots.Get(from).Absent? && old(disk).slots.Get(to).Absent? ==>
                (r.Err? ==> Planned(r.error, faults.plan))
      ensures !old(disk).slots.Get(from).Absent? && old(disk).slots.Get(to).Absent?
              && Quiet(faults.plan, old(faults.boundary), 2) ==>
                r.Ok? && faults.boundary == old(faults.boundary) + 2
    {
      if disk.slots.Get(from).Absent? || !disk.slots.Get(to).Absent? {
        return Err(Invalid(RenameRefused));
      }
      :- faults.Step();
      disk := disk.(slots := Moved(disk.slots, from, to));
      :- faults.Step();
      return Ok;
    }

    /** Fill the staging directory; leftovers of an earlier attempt are removed first. */
    method Populate(version: State.Version) returns (r: Status)
      modifies this`disk, faults`boundary
      ensures disk == old(disk).(slots := old(disk).slots.(staging := disk.slots.staging))
      ensures r.Ok? ==> disk.slots.staging == Complete(version)
      ensures r.Err? ==> FileError(r.error)
      ensures r.Err? ==> Planned(r.error, faults.plan)
      ensures old(disk).slots.staging.Absent? && Quiet(faults.plan, old(faults.boundary), 3) ==>
                r.Ok? && faults.boundary == old(faults.boundary) + 3
    {
      r := Ok;
      :- RemoveDir(ExperimentStaging);
      :- faults.Step();
      disk := disk.(slots := disk.slots.(staging := Partial));
      :- faults.Step();
      disk := disk.(slots := disk.slots.(staging := Complete(version)));
      :- faults.Step();
      return Ok;
    }

    method Stage(version: State.Version) returns (r: Status)
      modifies this`disk, faults`boundary
      ensures disk == old(disk).(slots := old(disk).slots.(staging := disk.slots.staging,
                                                           experiment := disk.slots.experiment))
      ensures disk.slots.experiment in {old(disk).slots.experiment, Partial, Absent, Complete(version)}
      ensures old(disk).slots.experiment.Absent? ==> !disk.slots.experiment.Partial?
      ensures r.Ok? ==> disk.slots.experiment == Complete(version) && disk.slots.staging == Absent
      ensures r.Ok? ==> View(disk.slots) == StageStep(View(old(disk).slots), version)
      // only a populated experiment slot makes the harness's single step visible as two
      ensures r.Err? && old(View(disk.slots).experiment).None? ==>
                View(disk.slots) in {View(old(disk).slots), StageStep(View(old(disk).slots), version)}
      ensures r.Err? ==> FileError(r.error)
      ensures r.Err? ==> Planned(r.error, faults.plan)
      ensures old(disk).slots.staging.Absent? && old(disk).slots.experiment.Absent?
              && Quiet(faults.plan, old(faults.boundary), 5) ==>
                r.Ok? && faults.boundary == old(faults.boundary) + 5
    {
      r := Ok;
      :- Populate(version);
      :- RemoveDir(ExperimentDir);
      :- Rename(ExperimentStaging, ExperimentDir);
      return Ok;
    }

    /** Commit the candidate. Interrupted anywhere it can be run again, and seen through
        `View` it is one step: nothing happened yet, or all of it did. */
    method Promote() returns (r: Status)
      modifies this`disk, faults`boundary
      ensures disk == old(disk).(slots := disk.slots) && disk.slots.staging == old(disk).slots.staging
      ensures Recoverable(old(disk).slots) ==> Recoverable(disk.slots)
      ensures Recoverable(old(disk).slots) && r.Ok? ==>
                && View(disk.slots) == PromoteStep(View(old(disk).slots))
                && disk.slots.stable.Complete? && disk.slots.experiment == disk.slots.backup == Absent
      ensures Recoverable(old(disk).slots) && r.Err? ==>
                View(disk.slots) in {View(old(disk).slots), PromoteStep(View(old(disk).slots))}
      ensures Promotable(old(disk).slots) ==>
                && Promotable(disk.slots)
                && (View(disk.slots) == View(old(disk).slots) || View(disk.slots) == PromoteStep(View(old(disk).slots)))
      ensures Promotable(old(disk).slots) && r.Ok? ==>
                && View(disk.slots) == PromoteStep(View(old(disk).slots))
                && disk.slots.stable.Complete? && disk.slots.experiment == disk.slots.backup == Absent
      ensures Promoting(old(disk).slots) ==> Promoting(disk.slots)
      ensures r.Err? ==> FileError(r.error)
      ensures Promotable(old(disk).slots) ==> (r.Err? ==> Planned(r.error, faults.plan))
    {
      var experiment :- Version(ExperimentDir);
      if experiment.None? {
        var stable :- Version(StableDir);
        if stable.None? {
          return Err(Invalid(PromotionHasNoStableOrExperiment));
        }
        r := RemoveDir(StableOld);
        return;
      }
      if !disk.slots.stable.Absent? {
        :- RemoveDir(StableOld);
        :- Rename(StableDir, StableOld);
      }
      :- Rename(ExperimentDir, StableDir);
      r := RemoveDir(StableOld);
    }

    method Clear() returns (r: Status)
      modifies this`disk, faults`boundary
      ensures disk == old(disk).(slots := old(disk).slots.(experiment := disk.slots.experiment))
      ensures r.Ok? ==> disk.slots.experiment == Absent
      ensures disk.slots.experiment in {old(disk).slots.experiment, Partial, Absent}
      ensures r.Ok? ==> View(disk.slots) == ClearStep(View(old(disk).slots))
      ensures r.Err? ==> View(disk.slots) in {View(old(disk).slots), ClearStep(View(old(disk).slots))}
      ensures r.Err? ==> FileError(r.error)
      ensures r.Err? ==> Planned(r.error, faults.plan)
    {
      r := RemoveDir(ExperimentDir);
    }

    /** One journal line; the byte-level log makes it all or nothing. */
    method Append(entry: JournalEntry) returns (r: Status)
      modifies this`disk, faults`boundary
      ensures r.Ok? ==> disk == old(disk).(journal := old(disk).journal + [entry])
      ensures r.Err? ==> disk == old(disk) || disk == old(disk).(journal := old(disk).journal + [entry])
      ensures entry.seqNo != NextSeq(old(disk).journal) ==>
                r == Err(Invalid(SequenceDiscontinuity)) && disk == old(disk)
      ensures r.Err? ==> FileError(r.error)
      ensures entry.seqNo == NextSeq(old(disk).journal) ==> (r.Err? ==> Planned(r.error, faults.plan))
      ensures entry.seqNo == NextSeq(old(disk).journal) && Quiet(faults.plan, old(faults.boundary), 2) ==>
                r.Ok? && faults.boundary == old(faults.boundary) + 2
    {
      if entry.seqNo != NextSeq(disk.journal) {
        return Err(Invalid(SequenceDiscontinuity));
      }
      :- faults.Step();
      disk := disk.(journal := disk.journal + [entry]);
      :- faults.Step();
      return Ok;
    }

    method PersistOperation(operation: Operation) returns (r: Status)
      modifies this`disk, faults`boundary
      ensures r == WriteEnds(faults.plan, old(faults.boundary))
      ensures disk == if !Spared(faults.plan, old(faults.boundary) + 1) then old(disk)
                      else old(disk).(operation := Observed(operation))
      ensures faults.boundary == WriteStops(faults.plan, old(faults.boundary))
      ensures r.Err? ==> FileError(r.error)
      ensures r.Err? ==> Planned(r.error, faults.plan)
    {
      r := Ok;
      :- faults.Step();
      disk := disk.(operation := Observed(operation));
      :- faults.Step();
      return Ok;
    }

    method PersistArchive(operation: Operation) returns (r: Status)
      modifies this`disk, faults`boundary
      ensures r == WriteEnds(faults.plan, old(faults.boundary))
      ensures disk == if !Spared(faults.plan, old(faults.boundary) + 1) then old(disk)
                      else old(disk).(archives := old(disk).archives[operation.id := operation])
      ensures r.Ok? ==> faults.boundary == old(faults.boundary) + 2
      ensures r.Err? ==> FileError(r.error)
      ensures r.Err? ==> Planned(r.error, faults.plan)
    {
      r := Ok;
      :- faults.Step();
      disk := disk.(archives := disk.archives[operation.id := operation]);
      :- faults.Step();
      return Ok;
    }
  }

  function Moved(s: Slots, from: Name, to: Name): Slots {
    s.With(to, s.Get(from)).With(from, Absent)
  }

  function NextSeq(journal: seq<JournalEntry>): nat {
    if journal == [] then 0 else journal[|journal| - 1].seqNo + 1
  }

  /** Every directory state a promotion can be run from, whatever an earlier one left beside. */
  predicate Promotable(s: Slots) {
    || (s.experiment.Complete? && !s.stable.Partial?)
    || (s.experiment.Absent? && s.stable.Complete?)
  }

  /** Every directory state a promotion of the engine passes through. */
  predicate Promoting(s: Slots) {
    || (s.experiment.Complete? && s.stable.Complete? && s.backup.Absent?)
    || (s.experiment.Complete? && s.stable.Absent? && s.backup.Complete?)
    || (s.experiment.Absent? && s.stable.Complete?)
  }

  /** A promotion interrupted any number of times and then done again is one commit step of the
      two slots, and at no point is it anything but that step or nothing. */
  method PromoteUntilDone(store: FileStore, plans: seq<map<nat, Fault>>) returns (views: seq<TwoSlots>)
    requires Promotable(store.disk.slots)
    modifies store`disk, store.faults
    ensures View(store.disk.slots) == PromoteStep(View(old(store.disk).slots))
    ensures store.disk.slots.stable.Complete? && store.disk.slots.experiment == store.disk.slots.backup == Absent
    ensures store.disk == old(store.disk).(slots := store.disk.slots)
    ensures |views| == |plans|
    ensures forall i :: 0 <= i < |views| ==>
              views[i] == View(old(store.disk).slots) || views[i] == PromoteStep(View(old(store.disk).slots))
  {
    views := [];
    for i := 0 to |plans|
      invariant Promotable(store.disk.slots) && |views| == i
      invariant store.disk == old(store.disk).(slots := store.disk.slots)
      invariant View(store.disk.slots) == View(old(store.disk).slots)
                || View(store.disk.slots) == PromoteStep(View(old(store.disk).slots))
      invariant forall k :: 0 <= k < i ==>
                  views[k] == View(old(store.disk).slots) || views[k] == PromoteStep(View(old(store.disk).slots))
    {
      store.faults.Inject(plans[i]);
      var r := store.Promote();
      views := views + [View(store.disk.slots)];
    }
    store.faults.Inject(map[]);
    var r := store.Promote();
    if r.Err? {
      NothingPlanned(r.error);
    }
  }
}
