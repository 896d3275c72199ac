/** What every interruption of the transaction leaves behind, and what recovery makes of
    it. `Consistent` is the invariant of every run; `Recovered` is the durable state
    recovery converges to, computed from the disk alone. */
module Protocol {
  import opened State
  import opened Journals
  import opened Storage
  import opened Invariants
  import opened Worlds

  // ---------------------------------------------------------------- specification of recovery

  predicate InFlight(p: Phase) {
    !p.AtRest()
  }

  function CrashReason(p: Phase): string {
    if p == Staged then "crash before handover" else "crash during " + p.Name()
  }

  /** The version recovery settles on: the candidate once its promotion is durable, else the old one. */
  function RecoveredStable(d: Disk): Option<Version> {
    if LastIntent(d.journal) == Promoted && d.slots.experiment.Complete? then Content(d.slots.experiment)
    else Content(d.slots.stable)
  }

  function RecoveredJournal(journal: seq<JournalEntry>): seq<JournalEntry> {
    var last := LastIntent(journal);
    if InFlight(last) then journal + [RollbackEntry(|journal|, CrashReason(last))] else journal
  }

  function RollbackEntry(seqNo: nat, reason: string): JournalEntry {
    JournalEntry(seqNo, RolledBack, None, None, reason)
  }

  /** The durable state one uninterrupted recovery produces. */
  function Recovered(d: Disk): Disk {
    var v := RecoveredStable(d);
    d.(slots := Slots(if v.Some? then Complete(v.value) else Absent, Absent, Absent, d.slots.staging),
       journal := RecoveredJournal(d.journal))
  }

  // ---------------------------------------------------------------- the invariant

  predicate Serving(h: Host, slot: Slot, d: Dir) {
    && |h.live| == 1
    && h.live[0].slot == slot
    && d == Complete(h.live[0].version)
  }

  /** That service runs, unless it was stopped from outside. */
  predicate Rests(h: Host, slot: Slot, d: Dir) {
    Serving(h, slot, d) || (h.live == [] && h.stopped)
  }

  /** Nothing is under way: one complete stable slot, its service running unless it was stopped
      from outside, nothing parked or pending. */
  predicate Settled(d: Disk, h: Host) {
    (AtRest(d, h) && Rests(h, Stable, d.slots.stable)) == true
  }

  predicate SeqAt(journal: seq<JournalEntry>, i: nat)
    requires i < |journal|
  {
    journal[i].seqNo == i
  }

  predicate Numbered(journal: seq<JournalEntry>) {
    && (forall i :: 0 <= i < |journal| ==> SeqAt(journal, i))
    && Continues(Intents(journal))
  }

  /** The candidate's identity is in every entry of its transaction. */
  function Candidate(journal: seq<JournalEntry>): Dir {
    if journal == [] || journal[|journal| - 1].version.None? then Absent
    else Complete(journal[|journal| - 1].version.value)
  }

  predicate Incarnated(h: Host) {
    && h.incarnation >= 1
    && forall i :: 0 <= i < |h.live| ==> h.live[i].pid == h.live[i].startId && 1 <= h.live[i].startId <= h.incarnation
  }

  predicate ShapeIdle(s: Slots, h: Host) {
    && s.stable.Complete? && s.experiment == s.backup == Absent
    && Rests(h, Stable, s.stable) && !h.parked && h.pending.None?
  }

  predicate ShapeStaged(s: Slots, candidate: Dir, h: Host) {
    && s.stable.Complete? && (s.experiment == Absent || s.experiment == candidate) && s.backup == Absent
    && Rests(h, Stable, s.stable) && !h.parked && h.pending.None?
  }

  predicate ShapeHandover(s: Slots, candidate: Dir, h: Host) {
    && s.stable.Complete? && s.experiment == candidate && s.backup == Absent
    && (|| (Rests(h, Stable, s.stable)
            && (h.pending == None || h.pending == Some(Quiesce) || (h.pending == Some(Stop(Stable)) && h.parked)))
        || (h.live == [] && h.parked && (h.pending == None || h.pending == Some(Start(Experiment))))
        || (Serving(h, Experiment, candidate) && h.parked && h.pending.None?))
  }

  predicate ShapeTrial(s: Slots, candidate: Dir, h: Host) {
    && s.stable.Complete? && s.experiment == candidate && s.backup == Absent
    && Rests(h, Experiment, candidate) && h.parked && h.pending.None?
  }

  predicate ShapePromoted(s: Slots, candidate: Dir, h: Host) {
    && Promoting(s)
    && (if s.experiment.Complete? then s.experiment == candidate && Rests(h, Experiment, candidate) && h.parked
        && h.pending.None?
        else s.stable == candidate && Rests(h, Stable, candidate))
    && (h.pending.Some? ==> h.pending.value == Resume)
  }

  predicate ShapeRolledBack(s: Slots, h: Host) {
    && s.stable.Complete? && s.backup == Absent
    && (|| (Serving(h, Stable, s.stable))
        || h.live == []
        || (|h.live| == 1 && h.live[0].slot == Experiment && h.parked
            && (h.pending == None || h.pending == Some(Stop(Experiment)))
            && (s.experiment.Complete? ==> Serving(h, Experiment, s.experiment))))
    && (|| h.pending == None || h.pending == Some(Stop(Experiment))
        || h.pending == Some(Start(Stable)) || h.pending == Some(Resume))
  }

  predicate Shape(d: Disk, h: Host) {
    var candidate := Candidate(d.journal);
    match LastIntent(d.journal)
    case Idle => ShapeIdle(d.slots, h)
    case Staged => candidate.Complete? && ShapeStaged(d.slots, candidate, h)
    case HandingOver => candidate.Complete? && ShapeHandover(d.slots, candidate, h)
    case RunningExperiment => candidate.Complete? && ShapeTrial(d.slots, candidate, h)
    case Readback => candidate.Complete? && ShapeTrial(d.slots, candidate, h)
    case Promoted => candidate.Complete? && ShapePromoted(d.slots, candidate, h)
    case RolledBack => ShapeRolledBack(d.slots, h)
  }

  /** Holds at every boundary of every run, whatever failed before. */
  predicate Consistent(d: Disk, h: Host) {
    && Numbered(d.journal)
    && Incarnated(h) && h.workload == SYNTHETIC_WORKLOAD && (h.stopped ==> h.live == [])
    && (h.phase == Idle || h.phase in Intents(d.journal))
    && (h.phase == Promoted || h.phase == RolledBack ==> !d.slots.experiment.Complete?)
    && Shape(d, h)
  }

  /** A Promoted entry was read back: a probe taken after the candidate was started reported the
      promoted version, an incarnation newer than any there was when the transaction was about
      to begin, and not the one seen before handover. */
  predicate AttestedAt(journal: seq<JournalEntry>, sights: Sights, i: nat)
    requires i < |journal|
  {
    journal[i].intent == Promoted ==>
      && i >= 4 && i - 1 in sights.probes && i - 4 in sights.ages
      && journal[i].version == Some(sights.probes[i - 1].version)
      && journal[i - 3].intent == HandingOver && journal[i - 3].version == journal[i].version
      && journal[i - 3].priorStartId != Some(sights.probes[i - 1].startId)
      && sights.probes[i - 1].startId > sights.ages[i - 4]
  }

  predicate Attested(journal: seq<JournalEntry>, sights: Sights) {
    forall i :: 0 <= i < |journal| ==> AttestedAt(journal, sights, i)
  }

  /** Every effect asked for so far was due: under its own durable intent, with nothing in flight. */
  predicate Obeyed(demands: seq<Demand>) {
    forall i :: 0 <= i < |demands| ==> demands[i].Justified()
  }

  predicate Sound(d: Disk, h: Host, seen: Seen) {
    (Consistent(d, h) && Attested(d.journal, seen.sights) && Obeyed(seen.demands)) == true
  }

  lemma DemandIsSound(d: Disk, h: Host, seen: Seen, a: Action)
    requires Sound(d, h, seen) && Issuable(a, d, h)
    ensures Sound(d, h, Noted(seen, a, d, h))
  {
  }

  // ---------------------------------------------------------------- consequences of the invariant

  /** In every phase at most one service runs, it runs what its slot holds, and stable can be read. */
  lemma ShapeFacts(d: Disk, h: Host)
    requires Shape(d, h)
    ensures View(d.slots).stable.Some?
    ensures h.live == [] || (|h.live| == 1 &&
      var held := SlotVersion(View(d.slots), h.live[0].slot); held == None || held == Some(h.live[0].version))
  {
    match LastIntent(d.journal) {
      case Idle =>
      case Staged =>
      case HandingOver =>
      case RunningExperiment =>
      case Readback =>
      case Promoted =>
      case RolledBack =>
    }
  }

  /** The stable directory is complete at every instant but one: between the renames of a durable
      promotion, when the candidate and the backup both are. */
  lemma StableUnlessPromoting(d: Disk, h: Host)
    requires Shape(d, h)
    ensures d.slots.stable.Complete?
         || (LastIntent(d.journal) == Promoted && d.slots.stable.Absent? && d.slots.experiment.Complete?
             && d.slots.backup.Complete?)
    ensures Recoverable(d.slots)
  {
    match LastIntent(d.journal) {
      case Idle =>
      case Staged =>
      case HandingOver =>
      case RunningExperiment =>
      case Readback =>
      case Promoted =>
      case RolledBack =>
    }
  }

  /** The workload is parked for as long as a candidate runs beside the stable slot. */
  lemma CandidateRunsParked(d: Disk, h: Host, i: nat)
    requires Shape(d, h) && i < |h.live| && h.live[i].slot == Experiment
    ensures h.parked
  {
    match LastIntent(d.journal) {
      case Idle =>
      case Staged =>
      case HandingOver =>
      case RunningExperiment =>
      case Readback =>
      case Promoted =>
      case RolledBack =>
    }
  }

  lemma ConsistentIsClean(d: Disk, h: Host)
    requires Consistent(d, h)
    ensures Clean(d, h)
  {
    ShapeFacts(d, h);
    var s := Observe(d, h);
    assert NeverDualRun.Holds(s) && NeverBricked.Holds(s) && LiveProcessMatchesSlot.Holds(s);
    assert JournalPrecedesPhase.Holds(s) && TerminalLeavesNoExperiment.Holds(s)
           && ManagedCopyNeverSelfUpgrades.Holds(s);
    forall o: Oracle ensures o.Holds(s) {
      match o {
        case NeverDualRun =>
        case NeverBricked =>
        case LiveProcessMatchesSlot =>
        case JournalPrecedesPhase =>
        case TerminalLeavesNoExperiment =>
        case ManagedCopyNeverSelfUpgrades =>
      }
    }
  }

  /** A call that timed out may land at any later moment: the run stays within its invariant. */
  lemma LandingIsSafe(d: Disk, h: Host, h': Host)
    requires Consistent(d, h) && Drained(h, View(d.slots), h')
    ensures Consistent(d, h') && h'.pending.None?
  {
    if h.pending.Some? && h' != h.(pending := None) {
      match h.pending.value {
        case Quiesce => LastIsListed(d.journal); assert Shape(d, h');
        case Stop(_) => assert Shape(d, h');
        case Start(_) => assert Shape(d, h');
        case Resume => assert Shape(d, h');
      }
    } else {
      assert Shape(d, h');
    }
  }

  /** A new intent keeps the invariant when the effects so far are the ones it starts from. */
  lemma IntentIsSafe(d: Disk, h: Host, entry: JournalEntry)
    requires Consistent(d, h) && entry.seqNo == |d.journal|
    requires Legal(Origin(Intents(d.journal)), entry.intent)
    requires Shape(Appended(d, entry), h)
    ensures Consistent(Appended(d, entry), h)
  {
    NumberedSnoc(d.journal, entry);
    var journal := d.journal + [entry];
    assert forall p :: p in Intents(d.journal) ==> p in Intents(journal);
  }

  lemma NumberedSnoc(journal: seq<JournalEntry>, entry: JournalEntry)
    requires Numbered(journal) && entry.seqNo == |journal|
    requires Legal(Origin(Intents(journal)), entry.intent)
    ensures Numbered(journal + [entry]) && Intents(journal + [entry]) == Intents(journal) + [entry.intent]
  {
    var journal' := journal + [entry];
    assert Intents(journal') == Intents(journal) + [entry.intent];
    ContinuesSnoc(Intents(journal), entry.intent);
    forall i | 0 <= i < |journal'| ensures SeqAt(journal', i) {
      if i < |journal| {
        assert SeqAt(journal, i);
      }
    }
  }

  lemma OriginIsLast(journal: seq<JournalEntry>)
    ensures Origin(Intents(journal)) == if LastIntent(journal).AtRest() then Idle else LastIntent(journal)
    ensures Numbered(journal) ==> NextSeq(journal) == |journal|
  {
    if Numbered(journal) && journal != [] {
      assert SeqAt(journal, |journal| - 1);
    }
  }

  /** An empty journal is the only one whose last intent reads as Idle. */
  lemma WrittenIsNotIdle(journal: seq<JournalEntry>)
    requires Numbered(journal) && journal != []
    ensures LastIntent(journal) != Idle
  {
    assert ContinuesAt(Intents(journal), |journal| - 1);
  }

  /** Between the renames of a promotion, and after them, the run is within its invariant. */
  lemma CommitIsSafe(d: Disk, h: Host, d': Disk, h': Host)
    requires Consistent(d, h) && LastIntent(d.journal) == Promoted && h.pending.None?
    requires d' == d.(slots := d'.slots)
    requires Promoting(d.slots) ==> Promoting(d'.slots)
    requires Promoting(d.slots) ==> View(d'.slots) == View(d.slots) || View(d'.slots) == PromoteStep(View(d.slots))
    requires h' == PromotedHost(d', h) || (h' == h && d' == d)
    ensures Consistent(d', h') && h'.pending.None? && Clean(d', h') && Clean(d, h)
    ensures RecoveredStable(d') == RecoveredStable(d)
    ensures Promoting(d.slots)
    ensures d'.slots.experiment == Absent && h' == PromotedHost(d', h) ==> Rests(h', Stable, d'.slots.stable)
  {
    assert Promoting(d.slots);
    ConsistentIsClean(d, h);
    if h' == PromotedHost(d', h) {
      LastIsListed(d.journal);
      if d'.slots.experiment.Complete? {
        assert h' == h;
      } else {
        assert d'.slots.stable == Candidate(d.journal);
        assert Rests(h', Stable, d'.slots.stable);
      }
      assert Shape(d', h');
    }
    ConsistentIsClean(d', h');
  }

  /** Staging the candidate, finished or not, is within the Staged phase. */
  lemma StagingIsSafe(d: Disk, h: Host, d': Disk, h': Host)
    requires Consistent(d, h) && LastIntent(d.journal) == Staged && d.slots.experiment == Absent
    requires d' == d.(slots := d.slots.(staging := d'.slots.staging, experiment := d'.slots.experiment))
    requires d'.slots.experiment == Absent || d'.slots.experiment == Candidate(d.journal)
    requires h' == StagedHost(d', h) || (h' == h && d' == d)
    ensures Consistent(d', h') && Clean(d', h') && Clean(d, h)
  {
    LastIsListed(d.journal);
    assert Shape(d', h');
    ConsistentIsClean(d, h);
    ConsistentIsClean(d', h');
  }

  /** Dropping the experiment of a restored stable service, finished or not, is within the RolledBack phase. */
  lemma DropIsSafe(d: Disk, h: Host, d': Disk, h': Host)
    requires Consistent(d, h) && LastIntent(d.journal) == RolledBack && Rests(h, Stable, d.slots.stable)
    requires d' == d.(slots := d.slots.(experiment := d'.slots.experiment))
    requires d'.slots.experiment in [d.slots.experiment, Partial, Absent]
    requires h' == h || (h' == h.(phase := RolledBack) && d'.slots.experiment == Absent)
    ensures Consistent(d', h') && Clean(d', h') && Clean(d, h)
  {
    LastIsListed(d.journal);
    assert Shape(d', h');
    ConsistentIsClean(d, h);
    ConsistentIsClean(d', h');
  }

  /** A rollback may be decided in every unfinished phase once no call is pending. */
  lemma RollbackIsSafe(d: Disk, h: Host, reason: string)
    requires Consistent(d, h) && h.pending.None? && InFlight(LastIntent(d.journal))
    ensures Shape(Appended(d, RollbackEntry(|d.journal|, reason)), h)
    ensures Legal(Origin(Intents(d.journal)), RolledBack)
  {
    OriginIsLast(d.journal);
  }

  lemma AttestedSnoc(journal: seq<JournalEntry>, sights: Sights, entry: JournalEntry)
    requires Attested(journal, sights) && entry.intent != Promoted
    ensures Attested(journal + [entry], sights)
  {
    forall i | 0 <= i < |journal| + 1 ensures AttestedAt(journal + [entry], sights, i) {
      if i < |journal| {
        assert AttestedAt(journal, sights, i);
      }
    }
  }

  /** A later probe is recorded under a later journal length. */
  lemma AttestedProbe(journal: seq<JournalEntry>, sights: Sights, sights': Sights)
    requires Attested(journal, sights)
    requires |journal| in sights'.ages && sights'.ages == sights.ages[|journal| := sights'.ages[|journal|]]
    requires sights'.probes == sights.probes
          || (|journal| in sights'.probes && sights'.probes == sights.probes[|journal| := sights'.probes[|journal|]])
    ensures Attested(journal, sights')
  {
    forall i | 0 <= i < |journal| ensures AttestedAt(journal, sights', i) {
      assert AttestedAt(journal, sights, i);
    }
  }

  lemma SettledIsRecovered(d: Disk, h: Host)
    requires Settled(d, h)
    ensures Recovered(d) == d
  {
  }

  /** Recovery of a rolled-back or promoted disk sees neither the experiment directory's
      remains nor the backup. */
  lemma SameRecovery(d: Disk, d': Disk)
    requires LastIntent(d.journal).AtRest()
    requires d' == d.(slots := d'.slots) && d'.slots.staging == d.slots.staging
    requires RecoveredStable(d') == RecoveredStable(d)
    ensures Recovered(d') == Recovered(d)
  {
  }

  /** Recording the rollback recovery would record does not change what recovery gives. */
  lemma RollbackIsRecovery(d: Disk, d': Disk)
    requires InFlight(LastIntent(d.journal))
    requires d'.journal == d.journal + [RollbackEntry(|d.journal|, CrashReason(LastIntent(d.journal)))]
    requires d' == d.(slots := d.slots.(experiment := d'.slots.experiment), journal := d'.journal)
    ensures Recovered(d') == Recovered(d)
  {
  }

  lemma RecoveryIsIdempotent(d: Disk)
    ensures Recovered(Recovered(d)) == Recovered(d)
  {
  }

  /** Where in a run the engine issues each host call. */
  predicate Due(e: HostEffect, d: Disk, h: Host) {
    && Issuable(Action.Call(e), d, h)
    && match e
       case Quiesce => Rests(h, Stable, d.slots.stable)
       case Stop(slot) => slot == Stable ==> Rests(h, Stable, d.slots.stable) && h.parked
       case Start(slot) => h.live == [] && (slot == Experiment ==> h.parked)
       case Resume =>
         Rests(h, Stable, d.slots.stable)
         && (LastIntent(d.journal) == Promoted ==> !d.slots.experiment.Complete?)
  }

  lemma LostCallIsSafe(e: HostEffect, d: Disk, h: Host)
    requires Shape(d, h) && Due(e, d, h)
    ensures Shape(d, h.(pending := Some(e)))
  {
    match e {
      case Quiesce =>
      case Stop(_) =>
      case Start(_) =>
      case Resume =>
    }
  }

  lemma StartIsSafe(slot: Slot, d: Disk, h: Host)
    requires Consistent(d, h) && Due(Start(slot), d, h)
    ensures Consistent(d, Land(Start(slot), h, View(d.slots)))
  {
    var h' := Land(Start(slot), h, View(d.slots));
    assert h'.live == [LiveProcess(slot, h'.live[0].version, h.incarnation + 1, h.incarnation + 1)];
  }

  /** However a due call ends (not issued, lost in flight, done), the run stays within its invariant. */
  lemma DueCallIsSafe(e: HostEffect, d: Disk, h: Host)
    requires Consistent(d, h) && Due(e, d, h)
    ensures Consistent(d, h.(pending := Some(e)))
    ensures Consistent(d, Land(e, h, View(d.slots)))
  {
    LostCallIsSafe(e, d, h);
    if e.Start? {
      StartIsSafe(e.slot, d, h);
    } else {
      LastIsListed(d.journal);
      assert Shape(d, Land(e, h, View(d.slots)));
    }
  }

  lemma LastIsListed(journal: seq<JournalEntry>)
    requires journal != []
    ensures LastIntent(journal) in Intents(journal)
  {
    assert Intents(journal)[|journal| - 1] == LastIntent(journal);
  }

  predicate PromotesOnly(journal: seq<JournalEntry>, i: nat, version: Version)
    requires i < |journal|
  {
    journal[i].intent == Promoted ==> journal[i].version == Some(version)
  }

  /** How far an upgrade to `version` that started on `d0` has come: what recovery would
      settle on changes exactly when its Promoted intent is durable. */
  predicate Progress(d0: Disk, d: Disk, version: Version) {
    && d.operation == d0.operation && d.archives == d0.archives
    && d0.journal <= d.journal
    && (forall i :: |d0.journal| <= i < |d.journal| ==> PromotesOnly(d.journal, i, version))
    && RecoveredStable(d) ==
         if |d.journal| > |d0.journal| && LastIntent(d.journal) == Promoted then Some(version)
         else Content(d0.slots.stable)
  }

  /** The forward intents of one upgrade, each allowed once the effects of the one before are done. */
  predicate Ready(intent: Phase, d: Disk, h: Host, version: Version) {
    && Legal(if LastIntent(d.journal).AtRest() then Idle else LastIntent(d.journal), intent)
    && h.pending.None?
    && d.slots.stable.Complete? && d.slots.backup == Absent
    && match intent
       case Staged => d.slots.experiment == Absent && Rests(h, Stable, d.slots.stable) && !h.parked
       case HandingOver => d.slots.experiment == Complete(version) && Rests(h, Stable, d.slots.stable)
       case RunningExperiment => d.slots.experiment == Complete(version) && Serving(h, Experiment, Complete(version))
       && h.parked
       case Readback => d.slots.experiment == Complete(version) && Serving(h, Experiment, Complete(version)) && h.parked
       case Promoted => d.slots.experiment == Complete(version) && Serving(h, Experiment, Complete(version)) && h.parked
       case _ => false
  }

  predicate Underway(d0: Disk, version: Version, d: Disk, h: Host, seen: Seen) {
    Sound(d, h, seen) && Progress(d0, d, version)
  }

  lemma ProgressSnoc(d0: Disk, d: Disk, version: Version, entry: JournalEntry)
    requires Progress(d0, d, version)
    requires entry.intent == Promoted ==> entry.version == Some(version)
    ensures d0.journal <= d.journal + [entry]
    ensures forall i :: |d0.journal| <= i < |d.journal| + 1 ==> PromotesOnly(d.journal + [entry], i, version)
  {
    forall i | |d0.journal| <= i < |d.journal| + 1 ensures PromotesOnly(d.journal + [entry], i, version) {
      if i < |d.journal| {
        assert PromotesOnly(d.journal, i, version);
      }
    }
  }

  /** Rolling an unfinished transaction back, finished or not, leaves the old version to recover. */
  lemma RollbackProgress(d0: Disk, d: Disk, d': Disk, version: Version, reason: string)
    requires Progress(d0, d, version) && InFlight(LastIntent(d.journal))
    requires d' == d.(slots := d.slots.(experiment := d'.slots.experiment), journal := d'.journal)
    requires d' == d || d'.journal == d.journal + [RollbackEntry(|d.journal|, reason)]
    ensures Progress(d0, d', version)
  {
    ProgressSnoc(d0, d, version, RollbackEntry(|d.journal|, reason));
  }

  lemma AdvanceIsSafe(d0: Disk, d: Disk, h: Host, version: Version, entry: JournalEntry)
    requires Consistent(d, h) && Progress(d0, d, version)
    requires Ready(entry.intent, d, h, version)
    requires entry.version == Some(version) && (entry.intent == Staged ==> d == d0)
    ensures Legal(Origin(Intents(d.journal)), entry.intent) && Shape(Appended(d, entry), h)
    ensures Progress(d0, Appended(d, entry), version)
  {
    OriginIsLast(d.journal);
    var d' := Appended(d, entry);
    ProgressSnoc(d0, d, version, entry);
    assert LastIntent(d'.journal) == entry.intent && Candidate(d'.journal) == Complete(version);
    if LastIntent(d.journal) == Promoted {
      assert entry.intent == Staged;
    }
  }

  /** What the readback gives the Promoted entry: an observed version and a fresh incarnation. */
  lemma AttestedPromotion(journal: seq<JournalEntry>, sights: Sights, version: Version)
    requires Numbered(journal) && Attested(journal, sights) && LastIntent(journal) == Readback
    requires |journal| >= 4 && |journal| - 1 in sights.probes && sights.probes[|journal| - 1].version == version
    requires |journal| - 4 in sights.ages && sights.probes[|journal| - 1].startId > sights.ages[|journal| - 4]
    requires var handover := journal[|journal| - 3];
             handover.version == Some(version) && handover.priorStartId != Some(sights.probes[|journal| - 1].startId)
    ensures Attested(journal + [JournalEntry(|journal|, Promoted, Some(version), None, "")], sights)
  {
    var s, n := Intents(journal) + [Promoted], |journal|;
    OriginIsLast(journal);
    ContinuesSnoc(Intents(journal), Promoted);
    RestReachedBy(s, n);
    assert s[n - 3] == s[n - 4..n + 1][1] && s[n - 3] == journal[n - 3].intent;
    var journal' := journal + [JournalEntry(n, Promoted, Some(version), None, "")];
    forall i | 0 <= i < n + 1 ensures AttestedAt(journal', sights, i) {
      if i < n {
        assert AttestedAt(journal, sights, i);
      }
    }
  }

  /** The handover entry is the second of the transaction that began on `d0`. */
  predicate HandedOver(d0: Disk, d: Disk, version: Version, prior: Option<Evidence>) {
    && |d.journal| > |d0.journal| + 1
    && var entry := d.journal[|d0.journal| + 1];
       entry.version == Some(version)
       && entry.priorStartId == if prior.Some? then Some(prior.value.startId) else None
  }

  /** While the candidate runs, each intent makes the next one ready. */
  lemma TrialContinues(d0: Disk, d: Disk, h: Host, version: Version, prior: Option<Evidence>, entry: JournalEntry)
    requires Ready(entry.intent, d, h, version) && HandedOver(d0, d, version, prior)
    requires entry.intent == RunningExperiment || entry.intent == Readback
    ensures HandedOver(d0, Appended(d, entry), version, prior)
    ensures LastIntent(Appended(d, entry).journal) == entry.intent
    ensures Ready(if entry.intent == Readback then Promoted else Readback, Appended(d, entry), h, version)
  {
    OriginIsLast(Appended(d, entry).journal);
  }

  /** A fresh candidate whose probe reports the target may be promoted. */
  lemma FreshCandidateIsAttested(d0: Disk, d: Disk, sights: Sights, version: Version, prior: Option<Evidence>,
                                 evidence: Evidence)
    requires Numbered(d.journal) && Attested(d.journal, sights) && LastIntent(d.journal) == Readback
    requires HandedOver(d0, d, version, prior) && |d.journal| == |d0.journal| + 4
    requires |d.journal| - 1 in sights.probes && sights.probes[|d.journal| - 1] == evidence
             && evidence.version == version
    requires |d0.journal| in sights.ages && evidence.startId > sights.ages[|d0.journal|]
    requires prior.Some? ==> prior.value.startId != evidence.startId
    ensures Attested(d.journal + [JournalEntry(|d.journal|, Promoted, Some(version), None, "")], sights)
  {
    AttestedPromotion(d.journal, sights, version);
  }

  /** Between workers the service may be stopped from outside in any phase, and started wherever
      that cannot make two run. */
  lemma HandIsSafe(d: Disk, h: Host, hand: Hand)
    requires Consistent(d, h)
    ensures Consistent(d, Handled(hand, d, h))
    ensures Settled(d, h) ==> Settled(d, Handled(hand, d, h))
  {
    match hand {
      case Leave =>
      case StopService =>
        assert Shape(d, Handled(hand, d, h));
      case StartService =>
        OutsideStart(d, h);
    }
  }

  /** Exactly when the run survives a start of the stable service from outside. */
  lemma OutsideStart(d: Disk, h: Host)
    requires Consistent(d, h)
    ensures Consistent(d, Land(Start(Stable), h, View(d.slots))) <==> Startable(d, h)
  {
    var h' := Land(Start(Stable), h, View(d.slots));
    ShapeFacts(d, h);
    if h.live == [] {
      assert h'.live == [LiveProcess(Stable, View(d.slots).stable.value, h.incarnation + 1, h.incarnation + 1)];
    } else if h.live[0].slot == Stable {
      assert h' == h;
    } else {
      ShapeFacts(d, h);
      if Shape(d, h') {
        ShapeFacts(d, h');
      }
    }
    match LastIntent(d.journal) {
      case Idle =>
      case Staged =>
      case HandingOver =>
      case RunningExperiment =>
      case Readback =>
      case Promoted =>
      case RolledBack =>
    }
  }

  /** Why a handover has to be left alone: the service is stopped, the call that starts the
      candidate may still land, and a start from outside makes two run once it does. */
  lemma OutsideStartMayMakeTwoRun(v: Version, candidate: Version) returns (d: Disk, h: Host)
    ensures Consistent(d, h) && LastIntent(d.journal) == HandingOver && h.live == []
            && h.pending == Some(Start(Experiment))
    ensures var h' := Land(Start(Stable), h, View(d.slots));
            var h'' := Land(Start(Experiment), h', View(d.slots)).(pending := None);
            !Consistent(d, h') && Drained(h', View(d.slots), h'') && |h''.live| == 2 && !Clean(d, h'')
  {
    var journal :=
      [JournalEntry(0, Staged, Some(candidate), None, ""), JournalEntry(1, HandingOver, Some(candidate), Some(1), "")];
    d := Disk(Slots(Complete(v), Complete(candidate), Absent, Absent), journal, Genesis, map[]);
    h := Host([], 1, true, SYNTHETIC_WORKLOAD, HandingOver, Some(Start(Experiment)), false);
    NumberedSnoc([], journal[0]);
    NumberedSnoc([journal[0]], journal[1]);
    assert journal == [journal[0]] + [journal[1]];
    assert Numbered(journal);
    LastIsListed(journal);
    OutsideStart(d, h);
  }
}
