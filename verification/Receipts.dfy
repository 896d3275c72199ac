/** The second durable record: what `operation.json` and the archived receipts claim, and
    the invariant that ties those claims to the journal and the slots. */
module Receipts {
  import opened State
  import opened Storage
  import opened Invariants
  import opened Worlds
  import opened Protocol
  import opened Journals

  /** What happened to each operation, for stating properties of whole runs: the journal
      length when it was opened, the operations handed to the engine in order, and the
      version stable held when its outcome was written. */
  datatype History = History(begun: map<string, nat>, drives: seq<string>, held: map<string, Version>)

  predicate IsPromotion(journal: seq<JournalEntry>, i: nat, v: Version)
    requires i < |journal|
  {
    journal[i].intent == Promoted && journal[i].version == Some(v)
  }

  predicate PromotedSince(journal: seq<JournalEntry>, n: nat, v: Version) {
    exists i :: n <= i < |journal| && IsPromotion(journal, i, v)
  }

  /** An operation is opened between transactions. */
  predicate BeganAtRest(journal: seq<JournalEntry>, n: nat) {
    n <= |journal| && LastIntent(journal[..n]).AtRest()
  }

  /** The stable version a terminal receipt claims. */
  function Claim(op: Operation): Version
    requires op.outcome.Some?
  {
    if op.outcome.value == OPromoted then op.targetVersion else op.fromVersion
  }

  /** A terminal receipt was true when it was written, and a promotion it reports is in the
      journal written since the operation was opened (unless there was nothing to change). */
  predicate Truthful(op: Operation, hist: History, journal: seq<JournalEntry>) {
    && op.outcome.Some?
    && op.id in hist.begun && op.id in hist.held
    && hist.held[op.id] == Claim(op)
    && BeganAtRest(journal, hist.begun[op.id])
    && (op.outcome.value == OUpToDate ==> op.targetVersion == op.fromVersion)
    && (op.outcome.value == OPromoted && op.targetVersion != op.fromVersion ==>
          PromotedSince(journal, hist.begun[op.id], op.targetVersion))
  }

  /** An open operation: recovery settles on its target exactly when a Promoted entry was
      journaled since it was opened, and on the version it started from otherwise. */
  predicate InProgress(op: Operation, n: nat, d: Disk) {
    && BeganAtRest(d.journal, n)
    && (forall i :: n <= i < |d.journal| ==> PromotesOnly(d.journal, i, op.targetVersion))
    && RecoveredStable(d) ==
         Some(if |d.journal| > n && LastIntent(d.journal) == Promoted then op.targetVersion else op.fromVersion)
  }

  /** What the stable directory holds, as the runner reads it. */
  function StableNow(d: Disk): Version {
    if d.slots.stable.Complete? then d.slots.stable.version else "0.0.0"
  }

  /** When an outcome may be written for an open operation. */
  predicate Recordable(op: Operation, outcome: Outcome, n: nat, d: Disk, h: Host) {
    && Settled(d, h)
    && (if outcome == OPromoted then
          d.slots.stable == Complete(op.targetVersion) && LastIntent(d.journal) == Promoted &&
          (op.targetVersion == op.fromVersion || |d.journal| > n)
        else d.slots.stable == Complete(op.fromVersion))
    && (outcome == OUpToDate ==> op.targetVersion == op.fromVersion)
  }

  predicate Archived(d: Disk, hist: History) {
    forall id :: id in d.archives ==> d.archives[id].id == id && Truthful(d.archives[id], hist, d.journal)
  }

  predicate Current(d: Disk, h: Host, hist: History) {
    match d.operation
    case Unreadable => true
    case Genesis => d.journal == [] && hist.drives == []
    case Observed(op) =>
      && op.id in hist.begun
      && (op.id in d.archives ==> d.archives[op.id] == op)
      && (if op.outcome.Some? then
            && Truthful(op, hist, d.journal) && Settled(d, h) && d.slots.stable == Complete(Claim(op))
            && (op.outcome.value == OPromoted ==> LastIntent(d.journal) == Promoted)
          else InProgress(op, hist.begun[op.id], d))
  }

  predicate Known(d: Disk, id: string) {
    id in d.archives || (d.operation.Observed? && d.operation.operation.id == id)
  }

  /** No operation was driven twice, and every driven one is still on record. */
  predicate DrivenOnce(d: Disk, hist: History) {
    && (forall i, j :: 0 <= i < j < |hist.drives| ==> hist.drives[i] != hist.drives[j])
    && (forall i :: 0 <= i < |hist.drives| ==> Known(d, hist.drives[i]))
  }

  /** Journal and receipts agree, in every state any sequence of requests, recoveries and crashes reaches. */
  predicate Agree(d: Disk, h: Host, hist: History) {
    (d.operation != Unreadable ==> Archived(d, hist) && Current(d, h, hist) && DrivenOnce(d, hist)) == true
  }

  /** The terminal receipt of an operation, current or archived. */
  function Receipt(d: Disk, id: string): Option<Operation> {
    if d.operation.Observed? && d.operation.operation.id == id
       && d.operation.operation.outcome.Some? then Some(d.operation.operation)
    else if id in d.archives then Some(d.archives[id])
    else None
  }

  /** Receipts are forever: none changes, none is lost, and the record stays readable. */
  ghost predicate Keeps(d: Disk, d': Disk) {
    (
    && (forall id: string :: Receipt(d, id).Some? ==> Receipt(d', id) == Receipt(d, id))
    && (d.operation != Unreadable ==> d'.operation != Unreadable)
    ) == true
  }

  // ---------------------------------------------------------------- reading

  function ReadArchive(d: Disk, id: string): OperationRead {
    if id !in d.archives then Genesis
    else if d.archives[id].id != id || d.archives[id].outcome.None? then Unreadable
    else Observed(d.archives[id])
  }

  /** Does this request still have to run? A finished one is replayed from its receipt. */
  function Prior(d: Disk, id: string, target: Version, recover: bool): Status {
    match d.operation
    case Unreadable => Err(Invalid(ReceiptUnreadable))
    case _ =>
      match ReadArchive(d, id)
      case Unreadable => Err(Invalid(ReceiptUnreadable))
      case Observed(op) => Judged(op, target)
      case Genesis =>
        if d.operation.Observed? && d.operation.operation.id == id then Judged(d.operation.operation, target)
        else if recover then Err(Invalid(RecoveryOperationNotFound))
        else Ok
  }

  function Judged(op: Operation, target: Version): Status {
    if op.targetVersion != target then Err(Invalid(OperationIdConflict))
    else if op.outcome.Some? then Err(Replay(op))
    else Ok
  }

  datatype Transaction = Transaction(phase: Phase, stable: Version, reason: string)

  /** Phase and stable version from the durable files. */
  function TransactionState(d: Disk): Result<Transaction> {
    var phase := LastIntent(d.journal);
    match d.slots.stable
    case Partial => Failure(Invalid(IncompleteSlot))
    case _ =>
      if InFlight(phase) && !d.slots.experiment.Complete? then Failure(Invalid(IncompleteSlot))
      else Success(Transaction(phase, StableNow(d), if d.journal == [] then "" else d.journal[|d.journal| - 1].reason))
  }

  // ---------------------------------------------------------------- transitions keep the agreement

  lemma KeepsTransitive(d: Disk, d': Disk, d'': Disk)
    requires Keeps(d, d') && Keeps(d', d'')
    ensures Keeps(d, d'')
  {
    forall id | Receipt(d, id).Some? ensures Receipt(d'', id) == Receipt(d, id) {
      assert Receipt(d', id) == Receipt(d, id);
    }
  }

  lemma TruthfulGrows(op: Operation, hist: History, hist': History, journal: seq<JournalEntry>,
                      journal': seq<JournalEntry>)
    requires Truthful(op, hist, journal) && journal <= journal'
    requires op.id in hist'.begun && hist'.begun[op.id] == hist.begun[op.id]
    requires op.id in hist'.held && hist'.held[op.id] == hist.held[op.id]
    ensures Truthful(op, hist', journal')
  {
    assert journal'[..hist.begun[op.id]] == journal[..hist.begun[op.id]];
    if op.outcome.value == OPromoted && op.targetVersion != op.fromVersion {
      var i :| hist.begun[op.id] <= i < |journal| && IsPromotion(journal, i, op.targetVersion);
      assert IsPromotion(journal', i, op.targetVersion);
    }
  }

  lemma ArchivedGrows(d: Disk, hist: History, d': Disk, hist': History)
    requires Archived(d, hist) && d'.archives == d.archives && d.journal <= d'.journal
    requires forall id :: id in d.archives && id in hist.begun ==>
               id in hist'.begun && hist'.begun[id] == hist.begun[id]
    requires forall id :: id in d.archives && id in hist.held ==> id in hist'.held && hist'.held[id] == hist.held[id]
    ensures Archived(d', hist')
  {
    forall id | id in d'.archives ensures d'.archives[id].id == id && Truthful(d'.archives[id], hist', d'.journal) {
      TruthfulGrows(d.archives[id], hist, hist', d.journal, d'.journal);
    }
  }

  /** Opening an operation nobody has used, on a settled installation, once its predecessor is archived. */
  lemma OpenIsSafe(d: Disk, h: Host, hist: History, op: Operation)
    requires d.operation != Unreadable && Agree(d, h, hist) && Settled(d, h)
    requires op.outcome.None? && d.slots.stable == Complete(op.fromVersion)
    requires op.id !in d.archives
    requires d.operation.Observed? ==> d.operation.operation.id in d.archives
    ensures var d' := d.(operation := Observed(op));
            var hist' := hist.(begun := hist.begun[op.id := |d.journal|]);
            Agree(d', h, hist') && Keeps(d, d') && Keeps(d', d)
    ensures op.id !in hist.drives
  {
    var d' := d.(operation := Observed(op));
    var hist' := hist.(begun := hist.begun[op.id := |d.journal|]);
    ArchivedGrows(d, hist, d', hist');
    assert d.journal[..|d.journal|] == d.journal;
    forall i | 0 <= i < |hist.drives| ensures hist.drives[i] in d.archives {
      assert Known(d, hist.drives[i]);
    }
    assert DrivenOnce(d', hist');
  }

  /** Progress reports and outcomes of the open operation. */
  lemma TransitionIsSafe(d: Disk, h: Host, hist: History, op: Operation, op': Operation)
    requires d.operation == Observed(op) && Agree(d, h, hist) && op.outcome.None?
    requires op'.id == op.id && op'.fromVersion == op.fromVersion && op'.targetVersion == op.targetVersion
    requires op.id in hist.begun && op'.outcome.Some? ==> Recordable(op, op'.outcome.value, hist.begun[op.id], d, h)
    ensures var d' := d.(operation := Observed(op'));
            var hist' := if op'.outcome.Some? then hist.(held := hist.held[op.id := StableNow(d)]) else hist;
            Agree(d', h, hist') && Keeps(d, d')
  {
    var d' := d.(operation := Observed(op'));
    var hist' := if op'.outcome.Some? then hist.(held := hist.held[op.id := StableNow(d)]) else hist;
    assert op.id !in d.archives by {
      assert Archived(d, hist);
    }
    ArchivedGrows(d, hist, d', hist');
    forall i | 0 <= i < |hist.drives| ensures Known(d', hist.drives[i]) {
      assert Known(d, hist.drives[i]);
    }
    if op'.outcome == Some(OPromoted) && op.targetVersion != op.fromVersion {
      var last := |d.journal| - 1;
      assert PromotesOnly(d.journal, last, op.targetVersion);
      assert IsPromotion(d.journal, last, op.targetVersion);
    }
  }

  lemma ArchiveIsSafe(d: Disk, h: Host, hist: History, op: Operation)
    requires d.operation == Observed(op) && Agree(d, h, hist) && op.outcome.Some?
    ensures var d' := d.(archives := d.archives[op.id := op]); Agree(d', h, hist) && Keeps(d, d')
    ensures ReadArchive(d, op.id) in {Genesis, Observed(op)}
  {
    var d' := d.(archives := d.archives[op.id := op]);
    assert Archived(d', hist);
    forall i | 0 <= i < |hist.drives| ensures Known(d', hist.drives[i]) {
      assert Known(d, hist.drives[i]);
    }
  }

  /** Whatever the engine does to an open operation, the receipts stay as they are. */
  lemma EngineStepIsSafe(d: Disk, h: Host, hist: History, d': Disk, h': Host)
    requires Agree(d, h, hist) && d.operation.Observed? && d.operation.operation.outcome.None?
    requires d'.operation == d.operation && d'.archives == d.archives && d.journal <= d'.journal
    requires d.operation.operation.id in hist.begun ==>
               InProgress(d'.operation.operation, hist.begun[d.operation.operation.id], d')
    ensures Agree(d', h', hist) && Keeps(d, d')
  {
    ArchivedGrows(d, hist, d', hist);
    forall i | 0 <= i < |hist.drives| ensures Known(d', hist.drives[i]) {
      assert Known(d, hist.drives[i]);
    }
  }

  /** No success that was not observed: behind every receipt of a promotion that changed the
      version stand, since the operation was opened, a handover to the target, a probe that
      reported the target, and the Promoted entry that followed. The incarnation probed is newer
      than any there was when that transaction was about to begin, and not the one the handover
      recorded. */
  lemma PromotionWasObserved(op: Operation, hist: History, journal: seq<JournalEntry>, sights: Sights)
    returns (i: nat)
    requires Truthful(op, hist, journal) && Numbered(journal) && Attested(journal, sights)
    requires op.outcome.value == OPromoted && op.targetVersion != op.fromVersion
    ensures hist.begun[op.id] + 4 <= i < |journal| && IsPromotion(journal, i, op.targetVersion)
    ensures journal[i - 3].intent == HandingOver && journal[i - 3].version == Some(op.targetVersion)
    ensures i - 1 in sights.probes && sights.probes[i - 1].version == op.targetVersion
    ensures i - 4 in sights.ages && sights.probes[i - 1].startId > sights.ages[i - 4]
    ensures journal[i - 3].priorStartId != Some(sights.probes[i - 1].startId)
  {
    var n := hist.begun[op.id];
    i :| n <= i < |journal| && IsPromotion(journal, i, op.targetVersion);
    assert AttestedAt(journal, sights, i);
    assert n > 0 ==> LastIntent(journal[..n]) == Intents(journal)[n - 1];
    WalkSinceRest(Intents(journal), n, i);
  }

  /** Recovery neither promotes nor forgets: an open operation keeps its prospects. */
  lemma RecoveryKeepsProgress(op: Operation, n: nat, d: Disk, d': Disk)
    requires InProgress(op, n, d) && d.journal <= d'.journal && Recovered(d') == Recovered(d)
    ensures InProgress(op, n, d')
  {
    var j, j' := d.journal, d'.journal;
    assert j' == j || j' == RecoveredJournal(j) by {
      if InFlight(LastIntent(j')) {
        assert |RecoveredJournal(j')| == |j'| + 1;
      }
    }
    assert j'[..n] == j[..n];
    assert RecoveredStable(d') == RecoveredStable(d);
    forall i | n <= i < |j'| ensures PromotesOnly(j', i, op.targetVersion) {
      if i < |j| {
        assert PromotesOnly(j, i, op.targetVersion);
      }
    }
  }

  lemma NothingToRecover(d: Disk, d': Disk)
    requires d.journal == [] && d.journal <= d'.journal && Recovered(d') == Recovered(d)
    ensures d'.journal == []
  {
    assert RecoveredJournal(d'.journal) == [];
  }

  /** The engine's recovery, finished or not, keeps receipts and journal in agreement. */
  lemma RecoverStepIsSafe(d: Disk, h: Host, hist: History, d': Disk, h': Host)
    requires Agree(d, h, hist) && d.operation != Unreadable
    requires d.operation.Observed? ==> d.operation.operation.outcome.None?
    requires d.journal <= d'.journal && Recovered(d') == Recovered(d)
    ensures Agree(d', h', hist) && Keeps(d, d')
    ensures d'.operation == d.operation && d'.archives == d.archives
  {
    assert d'.operation == Recovered(d').operation && d'.archives == Recovered(d').archives;
    if d.operation == Genesis {
      NothingToRecover(d, d');
      ArchivedGrows(d, hist, d', hist);
      assert DrivenOnce(d', hist);
    } else {
      var op := d.operation.operation;
      RecoveryKeepsProgress(op, hist.begun[op.id], d, d');
      EngineStepIsSafe(d, h, hist, d', h');
    }
  }

  /** An upgrade that began on the disk the operation was opened on. */
  lemma UpgradeIsProgress(op: Operation, n: nat, d0: Disk, d: Disk)
    requires InProgress(op, n, d0) && n == |d0.journal| && d0.slots.stable == Complete(op.fromVersion)
    requires Progress(d0, d, op.targetVersion)
    ensures InProgress(op, n, d)
  {
    assert d.journal[..n] == d0.journal[..n];
  }

  /** Handing an operation to the engine is recorded once. */
  lemma DriveIsSafe(d: Disk, h: Host, hist: History, op: Operation)
    requires Agree(d, h, hist) && d.operation == Observed(op) && op.id !in hist.drives
    ensures Agree(d, h, hist.(drives := hist.drives + [op.id]))
  {
    var drives := hist.drives + [op.id];
    forall i | 0 <= i < |drives| ensures Known(d, drives[i]) {
      if i < |hist.drives| {
        assert Known(d, hist.drives[i]);
      }
    }
    assert Archived(d, hist.(drives := drives));
  }

  /** How a finished upgrade may be recorded. */
  lemma ConclusionIsRecordable(op: Operation, n: nat, d: Disk, h: Host)
    requires InProgress(op, n, d) && Settled(d, h)
    ensures LastIntent(d.journal) == Promoted && |d.journal| > n ==> Recordable(op, OPromoted, n, d, h)
    ensures LastIntent(d.journal) != Promoted ==> Recordable(op, ORolledBack, n, d, h)
    ensures d.slots.stable == Complete(op.targetVersion) && |d.journal| == n ==> Recordable(op, OUpToDate, n, d, h)
  {
  }

  ghost predicate Coherent(d: Disk, h: Host, seen: Seen, hist: History) {
    Sound(d, h, seen) && Agree(d, h, hist)
  }

  /** What a settled journal says of an operation for `target`. */
  function SettlesAs(d: Disk, target: Version): Outcome {
    if LastIntent(d.journal) == Promoted && StableNow(d) == target then OPromoted else ORolledBack
  }

  /** Exactly when closing an interrupted operation records a promotion: one was journaled
      since it was opened, or the operation asked for the version already installed while the
      journal happens to end in an earlier promotion. */
  lemma SettleVerdict(op: Operation, n: nat, d: Disk, h: Host)
    requires InProgress(op, n, d) && Settled(d, h)
    ensures SettlesAs(d, op.targetVersion) == OPromoted <==>
            || (LastIntent(d.journal) == Promoted && |d.journal| > n)
            || (LastIntent(d.journal) == Promoted && op.fromVersion == op.targetVersion)
    ensures LastIntent(d.journal) == Promoted && |d.journal| > n ==> PromotedSince(d.journal, n, op.targetVersion)
    ensures |d.journal| == n ==> !PromotedSince(d.journal, n, op.targetVersion)
  {
    if LastIntent(d.journal) == Promoted && |d.journal| > n {
      assert PromotesOnly(d.journal, |d.journal| - 1, op.targetVersion);
      assert IsPromotion(d.journal, |d.journal| - 1, op.targetVersion);
    }
  }

  /** A call landing late disturbs no receipt. */
  lemma LandingKeepsAgreement(d: Disk, h: Host, seen: Seen, hist: History, h': Host)
    requires Coherent(d, h, seen, hist) && (h' == h || (h.pending.Some? && Drained(h, View(d.slots), h')))
    ensures Coherent(d, h', seen, hist)
  {
    if h' != h {
      LandingIsSafe(d, h, h');
    }
  }

  /** Nor does stopping the service from outside, or starting it where that cannot make two run. */
  lemma HandKeepsAgreement(d: Disk, h: Host, seen: Seen, hist: History, hand: Hand)
    requires Coherent(d, h, seen, hist)
    ensures Coherent(d, Handled(hand, d, h), seen, hist)
  {
    HandIsSafe(d, h, hand);
  }

  /** A call can be in flight only while an operation is open, so the next worker has to recover. */
  lemma InFlightIsUnfinished(d: Disk, h: Host, seen: Seen, hist: History)
    requires Coherent(d, h, seen, hist) && d.operation != Unreadable && h.pending.Some?
    ensures d.operation.Observed? && d.operation.operation.outcome.None?
  {
  }

  /** A successful receipt was written while stable held its target. */
  lemma SuccessWasInstalled(d: Disk, h: Host, hist: History, id: string)
    requires Agree(d, h, hist) && d.operation != Unreadable
    requires Receipt(d, id).Some? && Receipt(d, id).value.outcome.Some?
             && Receipt(d, id).value.outcome.value.ExitCode() == 0
    ensures id in hist.held && hist.held[id] == Receipt(d, id).value.targetVersion
  {
  }

  /** Where the history of all workers is kept. */
  class Chronicle {
    ghost var hist: History

    ghost constructor ()
      ensures hist == History(map[], [], map[])
    {
      hist := History(map[], [], map[]);
    }
  }
}
