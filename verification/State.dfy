/** The vocabulary of the upgrade transaction: phases, journal entries, operation
    receipts and their exit codes, and the grammar every journal obeys. */
module State {
  datatype Option<+T> = None | Some(value: T)

  type Version = v: string | v != "" witness "0.0.0"

  datatype Phase = Idle | Staged | HandingOver | RunningExperiment | Readback | Promoted | RolledBack {
    predicate AtRest() {
      this == Idle || this == Promoted || this == RolledBack
    }

    function DebugName(): string {
      match this
      case Idle => "Idle"
      case Staged => "Staged"
      case HandingOver => "HandingOver"
      case RunningExperiment => "RunningExperiment"
      case Readback => "Readback"
      case Promoted => "Promoted"
      case RolledBack => "RolledBack"
    }

    function Name(): string {
      match this
      case Idle => "idle"
      case Staged => "staged"
      case HandingOver => "handing-over"
      case RunningExperiment => "running-experiment"
      case Readback => "readback"
      case Promoted => "promoted"
      case RolledBack => "rolled-back"
    }
  }

  datatype Slot = Stable | Experiment

  /** `pid` and `startId` are numbers here: the harness derives both from one
      incarnation counter. */
  datatype Evidence = Evidence(version: Version, pid: nat, startId: nat) {
    predicate Validate(verifierPid: nat) {
      pid != 0 && pid != verifierPid
    }
  }

  /** `detail` of the source, spelled out: the target version, the incarnation seen
      before handover, and the reason of a rollback. */
  datatype JournalEntry = JournalEntry(
    seqNo: nat,
    intent: Phase,
    version: Option<Version>,
    priorStartId: Option<nat>,
    reason: string)

  datatype OperationPhase =
    | Checking | Downloading | Verifying | Staging | Handover | Recovering
    | Finished(outcome: Outcome)

  datatype Outcome = OPromoted | ORolledBack | OHeld | OUpToDate | OFailed {
    function ExitCode(): nat {
      match this
      case OPromoted => 0
      case OUpToDate => 0
      case OHeld => 2
      case ORolledBack => 1
      case OFailed => 1
    }
  }

  datatype Operation = Operation(
    id: string,
    fromVersion: Version,
    targetVersion: Version,
    phase: OperationPhase,
    outcome: Option<Outcome>,
    reason: string)

  datatype OperationRead = Genesis | Observed(operation: Operation) | Unreadable {
    function ExitCode(): nat {
      match this
      case Genesis => 0
      case Unreadable => 1
      case Observed(op) => if op.outcome.Some? then op.outcome.value.ExitCode() else 3
    }
  }

  /** Why a call was refused. The first group are the refusals the runner contracts
      prove unreachable. */
  datatype Refusal =
    | SettledOperationStateMismatch | SettledOperationHasUnfinishedJournal
    | OperationArchiveConflict | OperationInProgress
    | SequenceDiscontinuity | IncompleteSlot | StableSlotRequired
    | PromotionHasNoStableOrExperiment | RenameRefused
    | HostEvidenceInvalid | HostCommandFailed | MissingModelSlot | ModelServiceStopped
    | OperationIdConflict | RecoveryOperationNotFound | ReceiptUnreadable
    | PinnedVersionMismatch | FetchFailed | CandidatePreparationFailed
    | RunnerReceiptMismatch | InvalidRunnerBudget | HarnessParked | HarnessNotLive | HarnessWorkloadChanged
    | LockUnwritable
    | DownloadFailed | SizeMismatch | DigestMismatch | TransferPolicyInvalid
    | Io

  datatype Error =
    | Crash                           // the worker process is gone
    | Uncertain                       // a host call may still be running
    | Invalid(refusal: Refusal)
    | Violation(invariantId: string)  // a harness boundary saw a broken invariant
    | Locked
    | Replay(operation: Operation)

  /** How a call ended. Methods return it first, beside what they computed. */
  datatype Status = Ok | Err(error: Error) {
    predicate IsFailure() {
      Err?
    }

    function PropagateFailure(): Status {
      this
    }
  }

  datatype Result<+T> = Success(value: T) | Failure(error: Error) {
    predicate IsFailure() {
      Failure?
    }

    function PropagateFailure(): Status {
      if Failure? then Err(error) else Ok
    }

    function Extract(): T
      requires Success?
    {
      value
    }
  }

  // ---------------------------------------------------------------- journal grammar

  const TRANSITIONS: seq<(Phase, Phase)> := [
    (Idle, Staged),
    (Staged, HandingOver),
    (HandingOver, RunningExperiment),
    (RunningExperiment, Readback),
    (Readback, Promoted),
    (Staged, RolledBack),
    (HandingOver, RolledBack),
    (RunningExperiment, RolledBack),
    (Readback, RolledBack)
  ]

  /** The table as a test; `Journals.LegalIsTheTable` relates the two. */
  predicate Legal(p: Phase, q: Phase) {
    match q
    case Idle => false
    case Staged => p == Idle
    case HandingOver => p == Staged
    case RunningExperiment => p == HandingOver
    case Readback => p == RunningExperiment
    case Promoted => p == Readback
    case RolledBack => !p.AtRest()
  }

  /** The phase a transaction continues from: a resting journal starts over at Idle. */
  function Origin(intents: seq<Phase>): (p: Phase) {
    if intents == [] || intents[|intents| - 1].AtRest() then Idle else intents[|intents| - 1]
  }

  predicate ContinuesAt(intents: seq<Phase>, i: nat)
    requires i < |intents|
  {
    Legal(Origin(intents[..i]), intents[i])
  }

  /** Every entry continues its predecessor along the transition table. */
  predicate Continues(intents: seq<Phase>) {
    forall i :: 0 <= i < |intents| ==> ContinuesAt(intents, i)
  }

  function Before(s: seq<Phase>, i: nat): Phase
    requires i <= |s|
  {
    if i == 0 then Idle else s[i - 1]
  }

  predicate WalksAt(s: seq<Phase>, i: nat)
    requires i < |s|
  {
    Legal(Before(s, i), s[i])
  }

  /** A walk through the table that starts at Idle. */
  predicate Walk(s: seq<Phase>) {
    forall i :: 0 <= i < |s| ==> WalksAt(s, i)
  }

  predicate CompleteWalk(s: seq<Phase>) {
    Walk(s) && s != [] && s[|s| - 1].AtRest()
  }

  function Flatten(walks: seq<seq<Phase>>): seq<Phase> {
    if walks == [] then [] else Flatten(walks[..|walks| - 1]) + walks[|walks| - 1]
  }

  /** Complete walks, then at most one unfinished walk. */
  predicate Decomposition(intents: seq<Phase>, walks: seq<seq<Phase>>, tail: seq<Phase>) {
    && (forall w :: w in walks ==> CompleteWalk(w))
    && Walk(tail)
    && (tail != [] ==> !tail[|tail| - 1].AtRest())
    && intents == Flatten(walks) + tail
  }

  function Intents(journal: seq<JournalEntry>): (s: seq<Phase>)
    ensures |s| == |journal|
    ensures forall i :: 0 <= i < |s| ==> s[i] == journal[i].intent
  {
    seq(|journal|, i requires 0 <= i < |journal| => journal[i].intent)
  }
}
