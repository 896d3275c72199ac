/** Observation-based checks: the six built-in safety oracles and the two settling
    oracles the simulation applies after every round. */
module Invariants {
  import opened State
  import opened Storage

  datatype LiveProcess = LiveProcess(slot: Slot, version: Version, pid: nat, startId: nat)

  datatype Ownership = SelfOwned | ManagedElsewhere

  datatype Snapshot = Snapshot(
    phase: Phase,
    slots: TwoSlots,
    live: seq<LiveProcess>,
    intents: seq<Phase>,
    workload: Option<string>,
    ownership: Option<Ownership>)

  function SlotVersion(t: TwoSlots, slot: Slot): Option<Version> {
    match slot
    case Stable => t.stable
    case Experiment => t.experiment
  }

  datatype Oracle =
    | NeverDualRun | NeverBricked | LiveProcessMatchesSlot
    | JournalPrecedesPhase | TerminalLeavesNoExperiment | ManagedCopyNeverSelfUpgrades
  {
    predicate Holds(s: Snapshot) {
      match this
      case NeverDualRun => |s.live| <= 1
      case NeverBricked => s.slots.stable.Some? || s.slots.experiment.Some?
      case LiveProcessMatchesSlot =>
        forall i :: 0 <= i < |s.live| ==>
          var v := SlotVersion(s.slots, s.live[i].slot);
          v.Some? ==> v.value == s.live[i].version
      case JournalPrecedesPhase => s.phase == Idle || s.phase in s.intents
      case TerminalLeavesNoExperiment => s.phase == Promoted || s.phase == RolledBack ==> s.slots.experiment.None?
      case ManagedCopyNeverSelfUpgrades => s.ownership == Some(ManagedElsewhere) ==> s.phase == Idle
    }
  }

  const BUILT_IN_INVARIANTS: seq<Oracle> := [
    NeverDualRun, NeverBricked, LiveProcessMatchesSlot,
    JournalPrecedesPhase, TerminalLeavesNoExperiment, ManagedCopyNeverSelfUpgrades
  ]

  function CheckInvariants(s: Snapshot, oracles: seq<Oracle>): (violations: seq<Oracle>)
    ensures violations == [] <==> forall o :: o in oracles ==> o.Holds(s)
  {
    if oracles == [] then []
    else (if oracles[0].Holds(s) then [] else [oracles[0]]) + CheckInvariants(s, oracles[1..])
  }

  predicate WorkloadPreserved(before: Snapshot, after: Snapshot) {
    before.workload.Some? && after.workload.Some? ==> before.workload == after.workload
  }

  /** The first terminal observation, or one of those right after it, shows stable live. */
  predicate ServiceSettlesLive(observations: seq<Snapshot>, maxObservations: nat) {
    forall first | 0 <= first < |observations| && FirstTerminal(observations, first) ::
      exists k :: first <= k < |observations| && k < first + maxObservations && StableLive(observations[k])
  }

  predicate FirstTerminal(observations: seq<Snapshot>, first: nat)
    requires first < |observations|
  {
    observations[first].phase.AtRest() && forall k :: 0 <= k < first ==> !observations[k].phase.AtRest()
  }

  predicate StableLive(s: Snapshot) {
    s.slots.stable.Some? && exists p :: p in s.live && p.version == s.slots.stable.value
  }
}
