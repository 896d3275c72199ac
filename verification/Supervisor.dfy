/** The supervisor outlives the worker: it starts one at a time, each only after it saw the
    one before exit, and accepts nothing but a terminal receipt of the original request. */
module Supervisor {
  import opened State
  import opened Storage
  import opened Worlds
  import opened Protocol
  import opened Engine
  import opened Receipts
  import opened Runner
  import opened Service

  const MAX_MS := 2_147_483_647
  const REAP_MS := 1000

  datatype LaunchOptions = LaunchOptions(executionMs: nat, recoveryMs: nat, totalMs: nat, recoveryAttempts: nat) {
    predicate Validate() {
      0 < executionMs <= MAX_MS && 0 < recoveryMs <= MAX_MS && 0 < totalMs <= MAX_MS && recoveryAttempts <= 10
    }
  }

  /** How a worker's output reaches the supervisor. */
  datatype Delivery = Whole | Garbled | Broken

  /** What becomes of one attempt: whether the process starts, what the worker meets, how long
      it takes to exit, with what code if it dies, and how long a killed one takes to be reaped. */
  datatype Trip = Trip(
    spawns: bool, around: Surroundings, plan: map<nat, Fault>, lands: bool, hand: Hand, predicates: Predicates,
    took: nat, delivery: Delivery, diedWith: nat, reapTook: nat)

  datatype Attempt = Attempt(code: nat, response: Option<Response>, fenced: bool)

  datatype LaunchResult = LaunchResult(exitCode: nat, response: Option<Response>, recoverable: bool, attempts: nat)

  datatype Event = Started(request: Request) | NotStarted(request: Request) | Exited

  // ---------------------------------------------------------------- when a response settles

  predicate Settles(response: Response, request: Request) {
    if request.RUpgrade? && response.action == UpgradeAction && response.result == WBusy && response.exitCode == 2
    then true
    else if response.error.Some? then false
    else
      match Expected(request)
      case Some(expected) => Closes(response, expected)
      case None =>
        response.exitCode != 3 && !response.operation.Unreadable?
        && (response.operation.Observed? ==> response.operation.operation.outcome.Some?)
  }

  /** The only error a settled request may carry: a first upgrade that found the lock held. */
  predicate Conclusive(response: Option<Response>, request: Request) {
    response.Some? && response.value.error.Some? ==> request.RUpgrade? && response.value.result == WBusy
  }

  predicate Answered(code: nat, response: Option<Response>, request: Request) {
    response.Some? && code == response.value.exitCode && Settles(response.value, request)
  }

  // ---------------------------------------------------------------- what a run looks like

  /** No attempt begins before the worker of the one before was seen to exit. */
  predicate AfterExit(log: seq<Event>, i: nat)
    requires i < |log|
  {
    !log[i].Exited? && i > 0 ==> !log[i - 1].Started?
  }

  /** The request itself goes first, and only its recovery after it. */
  predicate InTurn(log: seq<Event>, i: nat, request: Request)
    requires i < |log|
  {
    !log[i].Exited? ==> log[i].request == if i == 0 then request else RRecover(Expected(request))
  }

  function Tries(log: seq<Event>): nat {
    if log == [] then 0 else Tries(log[..|log| - 1]) + if log[|log| - 1].Exited? then 0 else 1
  }

  /** The attempt before this one is over. */
  predicate Over(log: seq<Event>) {
    log != [] ==> !log[|log| - 1].Started?
  }

  /** One attempt's part of the log. */
  function Trail(request: Request, spawned: bool, fenced: bool): seq<Event> {
    if !spawned then [NotStarted(request)] else if fenced then [Started(request), Exited] else [Started(request)]
  }

  /** The log of `n` attempts at a request. */
  predicate Orderly(log: seq<Event>, request: Request, n: nat) {
    && (forall i :: 0 <= i < |log| ==> AfterExit(log, i) && InTurn(log, i, request))
    && Tries(log) == n && (log == [] <==> n == 0)
  }

  /** What the supervisor asks at its `n`th attempt. */
  function Asked(request: Request, n: nat): Request {
    if n == 0 then request else RRecover(Expected(request))
  }

  /** One more event: an attempt in its turn, or the exit of the last one. */
  lemma EventLogged(log: seq<Event>, event: Event, request: Request, n: nat)
    requires Orderly(log, request, n)
    requires if event.Exited? then n > 0 else Over(log) && event.request == Asked(request, n)
    ensures Orderly(log + [event], request, if event.Exited? then n else n + 1)
  {
    var log' := log + [event];
    assert log'[..|log|] == log && log'[|log|] == event;
    forall i | 0 <= i < |log'| ensures AfterExit(log', i) && InTurn(log', i, request) {
      if i < |log| {
        assert AfterExit(log, i) && InTurn(log, i, request);
        assert log'[i] == log[i];
      }
    }
  }

  lemma TriedOnce(log: seq<Event>, request: Request, n: nat, spawned: bool, fenced: bool)
    requires Orderly(log, request, n) && Over(log) && (!spawned ==> fenced)
    ensures var log' := log + Trail(Asked(request, n), spawned, fenced);
            Orderly(log', request, n + 1) && (fenced <==> Over(log'))
  {
    var asked := Asked(request, n);
    if !spawned {
      EventLogged(log, NotStarted(asked), request, n);
    } else {
      EventLogged(log, Started(asked), request, n);
      if fenced {
        EventLogged(log + [Started(asked)], Exited, request, n + 1);
        assert log + Trail(asked, true, true) == log + [Started(asked)] + [Exited];
      }
    }
  }

  /** An attempt nothing interferes with. */
  predicate Undisturbed(trip: Trip, budget: nat) {
    trip.spawns && trip.plan == map[] && trip.around.lock.Granted? && trip.delivery == Whole && trip.took <= budget
  }

  /** What a supervised success stands for: the receipt of the requested operation is on record
      with a successful outcome, and stable held the target when it was written. */
  predicate Installed(d: Disk, hist: History, expected: (string, Version)) {
    && Receipt(d, expected.0).Some?
    && Receipt(d, expected.0).value.targetVersion == expected.1
    && Receipt(d, expected.0).value.outcome.Some?
    && Receipt(d, expected.0).value.outcome.value.ExitCode() == 0
    && expected.0 in hist.held && hist.held[expected.0] == expected.1
  }

  /** What a settled attempt with exit code 0 stands for. */
  predicate Backed(code: nat, response: Option<Response>, expected: (string, Version), d: Disk, hist: History) {
    code == 0 ==> response.Some? && Closes(response.value, expected) && Installed(d, hist, expected)
  }

  /** Why an attempt to recover left its request unsettled. */
  predicate Unsettled(trip: Trip, limit: nat, now: nat, deadline: nat, d: Disk, expected: (string, Version)) {
    now >= deadline || !Undisturbed(trip, limit) || Unserved(d, expected)
  }

  /** Workers ran one at a time, the request first and only its recovery after it, within the
      attempts and the time allowed. */
  predicate Accounted(request: Request, options: LaunchOptions, result: LaunchResult, log: seq<Event>, deadline: nat,
                      now: nat) {
    && 1 <= result.attempts <= options.recoveryAttempts + 1 && Orderly(log, request, result.attempts)
    && (Expected(request).None? ==> result.attempts == 1)
    && (if result.recoverable then result.exitCode == 3
        else !request.RStatus? ==>
          Answered(result.exitCode, result.response, request) && Conclusive(result.response, request))
    && now <= deadline + REAP_MS
  }

  /** Success is backed by the receipt and the installation; and once the first worker is gone,
      an undisturbed recovery leaves unsettled only what it cannot serve. */
  predicate Justified(request: Request, options: LaunchOptions, trips: seq<Trip>, result: LaunchResult,
                      log: seq<Event>, deadline: nat, now: nat, d: Disk, hist: History) {
    Expected(request).Some? && 1 <= result.attempts <= |trips| ==>
      && (!result.recoverable && d.operation != Unreadable ==>
            Backed(result.exitCode, result.response, Expected(request).value, d, hist))
      && (result.recoverable && result.attempts >= 2 && Over(log) ==>
            Unsettled(trips[result.attempts - 1], options.recoveryMs, now, deadline, d, Expected(request).value))
  }

  /** After `n` attempts the request is open, may be tried again, and giving up would be accounted for. */
  predicate Spent(request: Request, options: LaunchOptions, trips: seq<Trip>, response: Option<Response>, n: nat,
                  log: seq<Event>, deadline: nat, now: nat, d: Disk, hist: History) {
    && Accounted(request, options, LaunchResult(3, response, true, n), log, deadline, now)
    && Justified(request, options, trips, LaunchResult(3, response, true, n), log, deadline, now, d, hist)
    && Over(log) && Expected(request).Some?
  }

  function ExitCode(attempt: Attempt): nat {
    if attempt.response.None? && attempt.code == 0 then 1 else attempt.code
  }

  /** Each way to go on after the `n`th attempt is accounted for. */
  lemma AttemptOver(request: Request, options: LaunchOptions, trips: seq<Trip>, attempt: Attempt, done: bool, n: nat,
                    log: seq<Event>, deadline: nat, now: nat, d: Disk, hist: History)
    requires 1 <= n <= options.recoveryAttempts + 1 == |trips| && (n > 1 ==> Expected(request).Some?)
    requires Orderly(log, request, n) && (attempt.fenced <==> Over(log)) && now <= deadline + REAP_MS
    requires done <==> Answered(attempt.code, attempt.response, request)
    requires done && Expected(request).Some? && d.operation != Unreadable ==>
               Backed(attempt.code, attempt.response, Expected(request).value, d, hist)
    requires n > 1 && Expected(request).Some? && !done ==>
               Unsettled(trips[n - 1], options.recoveryMs, now, deadline, d, Expected(request).value)
    ensures attempt.fenced && (request.RStatus? || done) ==>
              var result := LaunchResult(ExitCode(attempt), attempt.response, false, n);
              Accounted(request, options, result, log, deadline, now)
              && Justified(request, options, trips, result, log, deadline, now, d, hist)
    ensures !(attempt.fenced && done) ==>
              var result := LaunchResult(3, attempt.response, true, n);
              Accounted(request, options, result, log, deadline, now)
              && Justified(request, options, trips, result, log, deadline, now, d, hist)
    ensures attempt.fenced && !done && Expected(request).Some? ==>
              Spent(request, options, trips, attempt.response, n, log, deadline, now, d, hist)
  {
  }

  lemma NextTry(request: Request, options: LaunchOptions, trips: seq<Trip>, response: Option<Response>, n: nat,
                log: seq<Event>, deadline: nat, now: nat, d: Disk, hist: History)
    requires if n == 0 then log == [] else Spent(request, options, trips, response, n, log, deadline, now, d, hist)
    ensures Orderly(log, request, n) && Over(log) && (n > 0 ==> Expected(request).Some?)
  {
  }

  lemma SpentIsAccounted(request: Request, options: LaunchOptions, trips: seq<Trip>, response: Option<Response>, n: nat,
                         log: seq<Event>, deadline: nat, now: nat, d: Disk, hist: History)
    requires Spent(request, options, trips, response, n, log, deadline, now, d, hist)
    ensures Accounted(request, options, LaunchResult(3, response, true, n), log, deadline, now)
    ensures Justified(request, options, trips, LaunchResult(3, response, true, n), log, deadline, now, d, hist)
  {
  }

  lemma SettledMeansInstalled(asked: Request, request: Request, response: Response, d: Disk, h: Host, hist: History)
    requires Agree(d, h, hist) && Honest(asked, response, d) && d.operation != Unreadable
    requires Expected(asked) == Expected(request) && Expected(request).Some?
    requires Settles(response, request) && response.exitCode == 0
    ensures Closes(response, Expected(request).value) && Installed(d, hist, Expected(request).value)
  {
    SuccessWasInstalled(d, h, hist, Expected(request).value.0);
  }

  /** What one attempt decides: settled with success it is backed by the installation, and an
      undisturbed recovery leaves unsettled only what it cannot serve. */
  lemma AttemptDecides(request: Request, n: nat, trip: Trip, attempt: Attempt, d: Disk, h: Host, hist: History)
    requires Agree(d, h, hist) && Expected(Asked(request, n)) == Expected(request)
    requires attempt.response.Some? ==>
               && attempt.code == attempt.response.value.exitCode
               && Faithful(Asked(request, n), trip.around, trip.plan, attempt.response.value, d)
    ensures (&& attempt.response.Some? && Settles(attempt.response.value, request)
             && Expected(request).Some? && d.operation != Unreadable) ==>
              Backed(attempt.code, attempt.response, Expected(request).value, d, hist)
    ensures (&& n > 0 && attempt.response.Some? && !Settles(attempt.response.value, request)
             && Expected(request).Some? && trip.plan == map[] && trip.around.lock.Granted?) ==>
              Unserved(d, Expected(request).value)
  {
    if attempt.response.Some? && Expected(request).Some? {
      var response := attempt.response.value;
      if Settles(response, request) && d.operation != Unreadable && attempt.code == 0 {
        SettledMeansInstalled(Asked(request, n), request, response, d, h, hist);
      }
    }
  }

  /** The records do not know the operation, or not with this target, and the first worker finds
      another manager in charge or only recovers: nothing that follows can settle the request. */
  predicate Hopeless(request: Request, trips: seq<Trip>, d: Disk) {
    && Expected(request).Some? && Unserved(d, Expected(request).value)
    && (request.RUpgrade? ==> trips != [] && trips[0].around.managedElsewhere)
  }

  class Supervisor {
    const world: World
    ghost const chronicle: Chronicle
    var now: nat
    ghost var log: seq<Event>

    constructor (world: World, ghost chronicle: Chronicle)
      ensures this.world == world && this.chronicle == chronicle && now == 0 && log == []
    {
      this.world := world;
      this.chronicle := chronicle;
      now := 0;
      log := [];
    }

    /** One worker: run it within its budget, or kill it and wait a moment for its exit. */
    method Run(request: Request, budget: nat, trip: Trip) returns (attempt: Attempt)
      requires Coherent(world.store.disk, world.host, world.seen, chronicle.hist)
      modifies this`now, this`log, world`host, world`seen, world.store`disk, world.store.faults, chronicle
      ensures Coherent(world.store.disk, world.host, world.seen, chronicle.hist)
      ensures Keeps(old(world.store.disk), world.store.disk)
      ensures log == old(log) + Trail(request, trip.spawns, attempt.fenced) && (!trip.spawns ==> attempt.fenced)
      ensures old(now) <= now <= old(now) + budget + REAP_MS
      ensures attempt.response.Some? ==>
                && attempt.fenced && attempt.code == attempt.response.value.exitCode
                && Faithful(request, trip.around, trip.plan, attempt.response.value, world.store.disk)
      ensures Undisturbed(trip, budget) ==> attempt.response.Some?
      ensures Barren(request, trip.around, old(world.store.disk)) ==>
                && world.store.disk == old(world.store.disk)
                && (attempt.response.Some? ==> Fruitless(attempt.response.value, Expected(request).value))
      ensures trip.spawns && trip.took > budget ==> now >= old(now) + budget
    {
      if !trip.spawns {
        log := log + [NotStarted(request)];
        return Attempt(1, None, true);
      }
      log := log + [Started(request)];
      var answer :=
        Serve(world, Shift(request, trip.around, trip.plan, trip.lands, trip.hand, trip.predicates), chronicle);
      if trip.took <= budget && trip.delivery != Broken {
        now, log := now + trip.took, log + [Exited];
        var code := if answer.Some? then answer.value.exitCode else trip.diedWith;
        var heard := if trip.delivery == Whole then answer else None;
        var fits := heard.Some? && heard.value.action == ActionOf(request) && heard.value.exitCode == code;
        return Attempt(code, if fits then heard else None, true);
      }
      now := now + if trip.took <= budget then trip.took else budget;
      if trip.reapTook <= REAP_MS {
        now, log := now + trip.reapTook, log + [Exited];
        return Attempt(3, None, true);
      }
      now := now + REAP_MS;
      return Attempt(3, None, false);
    }

    /** The `n`th attempt, with what is left of the time. */
    method Try(request: Request, n: nat, limit: nat, deadline: nat, trip: Trip, ghost d0: Disk)
      returns (attempt: Attempt, done: bool)
      requires now <= deadline && Keeps(d0, world.store.disk)
      requires Coherent(world.store.disk, world.host, world.seen, chronicle.hist)
      requires Orderly(log, request, n) && Over(log)
      modifies this`now, this`log, world`host, world`seen, world.store`disk, world.store.faults, chronicle
      ensures Coherent(world.store.disk, world.host, world.seen, chronicle.hist)
      ensures Keeps(d0, world.store.disk)
      ensures Orderly(log, request, n + 1) && (attempt.fenced <==> Over(log))
      ensures old(now) <= now <= deadline + REAP_MS
      ensures done <==> Answered(attempt.code, attempt.response, request)
      ensures done && Expected(request).Some? && world.store.disk.operation != Unreadable ==>
                Backed(attempt.code, attempt.response, Expected(request).value, world.store.disk, chronicle.hist)
      ensures Barren(Asked(request, n), trip.around, old(world.store.disk)) ==>
                !done && world.store.disk == old(world.store.disk)
      ensures n > 0 && Expected(request).Some? && !done ==>
                Unsettled(trip, limit, now, deadline, world.store.disk, Expected(request).value)
    {
      var asked := Asked(request, n);
      ghost var before, d := log, world.store.disk;
      var remaining := deadline - now;
      attempt := Run(asked, if limit <= remaining then limit else remaining, trip);
      KeepsTransitive(d0, d, world.store.disk);
      TriedOnce(before, request, n, trip.spawns, attempt.fenced);
      done := attempt.response.Some? && Settles(attempt.response.value, request);
      AttemptDecides(request, n, trip, attempt, world.store.disk, world.host, chronicle.hist);
    }

    /** One more attempt, and whether it was the last: settled, or with no way to go on. */
    method Continue(request: Request, options: LaunchOptions, trips: seq<Trip>, response: Option<Response>, n: nat,
                    deadline: nat, ghost d0: Disk)
      returns (result: LaunchResult, last: bool)
      requires n <= options.recoveryAttempts < |trips| == options.recoveryAttempts + 1 && now <= deadline
               && Keeps(d0, world.store.disk)
      requires Coherent(world.store.disk, world.host, world.seen, chronicle.hist)
      requires if n == 0 then log == []
               else Spent(request, options, trips, response, n, log, deadline, now, world.store.disk, chronicle.hist)
      modifies this`now, this`log, world`host, world`seen, world.store`disk, world.store.faults, chronicle
      ensures Coherent(world.store.disk, world.host, world.seen, chronicle.hist)
      ensures Keeps(d0, world.store.disk)
      ensures last ==>
                && Accounted(request, options, result, log, deadline, now)
                && Justified(request, options, trips, result, log, deadline, now, world.store.disk, chronicle.hist)
      ensures Hopeless(request, trips, old(world.store.disk)) ==>
                result.recoverable && world.store.disk == old(world.store.disk)
      ensures !last ==>
                result.attempts == n + 1 &&
                Spent(request, options, trips, result.response, n + 1, log, deadline, now, world.store.disk,
                      chronicle.hist)
    {
      NextTry(request, options, trips, response, n, log, deadline, now, world.store.disk, chronicle.hist);
      var attempt: Attempt;
      var done: bool;
      attempt, done :=
        Try(request, n, if n == 0 then options.executionMs else options.recoveryMs, deadline, trips[n], d0);
      AttemptOver(request, options, trips, attempt, done, n + 1, log, deadline, now, world.store.disk, chronicle.hist);
      if attempt.fenced && (request.RStatus? || done) {
        return LaunchResult(ExitCode(attempt), attempt.response, false, n + 1), true;
      }
      return LaunchResult(3, attempt.response, true, n + 1), !attempt.fenced || Expected(request).None?;
    }

    /** Run the request, then recover it, until a receipt settles it or the means are spent. */
    method Retry(request: Request, options: LaunchOptions, trips: seq<Trip>) returns (result: LaunchResult)
      requires Coherent(world.store.disk, world.host, world.seen, chronicle.hist)
      requires |trips| == options.recoveryAttempts + 1 && log == []
      modifies this`now, this`log, world`host, world`seen, world.store`disk, world.store.faults, chronicle
      ensures Coherent(world.store.disk, world.host, world.seen, chronicle.hist)
      ensures Keeps(old(world.store.disk), world.store.disk)
      ensures Hopeless(request, trips, old(world.store.disk)) ==>
                result.recoverable && world.store.disk == old(world.store.disk)
      ensures Accounted(request, options, result, log, old(now) + options.totalMs, now)
      ensures Justified(request, options, trips, result, log, old(now) + options.totalMs, now, world.store.disk,
                        chronicle.hist)
    {
      ghost var d0 := world.store.disk;
      var deadline, attempts := now + options.totalMs, 0;
      result := LaunchResult(3, None, true, 0);
      while attempts <= options.recoveryAttempts && now <= deadline
        invariant Coherent(world.store.disk, world.host, world.seen, chronicle.hist)
        invariant Keeps(d0, world.store.disk)
        invariant Hopeless(request, trips, d0) ==> world.store.disk == d0
        invariant attempts == 0 ==> log == [] && now <= deadline
        invariant attempts > 0 ==>
                    Spent(request, options, trips, result.response, attempts, log, deadline, now, world.store.disk,
                          chronicle.hist)
        decreases options.recoveryAttempts - attempts
      {
        var last: bool;
        result, last := Continue(request, options, trips, result.response, attempts, deadline, d0);
        if last {
          return;
        }
        attempts := attempts + 1;
      }
      SpentIsAccounted(request, options, trips, result.response, attempts, log, deadline, now, world.store.disk,
                       chronicle.hist);
      return LaunchResult(3, result.response, true, attempts);
    }

    /** A supervised request, whatever becomes of its workers. */
    method Supervise(request: Request, options: LaunchOptions, trips: seq<Trip>) returns (result: Result<LaunchResult>)
      requires Coherent(world.store.disk, world.host, world.seen, chronicle.hist)
      requires |trips| == options.recoveryAttempts + 1
      modifies this`now, this`log, world`host, world`seen, world.store`disk, world.store.faults, chronicle
      ensures result.Success? <==> options.Validate()
      ensures result.Failure? ==> world.store.disk == old(world.store.disk) && world.host == old(world.host)
      ensures Coherent(world.store.disk, world.host, world.seen, chronicle.hist)
      ensures Keeps(old(world.store.disk), world.store.disk)
      ensures result.Success? ==>
                && Accounted(request, options, result.value, log, old(now) + options.totalMs, now)
                && Justified(request, options, trips, result.value, log, old(now) + options.totalMs, now,
                             world.store.disk, chronicle.hist)
      ensures result.Success? && Hopeless(request, trips, old(world.store.disk)) ==>
                result.value.recoverable && world.store.disk == old(world.store.disk)
    {
      if !options.Validate() {
        return Failure(Invalid(InvalidRunnerBudget));
      }
      log := [];
      var launched := Retry(request, options, trips);
      return Success(launched);
    }
  }

  /** Under supervision, an upgrade that another manager holds settles at once exactly when the
      records already close it as held. */
  lemma ManagedHoldSettles(request: Request, around: Surroundings, plan: map<nat, Fault>, response: Response, d: Disk)
    requires request.RUpgrade? && around.managedElsewhere && response.error.None?
    requires Faithful(request, around, plan, response, d)
    ensures Settles(response, request) <==> Finishes(d, request.id, request.target, OHeld)
  {
    ManagedHoldCloses(request, d);
  }
}
