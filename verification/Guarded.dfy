/** A worker under the contender lock: it serves what it holds the lock for, and keeps the lock
    past the request exactly when its error is an uncertain one. That is not exactly when a call of
    its own is in flight: a lost call may be reported by a definite error, and a fence, probe or
    readback that hangs leaves nothing to land. A call in flight always leaves its operation open,
    so the next worker recovers it, fence first. */
module Guarded {
  import opened State
  import opened Storage
  import opened Worlds
  import opened Protocol
  import opened Engine
  import opened Receipts
  import opened Runner
  import opened Service
  import Lock

  function Under(shift: Shift, grant: Lock.Grant): Shift {
    shift.(around := shift.around.(lock := match grant
                                           case Granted => Granted
                                           case Taken => Taken
                                           case Unwritable => Unwritable))
  }

  /** A call may be lost in a definite error, or its uncertain error to a record that cannot be written. */
  predicate MaySlip(plan: map<nat, Fault>) {
    exists b :: b in plan && (plan[b] == Lose || (plan[b] == Hang && WriteEnds(plan, b).Err?))
  }

  /** Serve one request under the lock. A worker that was refused the lock touches nothing; one
      that held it gives it back, retains it after an uncertain error, or died with it. A call of its
      own it leaves in flight at boundary `b` goes with the lock exactly when it was told of it; in
      any case the operation stays open, so that the next worker fences before it asks for anything. */
  method ServeGuarded(world: World, shift: Shift, lock: Lock.UpgradeLock, listing: seq<nat>, writes: bool,
                      ghost chronicle: Chronicle)
    returns (answer: Option<Response>, grant: Lock.Grant)
    requires Coherent(world.store.disk, world.host, world.seen, chronicle.hist)
             && TakesLock(shift.request, shift.around)
    requires Lock.Safe(lock.dir.s) && lock.pid in lock.dir.s.running && lock.t !in lock.dir.s.agents
    requires !lock.released && !lock.retained
    modifies world`host, world`seen, world.store`disk, world.store.faults, chronicle, lock, lock.dir
    ensures Coherent(world.store.disk, world.host, world.seen, chronicle.hist) && Lock.Safe(lock.dir.s)
    ensures Keeps(old(world.store.disk), world.store.disk)
    ensures answer.Some? ==>
              Faithful(shift.request, Under(shift, grant).around, shift.plan, answer.value, world.store.disk)
    ensures answer.Some? ==> answer.value.error != Some(Crash)
    ensures !grant.Taken? ==> (grant.Granted? <==> writes)
    ensures old(lock.dir.coming) == [] ==> (grant.Taken? <==> !Lock.Free(old(lock.dir.s)))
    ensures !grant.Granted? ==> world.store.disk == old(world.store.disk) && lock.released
    ensures grant.Granted? && answer.Some? ==> (lock.retained <==> answer.value.error == Some(Uncertain))
    ensures grant.Granted? && answer.Some? && lock.retained ==> Has(shift.plan, Hang)
    ensures grant.Granted? ==> LetGo(lock, answer)
    ensures grant.Granted? && answer.Some? && world.host.pending.Some?
            && (world.host.pending != old(world.host).pending || world.seen != old(world.seen)) ==>
              exists b ::
                b in shift.plan
                && InFlightSince(shift.plan, b, chronicle.hist.drives != old(chronicle.hist).drives,
                                 world.store.faults.boundary, lock.retained)
    ensures grant.Granted? && answer.Some? && world.host.pending.Some?
            && (old(world.host).pending.None? || world.seen != old(world.seen)) && !MaySlip(shift.plan) ==>
              lock.retained
    ensures answer.Some? && world.host.pending.Some? && world.store.disk.operation != Unreadable ==>
              Unfinished(world.store.disk)
              && (grant.Granted? && answer.value.error.Some? ==> answer.value.exitCode == 3)
    ensures !shift.lands && shift.hand == Leave ==>
              Decided(shift.request, Under(shift, grant).around, shift.plan, 0, old(world.store.disk), old(world.host),
                      old(chronicle.hist), world.seen != old(world.seen),
                      Ended(answer), world.store.faults.boundary,
                      world.store.disk, world.host, chronicle.hist)
  {
    grant := lock.Acquire(listing, writes);
    answer := Serve(world, Under(shift, grant), chronicle);
    if world.host.pending.Some? && world.store.disk.operation != Unreadable {
      InFlightIsUnfinished(world.store.disk, world.host, world.seen, chronicle.hist);
    }
    if grant.Granted? {
      Depart(lock, answer);
    }
  }

  /** How a worker that held the lock leaves it. */
  predicate LetGo(lock: Lock.UpgradeLock, answer: Option<Response>)
    reads lock, lock.dir
  {
    if answer.None? then lock.Here(Lock.Holding(false)) && lock.dir.s.lock == Lock.Record(lock.t, lock.pid)
    else if lock.retained then lock.Here(Lock.Holding(true)) && lock.dir.s.lock == Lock.Record(lock.t, lock.pid)
    else lock.released && lock.t !in lock.dir.s.claims && lock.dir.s.lock == Lock.Missing
  }

  /** The worker ends, or died: while the others move it lets go of the lock, retains it, or
      leaves it to them. */
  method Depart(lock: Lock.UpgradeLock, answer: Option<Response>)
    requires lock.Valid() && !lock.released && !lock.retained
    modifies lock, lock.dir
    ensures Lock.Safe(lock.dir.s) && LetGo(lock, answer)
    ensures answer.Some? ==> (lock.retained <==> answer.value.error == Some(Uncertain))
  {
    assert Lock.Proper(lock.dir.s, lock.t);
    lock.dir.Others(lock.t);
    if answer.Some? {
      if answer.value.error == Some(Uncertain) {
        lock.RetainUntilExit();
      } else {
        lock.Release();
      }
    }
  }

  // ---------------------------------------------------------------- a call that slips

  /** How the loss of the first host call of a driven operation, at boundary `n`, is reported. */
  lemma SlipIsTold(plan: map<nat, Fault>, n: nat, h: Host, r: Status)
    requires n > 0 && Quiet(plan, 0, n - 1) && Loses(plan, n) && Slips(plan, 0, n, h, r)
    ensures h.pending.Some? && r.Err?
    ensures r.error == Crash <==> WriteEnds(plan, n) == Err(Crash)
    ensures r.error == Uncertain <==> plan[n] == Hang && WriteEnds(plan, n).Ok?
  {
  }

  /** A new upgrade of an installation at ease whose first host call is lost, with no fault before
      it. Whatever happens next, the call is in flight when the worker ends; and unless the worker is
      gone, it keeps the lock exactly when the call hung and the record could still be written. */
  method LoseFirstCall(world: World, shift: Shift, lock: Lock.UpgradeLock, listing: seq<nat>,
                       ghost chronicle: Chronicle)
    returns (answer: Option<Response>, grant: Lock.Grant)
    requires Coherent(world.store.disk, world.host, world.seen, chronicle.hist) && !shift.lands && shift.hand == Leave
    requires shift.request.RUpgrade? && !shift.around.managedElsewhere
    requires Accepted(shift.request.target, shift.request.consented, shift.around)
    requires AtEase(world.store.disk) && New(world.store.disk, shift.request.id)
    requires Hands(world.store.disk, shift.request.target, world.host)
    requires Quiet(shift.plan, 0, Opening(world.store.disk) + 32) && Loses(shift.plan, Opening(world.store.disk) + 33)
    requires Lock.Safe(lock.dir.s) && lock.pid in lock.dir.s.running && lock.t !in lock.dir.s.agents
    requires !lock.released && !lock.retained
    modifies world`host, world`seen, world.store`disk, world.store.faults, chronicle, lock, lock.dir
    ensures old(lock.dir.coming) == [] && Lock.Free(old(lock.dir.s)) ==> grant.Granted?
    ensures grant.Granted? ==> world.host.pending.Some? && Unfinished(world.store.disk) && LetGo(lock, answer)
    ensures grant.Granted? ==>
              (answer.None? <==> WriteEnds(shift.plan, Opening(old(world.store.disk)) + 33) == Err(Crash))
    ensures grant.Granted? && answer.Some? ==>
              (lock.retained <==> shift.plan[Opening(old(world.store.disk)) + 33] == Hang
                                  && WriteEnds(shift.plan, Opening(old(world.store.disk)) + 33).Ok?)
  {
    ghost var n := Opening(world.store.disk) + 33;
    answer, grant := ServeGuarded(world, shift, lock, listing, true, chronicle);
    if grant.Granted? {
      SlipIsTold(shift.plan, n, world.host, Ended(answer));
    }
  }

  /** A run that ends with a host call in flight and the lock free: the call hangs, and the record
      that was to say so cannot be written. */
  method ReleasedInFlight(first: Version, v: Version, pid: nat)
    returns (world: World, lock: Lock.UpgradeLock, answer: Option<Response>)
    requires first != v && pid != 0
    ensures world.host.pending.Some? && Unfinished(world.store.disk)
    ensures answer.Some? && !lock.retained && lock.dir.s.lock == Lock.Missing && lock.t !in lock.dir.s.claims
  {
    ghost var chronicle: Chronicle;
    world, chronicle := Bootstrap(first);
    var dir := new Lock.Directory([]);
    dir.Do(Lock.Boot(pid));
    lock := new Lock.UpgradeLock(dir, 0, pid);
    var calm := Surroundings(false, Granted, Auto, Release(v), None);
    var shift :=
      Shift(RUpgrade("first", v, true), calm, map[37 := Hang, 38 := Refuse], false, Leave, Predicates(false, 0));
    var grant: Lock.Grant;
    answer, grant := LoseFirstCall(world, shift, lock, [], chronicle);
  }
}
