/**
  The in-memory idempotency barrier, with threads interleaved between its lock-protected sections.
 */
module Idempotency {
  import opened Wrappers

  datatype Outcome = Returned(value: string) | Raised(error: string)

  // The pending entry of a key; it is done once it has an outcome.
  datatype Entry = Entry(fingerprint: string, outcome: Option<Outcome>)

  type Entries = map<string, Entry>

  datatype EntryError = InvalidArgument | IdempotencyConflict

  /// The sections of `execute`

  // Under the store's lock: whether the caller owns the execution, or may not join it.
  function Join(entries: Entries, key: string, fingerprint: string): Result<bool, EntryError> {
    if key == "" || fingerprint == "" then Err(InvalidArgument)
    else if key !in entries then Ok(true)
    else if entries[key].fingerprint != fingerprint then Err(IdempotencyConflict)
    else Ok(false)
  }

  function Joined(entries: Entries, key: string, fingerprint: string): Entries {
    if Join(entries, key, fingerprint) == Ok(true) then entries[key := Entry(fingerprint, None)] else entries
  }

  // Under the entry's condition: the owner's result or error becomes the entry's outcome.
  function Published(entries: Entries, key: string, outcome: Outcome): Entries
    requires key in entries
  {
    entries[key := entries[key].(outcome := Some(outcome))]
  }

  class IdempotencyStore {
    var entries: Entries

    constructor ()
      ensures entries == map[]
    {
      entries := map[];
    }

    method Enter(key: string, fingerprint: string) returns (r: Result<bool, EntryError>)
      modifies this
      ensures r == Join(old(entries), key, fingerprint) && entries == Joined(old(entries), key, fingerprint)
    {
      if key == "" || fingerprint == "" {
        return Err(InvalidArgument);
      }
      if key !in entries {
        entries := entries[key := Entry(fingerprint, None)];
        return Ok(true);
      }
      if entries[key].fingerprint != fingerprint {
        return Err(IdempotencyConflict);
      }
      return Ok(false);
    }

    method Publish(key: string, outcome: Outcome)
      requires key in entries
      modifies this
      ensures entries == Published(old(entries), key, outcome)
    {
      entries := entries[key := entries[key].(outcome := Some(outcome))];
    }
  }

  /// Threads

  // Where a thread inside `execute` stands. `Sleeping` is a wait on the condition that nobody has ended.
  datatype Place =
    | Operating
    | Publishing(outcome: Outcome)
    | Checking
    | Sleeping
    | Finished(outcome: Outcome)
    | Refused(error: EntryError)

  datatype Caller = Caller(key: string, fingerprint: string, owner: bool, place: Place)

  datatype System = System(entries: Entries, callers: map<nat, Caller>)

  datatype Step =
    | Enter(thread: nat, key: string, fingerprint: string)
    | OperationEnds(thread: nat, outcome: Outcome)
    | Publish(thread: nat)
    | Check(thread: nat)
    | WakeSpuriously(thread: nat)

  predicate At(s: System, thread: nat, place: Place) {
    thread in s.callers && s.callers[thread].place == place
  }

  predicate Enabled(s: System, step: Step) {
    match step
    case Enter(thread, _, _) => thread !in s.callers
    case OperationEnds(thread, _) => At(s, thread, Operating)
    case Publish(thread) =>
      thread in s.callers && s.callers[thread].place.Publishing? && s.callers[thread].key in s.entries
    case Check(thread) => At(s, thread, Checking) && s.callers[thread].key in s.entries
    case WakeSpuriously(thread) => At(s, thread, Sleeping)
  }

  function Entered(s: System, key: string, fingerprint: string): Caller {
    match Join(s.entries, key, fingerprint)
    case Err(e) => Caller(key, fingerprint, false, Refused(e))
    case Ok(owner) => Caller(key, fingerprint, owner, if owner then Operating else Checking)
  }

  // notify_all on the key's condition.
  function Notified(callers: map<nat, Caller>, key: string): map<nat, Caller> {
    map thread | thread in callers ::
      if callers[thread].key == key && callers[thread].place.Sleeping?
      then callers[thread].(place := Checking) else callers[thread]
  }

  function Next(s: System, step: Step): System
    requires Enabled(s, step)
  {
    var thread := step.thread;
    match step
    case Enter(_, key, fingerprint) =>
      System(Joined(s.entries, key, fingerprint), s.callers[thread := Entered(s, key, fingerprint)])
    case OperationEnds(_, outcome) =>
      s.(callers := s.callers[thread := s.callers[thread].(place := Publishing(outcome))])
    case Publish(_) =>
      var caller := s.callers[thread];
      System(Published(s.entries, caller.key, caller.place.outcome),
             Notified(s.callers, caller.key)[thread := caller.(place := Finished(caller.place.outcome))])
    case Check(_) =>
      var outcome := s.entries[s.callers[thread].key].outcome;
      var place := if outcome.Some? then Finished(outcome.value) else Sleeping;
      s.(callers := s.callers[thread := s.callers[thread].(place := place)])
    case WakeSpuriously(_) =>
      s.(callers := s.callers[thread := s.callers[thread].(place := Checking)])
  }

  predicate Legal(s: System, steps: seq<Step>)
    decreases |steps|
  {
    steps == [] || (Enabled(s, steps[0]) && Legal(Next(s, steps[0]), steps[1..]))
  }

  function Run(s: System, steps: seq<Step>): System
    requires Legal(s, steps)
    decreases |steps|
  {
    if steps == [] then s else Run(Next(s, steps[0]), steps[1..])
  }

  /// What every interleaving keeps

  // How a caller relates to the entry of its key.
  predicate Consistent(s: System, thread: nat)
    requires thread in s.callers
  {
    var caller := s.callers[thread];
    var entry := if caller.key in s.entries then Some(s.entries[caller.key]) else None;
    var valid := caller.key != "" && caller.fingerprint != "";
    var member := valid && entry.Some? && entry.value.fingerprint == caller.fingerprint;
    match caller.place
    case Operating => caller.owner && member && entry.value.outcome.None?
    case Publishing(_) => caller.owner && member && entry.value.outcome.None?
    case Checking => !caller.owner && member
    case Sleeping => !caller.owner && member && entry.value.outcome.None?
    case Finished(outcome) => member && entry.value.outcome == Some(outcome)
    case Refused(error) =>
      && !caller.owner
      && !member
      && (error == InvalidArgument <==> caller.key == "" || caller.fingerprint == "")
      && (error == IdempotencyConflict ==> entry.Some?)
  }

  predicate SameOwner(s: System, a: nat, b: nat)
    requires a in s.callers && b in s.callers
  {
    s.callers[a].owner && s.callers[b].owner && s.callers[a].key == s.callers[b].key ==> a == b
  }

  predicate Owns(s: System, thread: nat, key: string) {
    thread in s.callers && s.callers[thread].owner && s.callers[thread].key == key
  }

  ghost predicate Inv(s: System) {
    && (forall thread | thread in s.callers :: Consistent(s, thread))
    && (forall a, b | a in s.callers && b in s.callers :: SameOwner(s, a, b))
    && (forall key | key in s.entries :: exists owner :: Owns(s, owner, key))
  }

  // Callers stay, with their arguments and their ownership, and only an entering caller is new.
  lemma StepKeepsCallers(s: System, step: Step, thread: nat)
    requires Enabled(s, step)
    ensures thread in Next(s, step).callers <==> thread in s.callers || (step.Enter? && step.thread == thread)
    ensures thread in s.callers ==>
              var before, after := s.callers[thread], Next(s, step).callers[thread];
              after.key == before.key && after.fingerprint == before.fingerprint && after.owner == before.owner
  {
  }

  lemma StepKeepsOwnConsistency(s: System, step: Step)
    requires Inv(s) && Enabled(s, step) && step.thread in Next(s, step).callers
    ensures Consistent(Next(s, step), step.thread)
  {
    if step.thread in s.callers {
      assert Consistent(s, step.thread);
    }
  }

  lemma StepKeepsOtherConsistency(s: System, step: Step, thread: nat)
    requires Inv(s) && Enabled(s, step) && thread in s.callers && thread != step.thread
    ensures thread in Next(s, step).callers && Consistent(Next(s, step), thread)
  {
    assert Consistent(s, thread);
    if step.thread in s.callers {
      assert Consistent(s, step.thread) && SameOwner(s, step.thread, thread);
    }
  }

  lemma StepKeepsConsistency(s: System, step: Step, thread: nat)
    requires Inv(s) && Enabled(s, step) && thread in Next(s, step).callers
    ensures Consistent(Next(s, step), thread)
  {
    StepKeepsCallers(s, step, thread);
    if thread == step.thread {
      StepKeepsOwnConsistency(s, step);
    } else {
      StepKeepsOtherConsistency(s, step, thread);
    }
  }

  // A caller enters as the owner only of a key that nobody has.
  lemma EnteringOwnerIsAlone(s: System, step: Step, other: nat)
    requires Inv(s) && Enabled(s, step) && step.Enter? && other in s.callers
    ensures SameOwner(Next(s, step), step.thread, other) && SameOwner(Next(s, step), other, step.thread)
  {
    StepKeepsCallers(s, step, other);
    assert Consistent(s, other);
  }

  lemma StepKeepsSameOwner(s: System, step: Step, a: nat, b: nat)
    requires Inv(s) && Enabled(s, step)
    requires a in Next(s, step).callers && b in Next(s, step).callers
    ensures SameOwner(Next(s, step), a, b)
  {
    StepKeepsCallers(s, step, a);
    StepKeepsCallers(s, step, b);
    if a in s.callers && b in s.callers {
      assert SameOwner(s, a, b);
    } else if a in s.callers {
      EnteringOwnerIsAlone(s, step, a);
    } else if b in s.callers {
      EnteringOwnerIsAlone(s, step, b);
    }
  }

  lemma StepKeepsAnOwner(s: System, step: Step, key: string)
    requires Inv(s) && Enabled(s, step)
    requires key in Next(s, step).entries
    ensures exists owner :: Owns(Next(s, step), owner, key)
  {
    if key in s.entries {
      var owner :| Owns(s, owner, key);
      StepKeepsCallers(s, step, owner);
      assert Owns(Next(s, step), owner, key);
    } else {
      assert Owns(Next(s, step), step.thread, key);
    }
  }

  lemma StepKeepsInv(s: System, step: Step)
    requires Inv(s) && Enabled(s, step)
    ensures Inv(Next(s, step))
  {
    var s' := Next(s, step);
    forall thread | thread in s'.callers
      ensures Consistent(s', thread)
    {
      StepKeepsConsistency(s, step, thread);
    }
    forall a, b | a in s'.callers && b in s'.callers
      ensures SameOwner(s', a, b)
    {
      StepKeepsSameOwner(s, step, a, b);
    }
    forall key | key in s'.entries
      ensures exists owner :: Owns(s', owner, key)
    {
      StepKeepsAnOwner(s, step, key);
    }
  }

  lemma {:induction false} EveryInterleavingIsConsistent(s: System, steps: seq<Step>)
    requires Inv(s) && Legal(s, steps)
    ensures Inv(Run(s, steps))
    decreases |steps|
  {
    if steps != [] {
      StepKeepsInv(s, steps[0]);
      EveryInterleavingIsConsistent(Next(s, steps[0]), steps[1..]);
    }
  }

  function Start(): System {
    System(map[], map[])
  }

  // In every reachable state every key with an entry has exactly one owner, so its operation started
  // once, and everyone who finished has the owner's outcome.
  lemma {:induction false} OneExecutionPerKey(steps: seq<Step>, key: string)
    requires Legal(Start(), steps) && key in Run(Start(), steps).entries
    ensures var s := Run(Start(), steps);
      exists owner :: Owns(s, owner, key)
        && (forall other | Owns(s, other, key) :: other == owner)
        && (forall a | a in s.callers && s.callers[a].key == key && s.callers[a].place.Finished? ::
              s.callers[a].place == s.callers[owner].place)
  {
    var s := Run(Start(), steps);
    EveryInterleavingIsConsistent(Start(), steps);
    var owner :| Owns(s, owner, key);
    assert Consistent(s, owner);
    forall other | Owns(s, other, key)
      ensures other == owner
    {
      assert SameOwner(s, other, owner);
    }
    forall a | a in s.callers && s.callers[a].key == key && s.callers[a].place.Finished?
      ensures s.callers[a].place == s.callers[owner].place
    {
      assert Consistent(s, a);
    }
  }

  // A caller is turned away, at once, exactly when its arguments are empty or its fingerprint differs
  // from the one its key was first used with.
  lemma {:induction false} RefusedIffDifferent(steps: seq<Step>, thread: nat)
    requires Legal(Start(), steps) && thread in Run(Start(), steps).callers
    ensures var s := Run(Start(), steps);
      var caller := s.callers[thread];
      caller.place.Refused? <==>
        || caller.key == "" || caller.fingerprint == ""
        || !(caller.key in s.entries && s.entries[caller.key].fingerprint == caller.fingerprint)
  {
    EveryInterleavingIsConsistent(Start(), steps);
    assert Consistent(Run(Start(), steps), thread);
  }

  // Once an entry is done, no thread is asleep on it: everyone who joined has finished or will finish at
  // its next check. While it is not done, its owner has a step to take. So no thread is stuck.
  lemma {:induction false} NobodyIsStuck(steps: seq<Step>, thread: nat)
    requires Legal(Start(), steps) && thread in Run(Start(), steps).callers
    ensures var s := Run(Start(), steps);
      match s.callers[thread].place
      case Finished(_) => true
      case Refused(_) => true
      case Operating => forall outcome :: Enabled(s, OperationEnds(thread, outcome))
      case Publishing(_) => Enabled(s, Publish(thread))
      case Checking => Enabled(s, Check(thread))
      case Sleeping =>
        && s.callers[thread].key in s.entries && s.entries[s.callers[thread].key].outcome.None?
        && exists owner :: Owns(s, owner, s.callers[thread].key)
             && (s.callers[owner].place.Operating? || s.callers[owner].place.Publishing?)
  {
    var s := Run(Start(), steps);
    EveryInterleavingIsConsistent(Start(), steps);
    assert Consistent(s, thread);
    if s.callers[thread].place.Sleeping? {
      var owner :| Owns(s, owner, s.callers[thread].key);
      assert Consistent(s, owner);
    }
  }

  // Publishing wakes every sleeper of the key, and each of them then returns the published outcome.
  lemma {:induction false} PublishReleasesTheSleepers(steps: seq<Step>, owner: nat, thread: nat)
    requires Legal(Start(), steps) && Enabled(Run(Start(), steps), Publish(owner))
    requires At(Run(Start(), steps), thread, Sleeping)
    requires Run(Start(), steps).callers[thread].key == Run(Start(), steps).callers[owner].key
    ensures var s := Run(Start(), steps);
      && Enabled(Next(s, Publish(owner)), Check(thread))
      && At(Next(Next(s, Publish(owner)), Check(thread)), thread, Finished(s.callers[owner].place.outcome))
  {
    EveryInterleavingIsConsistent(Start(), steps);
    assert Consistent(Run(Start(), steps), owner);
  }

  // The thread's operation ended with this outcome in the run.
  predicate Ended(steps: seq<Step>, thread: nat, outcome: Outcome) {
    OperationEnds(thread, outcome) in steps
  }

  // A caller that carries an outcome as an owner had it from its own operation, or carried it before the run.
  predicate Earned(caller: Caller, steps: seq<Step>, thread: nat) {
    caller.owner ==>
      match caller.place
      case Publishing(outcome) => Ended(steps, thread, outcome)
      case Finished(outcome) => Ended(steps, thread, outcome)
      case _ => true
  }

  lemma StepKeepsEarned(s: System, step: Step, done: seq<Step>, thread: nat)
    requires Inv(s) && Enabled(s, step) && thread in Next(s, step).callers
    requires thread in s.callers ==> Earned(s.callers[thread], done, thread)
    ensures Earned(Next(s, step).callers[thread], done + [step], thread)
  {
    if thread in s.callers {
      assert Consistent(s, thread);
    }
  }

  lemma {:induction false} RunKeepsEarned(s: System, done: seq<Step>, steps: seq<Step>, thread: nat)
    requires Inv(s) && Legal(s, steps) && thread in Run(s, steps).callers
    requires thread in s.callers ==> Earned(s.callers[thread], done, thread)
    ensures Earned(Run(s, steps).callers[thread], done + steps, thread)
    decreases |steps|
  {
    if steps == [] {
      assert done + steps == done;
    } else {
      var next := Next(s, steps[0]);
      StepKeepsInv(s, steps[0]);
      if thread in next.callers {
        StepKeepsEarned(s, steps[0], done, thread);
      }
      RunKeepsEarned(next, done + [steps[0]], steps[1..], thread);
      assert done + [steps[0]] + steps[1..] == done + steps;
    }
  }

  // What everyone who finished on a key has is what the one operation started for that key returned or
  // raised in the run.
  lemma {:induction false} FinishedWithTheOperationsOutcome(steps: seq<Step>, s: System, thread: nat, outcome: Outcome)
    requires Legal(Start(), steps) && s == Run(Start(), steps) && At(s, thread, Finished(outcome))
    ensures exists owner :: Owns(s, owner, s.callers[thread].key) && Ended(steps, owner, outcome)
  {
    EveryInterleavingIsConsistent(Start(), steps);
    assert Consistent(s, thread);
    var owner :| Owns(s, owner, s.callers[thread].key);
    assert Consistent(s, owner);
    RunKeepsEarned(Start(), [], steps, owner);
    assert [] + steps == steps;
  }

  // A finished caller's outcome, and so the entry's, never changes.
  lemma {:induction false} OutcomesAreFinal(s: System, steps: seq<Step>, key: string)
    requires Inv(s) && Legal(s, steps)
    requires key in s.entries && s.entries[key].outcome.Some?
    ensures key in Run(s, steps).entries && Run(s, steps).entries[key] == s.entries[key]
    decreases |steps|
  {
    if steps != [] {
      if steps[0].Publish? {
        assert Consistent(s, steps[0].thread);
      }
      StepKeepsInv(s, steps[0]);
      OutcomesAreFinal(Next(s, steps[0]), steps[1..], key);
    }
  }

  /// Progress

  predicate Done(caller: Caller) {
    caller.place.Finished? || caller.place.Refused?
  }

  // How many steps a caller has before it, at most, if nobody wakes for nothing.
  function Work(s: System, thread: nat): nat
    requires thread in s.callers
  {
    var caller := s.callers[thread];
    match caller.place
    case Operating => 2
    case Publishing(_) => 1
    case Checking => if caller.key in s.entries && s.entries[caller.key].outcome.Some? then 1 else 2
    case Sleeping => 1
    case Finished(_) => 0
    case Refused(_) => 0
  }

  function TotalWork(s: System, threads: seq<nat>): nat
    requires forall i | 0 <= i < |threads| :: threads[i] in s.callers
  {
    if threads == [] then 0
    else TotalWork(s, threads[..|threads| - 1]) + Work(s, threads[|threads| - 1])
  }

  // Each caller once.
  predicate Lists(threads: seq<nat>, callers: map<nat, Caller>) {
    && (forall i | 0 <= i < |threads| :: threads[i] in callers)
    && (forall i, j | 0 <= i < j < |threads| :: threads[i] != threads[j])
    && (forall thread | thread in callers :: thread in threads)
  }

  lemma OwnPlaceAfter(s: System, step: Step)
    requires Enabled(s, step) && !step.Enter?
    ensures step.thread in Next(s, step).callers
    ensures var place := Next(s, step).callers[step.thread].place;
      match step
      case OperationEnds(_, _) => place.Publishing?
      case Publish(_) => place.Finished?
      case Check(_) => place.Finished? || (place.Sleeping? && s.entries[s.callers[step.thread].key].outcome.None?)
      case _ => place.Checking?
  {
  }

  lemma StepSpendsOwnWork(s: System, step: Step)
    requires Inv(s) && Enabled(s, step) && !step.Enter?
    ensures step.thread in s.callers && step.thread in Next(s, step).callers
    ensures Work(Next(s, step), step.thread) <= Work(s, step.thread) + if step.WakeSpuriously? then 1 else -1
  {
    OwnPlaceAfter(s, step);
  }

  lemma PublishSpendsNoOtherWork(s: System, publisher: nat, thread: nat)
    requires Inv(s) && Enabled(s, Publish(publisher)) && thread in s.callers && thread != publisher
    ensures thread in Next(s, Publish(publisher)).callers
    ensures Work(Next(s, Publish(publisher)), thread) <= Work(s, thread)
  {
    assert Consistent(s, thread);
  }

  lemma StepSpendsNoOtherWork(s: System, step: Step, thread: nat)
    requires Inv(s) && Enabled(s, step) && !step.Enter? && thread in s.callers && thread != step.thread
    ensures thread in Next(s, step).callers && Work(Next(s, step), thread) <= Work(s, thread)
  {
    if step.Publish? {
      PublishSpendsNoOtherWork(s, step.thread, thread);
    }
  }

  // What each caller's work falls or rises by, the work of all of them does.
  lemma {:induction false} TotalWorkFalls(s: System, s': System, threads: seq<nat>, one: nat, delta: int)
    requires forall i | 0 <= i < |threads| :: threads[i] in s.callers && threads[i] in s'.callers
    requires forall i, j | 0 <= i < j < |threads| :: threads[i] != threads[j]
    requires forall i | 0 <= i < |threads| ::
               Work(s', threads[i]) <= Work(s, threads[i]) + if threads[i] == one then delta else 0
    ensures TotalWork(s', threads) <= TotalWork(s, threads) + if one in threads then delta else 0
    decreases |threads|
  {
    if threads != [] {
      var front, last := threads[..|threads| - 1], threads[|threads| - 1];
      TotalWorkFalls(s, s', front, one, delta);
      assert threads == front + [last] && last !in front;
    }
  }

  function Spurious(steps: seq<Step>): nat
    decreases |steps|
  {
    if steps == [] then 0 else (if steps[0].WakeSpuriously? then 1 else 0) + Spurious(steps[1..])
  }

  lemma CallersStay(s: System, step: Step)
    requires Enabled(s, step) && !step.Enter?
    ensures Next(s, step).callers.Keys == s.callers.Keys
  {
  }

  lemma {:induction false} StepSpendsListedWork(s: System, step: Step, threads: seq<nat>)
    requires Inv(s) && Enabled(s, step) && !step.Enter? && Lists(threads, s.callers)
    ensures Lists(threads, Next(s, step).callers)
    ensures 1 + TotalWork(Next(s, step), threads) <= TotalWork(s, threads) + if step.WakeSpuriously? then 2 else 0
  {
    var next := Next(s, step);
    CallersStay(s, step);
    StepSpendsOwnWork(s, step);
    forall i | 0 <= i < |threads| && threads[i] != step.thread
      ensures Work(next, threads[i]) <= Work(s, threads[i])
    {
      StepSpendsNoOtherWork(s, step, threads[i]);
    }
    TotalWorkFalls(s, next, threads, step.thread, if step.WakeSpuriously? then 1 else -1);
  }

  // From every consistent state, while no new caller enters, every run takes at most as many steps as there
  // is work, not counting wake-ups for nothing and the check that each of them costs.
  lemma {:induction false} RunsAreBounded(s: System, steps: seq<Step>, threads: seq<nat>, end: System)
    requires Inv(s) && Legal(s, steps) && end == Run(s, steps) && Lists(threads, s.callers)
    requires forall i | 0 <= i < |steps| :: !steps[i].Enter?
    ensures Lists(threads, end.callers)
    ensures |steps| + TotalWork(end, threads) <= TotalWork(s, threads) + 2 * Spurious(steps)
    decreases |steps|
  {
    if steps != [] {
      var next := Next(s, steps[0]);
      StepKeepsInv(s, steps[0]);
      StepSpendsListedWork(s, steps[0], threads);
      RunsAreBounded(next, steps[1..], threads, end);
    }
  }

  lemma {:induction false} WorkIsAtMostTwoEach(s: System, threads: seq<nat>)
    requires forall i | 0 <= i < |threads| :: threads[i] in s.callers
    ensures TotalWork(s, threads) <= 2 * |threads|
  {
    if threads != [] {
      WorkIsAtMostTwoEach(s, threads[..|threads| - 1]);
    }
  }

  // A step that is neither a new caller nor a wake-up for nothing.
  ghost predicate CanProceed(s: System) {
    exists step :: Enabled(s, step) && !step.Enter? && !step.WakeSpuriously?
  }

  // Every run of a reachable state comes to an end, after at most two steps for each caller, and where it
  // cannot go on everybody is done.
  lemma {:induction false} EverybodyGetsDone(before: seq<Step>, s: System, steps: seq<Step>, end: System,
                                             threads: seq<nat>)
    requires Legal(Start(), before) && s == Run(Start(), before) && Lists(threads, s.callers)
    requires Legal(s, steps) && end == Run(s, steps)
    requires forall i | 0 <= i < |steps| :: !steps[i].Enter? && !steps[i].WakeSpuriously?
    ensures |steps| <= 2 * |threads|
    ensures !CanProceed(end) <==> forall thread | thread in end.callers :: Done(end.callers[thread])
  {
    EveryInterleavingIsConsistent(Start(), before);
    NoSpurious(steps);
    RunsAreBounded(s, steps, threads, end);
    WorkIsAtMostTwoEach(s, threads);
    EveryInterleavingIsConsistent(s, steps);
    StuckMeansDone(end);
  }

  lemma {:induction false} NoSpurious(steps: seq<Step>)
    requires forall i | 0 <= i < |steps| :: !steps[i].WakeSpuriously?
    ensures Spurious(steps) == 0
    decreases |steps|
  {
    if steps != [] {
      NoSpurious(steps[1..]);
    }
  }

  lemma StuckMeansDone(s: System)
    requires Inv(s)
    ensures !CanProceed(s) <==> forall thread | thread in s.callers :: Done(s.callers[thread])
  {
    forall thread | thread in s.callers && !Done(s.callers[thread])
      ensures CanProceed(s)
    {
      SomeoneCanProceed(s, thread);
    }
  }

  lemma SomeoneCanProceed(s: System, thread: nat)
    requires Inv(s) && thread in s.callers && !Done(s.callers[thread])
    ensures CanProceed(s)
  {
    assert Consistent(s, thread);
    var caller := s.callers[thread];
    match caller.place {
      case Operating => assert Enabled(s, OperationEnds(thread, Returned("")));
      case Publishing(_) => assert Enabled(s, Publish(thread));
      case Checking => assert Enabled(s, Check(thread));
      case Sleeping =>
        var owner :| Owns(s, owner, caller.key);
        assert Consistent(s, owner);
        if s.callers[owner].place.Operating? {
          assert Enabled(s, OperationEnds(owner, Returned("")));
        } else {
          assert Enabled(s, Publish(owner));
        }
    }
  }
}
