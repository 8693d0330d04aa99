/**
  Queueing reconciliations: the job of a location is keyed by the location and the generation of its
  cursor, so that it runs once per generation. One organization is followed.
 */
module Reconciliations {
  import opened JobQueues
  import opened Wrappers

  // The key and the payload's fingerprint, as functions of location and generation; a location that has
  // no cursor yet is in generation None.
  datatype Keys = Keys(organization: string, key: (string, Option<int>) -> string, fingerprint: string -> string)

  // When each location's cursor was last stored.
  type Cursors = map<string, int>

  datatype State = State(jobs: Jobs, cursors: Cursors)

  function Generation(cursors: Cursors, location: string): Option<int> {
    if location in cursors then Some(cursors[location]) else None
  }

  function RequestFor(keys: Keys, cursors: Cursors, location: string): Request {
    Request(keys.organization, "google.review.reconcile", keys.fingerprint(location), 0, 3, None,
            Some(keys.key(location, Generation(cursors, location))))
  }

  // Returns the job that holds the key of the present generation, whatever became of it.
  method EnqueueReconciliation(queue: JobQueue, keys: Keys, cursors: Cursors, location: string, newId: string, now: int)
    returns (r: Result<string, QueueError>)
    requires queue.Valid() && newId !in queue.jobs
    modifies queue
    ensures queue.Valid()
    ensures Answers(old(queue.jobs), newId, RequestFor(keys, cursors, location), r)
    ensures r == Ok(newId) ==>
              queue.jobs == Next(old(queue.jobs), Insert(newId, RequestFor(keys, cursors, location), now))
    ensures r == Ok(newId) && newId in queue.jobs ==>
              var job := queue.jobs[newId];
              && job.kind == "google.review.reconcile" && job.organization == keys.organization
              && job.key == Some(keys.key(location, if location in cursors then Some(cursors[location]) else None))
              && job.maxAttempts == 3 && job.priority == 0 && job.runAfter == now && job.state == Queued
    ensures FinishedHolder(old(queue.jobs), RequestFor(keys, cursors, location)) ==> r != Ok(newId)
    ensures r != Ok(newId) ==> unchanged(queue)
  {
    var generation := if location in cursors then Some(cursors[location]) else None;
    var key := keys.key(location, generation);
    var fingerprint := keys.fingerprint(location);
    var request := Request(keys.organization, "google.review.reconcile", fingerprint, 0, 3, None, Some(key));
    r := queue.Enqueue(newId, request, now);
  }

  /// Runs of queue steps and cursor updates

  datatype Event = QueueStep(step: Step) | CursorStored(location: string, at: int)

  ghost predicate Possible(s: State, event: Event) {
    event.QueueStep? ==> Enabled(s.jobs, event.step)
  }

  function After(s: State, event: Event): State
    requires event.QueueStep? ==> event.step.Insert? || event.step.id in s.jobs
  {
    match event
    case QueueStep(step) => s.(jobs := Next(s.jobs, step))
    case CursorStored(location, at) => s.(cursors := s.cursors[location := at])
  }

  ghost predicate LegalRun(s: State, events: seq<Event>)
    decreases |events|
  {
    events == [] || (Possible(s, events[0]) && LegalRun(After(s, events[0]), events[1..]))
  }

  ghost function RunOf(s: State, events: seq<Event>): State
    requires LegalRun(s, events)
    decreases |events|
  {
    if events == [] then s else RunOf(After(s, events[0]), events[1..])
  }

  // No job for the location is ever claimed again, whatever the queue does, while its cursor stays as it is.
  ghost predicate LockedOut(keys: Keys, s: State, location: string) {
    KeyIsSpent(s.jobs, RequestFor(keys, s.cursors, location))
  }

  ghost predicate Sane(s: State) {
    UniqueKeys(s.jobs) && LeasesHeld(s.jobs)
  }

  lemma StepKeepsLeases(jobs: Jobs, step: Step)
    requires LeasesHeld(jobs) && Enabled(jobs, step)
    ensures LeasesHeld(Next(jobs, step))
  {
  }

  lemma {:induction false} RunStaysSane(s: State, events: seq<Event>)
    requires Sane(s) && LegalRun(s, events)
    ensures Sane(RunOf(s, events))
    decreases |events|
  {
    if events != [] {
      if events[0].QueueStep? {
        StepKeepsKeys(s.jobs, events[0].step);
        StepKeepsLeases(s.jobs, events[0].step);
      }
      RunStaysSane(After(s, events[0]), events[1..]);
    }
  }

  lemma {:induction false} FinishedHolderStays(s: State, events: seq<Event>, request: Request)
    requires Sane(s) && LegalRun(s, events) && FinishedHolder(s.jobs, request)
    ensures FinishedHolder(RunOf(s, events).jobs, request)
    decreases |events|
  {
    if events != [] {
      if events[0].QueueStep? {
        var holder :| Holds(s.jobs, holder, request) && Terminal(s.jobs, holder);
        StepKeepsFinishedHolder(s.jobs, events[0].step, holder, request);
        StepKeepsKeys(s.jobs, events[0].step);
        StepKeepsLeases(s.jobs, events[0].step);
      }
      FinishedHolderStays(After(s, events[0]), events[1..], request);
    }
  }

  function Start(): State {
    State(map[], map[])
  }

  // In every reachable state a location is locked out of reconciliation exactly when the job that holds
  // the key of its cursor's generation has finished.
  lemma {:induction false} LockedOutIffHolderFinished(keys: Keys, events: seq<Event>, location: string, newId: string)
    requires keys.organization != "" && LegalRun(Start(), events) && newId !in RunOf(Start(), events).jobs
    ensures var s := RunOf(Start(), events);
      LockedOut(keys, s, location) <==> FinishedHolder(s.jobs, RequestFor(keys, s.cursors, location))
  {
    RunStaysSane(Start(), events);
    var s := RunOf(Start(), events);
    KeyIsSpentIffHolderFinished(s.jobs, RequestFor(keys, s.cursors, location), newId);
  }

  // A location that is locked out is so again in every later state in which its cursor has the same
  // generation; it is let in only by another generation, and exactly when the holder of that one's key,
  // if any, has not finished.
  lemma {:induction false} LockedOutUntilCursorChanges(keys: Keys, before: seq<Event>, after: seq<Event>,
                                                       location: string, newId: string)
    requires keys.organization != "" && LegalRun(Start(), before)
    requires LegalRun(RunOf(Start(), before), after) && newId !in RunOf(RunOf(Start(), before), after).jobs
    requires newId !in RunOf(Start(), before).jobs && LockedOut(keys, RunOf(Start(), before), location)
    ensures var s, s' := RunOf(Start(), before), RunOf(RunOf(Start(), before), after);
      && (Generation(s'.cursors, location) == Generation(s.cursors, location) ==> LockedOut(keys, s', location))
      && (LockedOut(keys, s', location) <==> FinishedHolder(s'.jobs, RequestFor(keys, s'.cursors, location)))
  {
    var s := RunOf(Start(), before);
    var s' := RunOf(s, after);
    RunStaysSane(Start(), before);
    RunStaysSane(s, after);
    KeyIsSpentIffHolderFinished(s.jobs, RequestFor(keys, s.cursors, location), newId);
    KeyIsSpentIffHolderFinished(s'.jobs, RequestFor(keys, s'.cursors, location), newId);
    FinishedHolderStays(s, after, RequestFor(keys, s.cursors, location));
  }

  /// Which failures lock a location out

  function Lifted(steps: seq<Step>): seq<Event> {
    seq(|steps|, i requires 0 <= i < |steps| => QueueStep(steps[i]))
  }

  lemma {:induction false} LiftedRun(s: State, steps: seq<Step>)
    requires JobQueues.Legal(s.jobs, steps)
    ensures LegalRun(s, Lifted(steps)) && RunOf(s, Lifted(steps)) == s.(jobs := Run(s.jobs, steps))
    decreases |steps|
  {
    if steps != [] {
      assert Lifted(steps)[1..] == Lifted(steps[1..]);
      LiftedRun(After(s, QueueStep(steps[0])), steps[1..]);
    }
  }

  // From every state in which no job holds the key, a reconciliation that is queued and fails three times
  // locks its location out.
  lemma ThreeFailuresLockOut(keys: Keys, s: State, location: string, id: string, newId: string)
    returns (events: seq<Event>)
    requires Sane(s) && keys.organization != "" && id !in s.jobs && newId !in s.jobs && newId != id
    requires forall holder | holder in s.jobs :: !HoldsKey(s.jobs[holder], RequestFor(keys, s.cursors, location))
    ensures LegalRun(s, events) && RunOf(s, events).cursors == s.cursors
    ensures id in RunOf(s, events).jobs && RunOf(s, events).jobs[id].state == DeadLetter
    ensures LockedOut(keys, RunOf(s, events), location)
  {
    var request := RequestFor(keys, s.cursors, location);
    var insert := Insert(id, request, 0);
    var queued := Next(s.jobs, insert);
    FailuresEndInDeadLetter(queued, id, 0, 3);
    var steps := [insert] + FailingRun(id, 0, 3);
    assert steps[1..] == FailingRun(id, 0, 3);
    LiftedRun(s, steps);
    events := Lifted(steps);
    RunStaysSane(s, events);
    var jobs := Run(s.jobs, steps);
    assert Holds(jobs, id, request) && Terminal(jobs, id);
    forall run
      ensures !ClaimingRun(jobs, run, request)
    {
      if JobQueues.Legal(jobs, run) {
        FinishedKeyIsNeverClaimed(jobs, run, id, request);
      }
    }
  }

  /// Rounds: handlers that store the cursor before they report success

  // Beside queue and cursors: the location and generation each reconciliation was queued for, and the
  // reconciliations whose handler has stored the cursor.
  datatype Rounds = Rounds(jobs: Jobs, cursors: Cursors, targets: map<string, (string, Option<int>)>,
                           stored: set<string>)

  datatype Round =
    | QueueReconciliation(id: string, location: string, now: int)
    | HandlerStores(id: string, at: int)
    | OtherStores(location: string, at: int)
    | OtherStep(step: Step)

  // The clock is later than when the location's cursor was last stored.
  predicate ClockMoved(cursors: Cursors, location: string, at: int) {
    location in cursors ==> cursors[location] < at
  }

  ghost predicate NoReconciliationKey(keys: Keys, organization: string, key: Option<string>) {
    forall location, generation :: organization == keys.organization ==> key != Some(keys.key(location, generation))
  }

  // A handler stores the cursor of its own location while its job runs, and a reconciliation succeeds only
  // after its handler has. Other jobs do not use reconciliation keys.
  ghost predicate MayHappen(keys: Keys, s: Rounds, round: Round) {
    match round
    case QueueReconciliation(id, location, now) =>
      Enabled(s.jobs, Insert(id, RequestFor(keys, s.cursors, location), now))
    case HandlerStores(id, at) =>
      && id in s.jobs && s.jobs[id].state == Running && id in s.targets
      && ClockMoved(s.cursors, s.targets[id].0, at)
    case OtherStores(location, at) => ClockMoved(s.cursors, location, at)
    case OtherStep(step) =>
      && Enabled(s.jobs, step)
      && (step.Insert? ==> NoReconciliationKey(keys, step.request.organization, step.request.key))
      && (step.Succeed? && step.id in s.targets ==> step.id in s.stored)
  }

  function Proceed(keys: Keys, s: Rounds, round: Round): Rounds
    requires round.HandlerStores? ==> round.id in s.targets
    requires round.OtherStep? && !round.step.Insert? ==> round.step.id in s.jobs
  {
    match round
    case QueueReconciliation(id, location, now) =>
      s.(jobs := Next(s.jobs, Insert(id, RequestFor(keys, s.cursors, location), now)),
         targets := s.targets[id := (location, Generation(s.cursors, location))])
    case HandlerStores(id, at) => s.(cursors := s.cursors[s.targets[id].0 := at], stored := s.stored + {id})
    case OtherStores(location, at) => s.(cursors := s.cursors[location := at])
    case OtherStep(step) => s.(jobs := Next(s.jobs, step))
  }

  ghost predicate LegalRounds(keys: Keys, s: Rounds, rounds: seq<Round>)
    decreases |rounds|
  {
    rounds == [] || (MayHappen(keys, s, rounds[0]) && LegalRounds(keys, Proceed(keys, s, rounds[0]), rounds[1..]))
  }

  ghost function RoundsOf(keys: Keys, s: Rounds, rounds: seq<Round>): Rounds
    requires LegalRounds(keys, s, rounds)
    decreases |rounds|
  {
    if rounds == [] then s else RoundsOf(keys, Proceed(keys, s, rounds[0]), rounds[1..])
  }

  predicate NotAfter(a: Option<int>, b: Option<int>) {
    a.None? || (b.Some? && a.value <= b.value)
  }

  // The key of a job, which only reconciliations share with a location and a generation; a reconciliation
  // whose handler stored the cursor belongs to an earlier generation, and every one that succeeded did.
  ghost predicate Told(keys: Keys, s: Rounds, id: string)
    requires id in s.jobs
  {
    var job := s.jobs[id];
    if id in s.targets then
      var (location, generation) := s.targets[id];
      && job.organization == keys.organization && job.key == Some(keys.key(location, generation))
      && NotAfter(generation, Generation(s.cursors, location))
      && (id in s.stored ==> generation != Generation(s.cursors, location))
      && (job.state == Succeeded ==> id in s.stored)
    else NoReconciliationKey(keys, job.organization, job.key)
  }

  ghost predicate AllTold(keys: Keys, s: Rounds) {
    && UniqueKeys(s.jobs) && LeasesHeld(s.jobs)
    && s.targets.Keys <= s.jobs.Keys && s.stored <= s.targets.Keys
    && forall id | id in s.jobs :: Told(keys, s, id)
  }

  lemma StoringKeepsTold(keys: Keys, s: Rounds, location: string, at: int, stored: set<string>, id: string)
    requires id in s.jobs && Told(keys, s, id) && ClockMoved(s.cursors, location, at)
    requires id in stored - s.stored ==> id in s.targets && s.targets[id].0 == location
    requires s.stored <= stored
    ensures Told(keys, s.(cursors := s.cursors[location := at], stored := stored), id)
  {
  }

  lemma StepKeepsTold(keys: Keys, s: Rounds, step: Step, id: string)
    requires AllTold(keys, s) && MayHappen(keys, s, OtherStep(step)) && id in Next(s.jobs, step)
    ensures Told(keys, Proceed(keys, s, OtherStep(step)), id)
  {
    if id in s.jobs {
      assert Told(keys, s, id);
    }
  }

  lemma QueueingKeepsTold(keys: Keys, s: Rounds, round: Round, id: string)
    requires AllTold(keys, s) && round.QueueReconciliation? && MayHappen(keys, s, round)
    requires id in Proceed(keys, s, round).jobs
    ensures Told(keys, Proceed(keys, s, round), id)
  {
    if id in s.jobs {
      assert Told(keys, s, id);
    }
  }

  lemma ProceedKeepsTold(keys: Keys, s: Rounds, round: Round, id: string)
    requires AllTold(keys, s) && MayHappen(keys, s, round) && id in Proceed(keys, s, round).jobs
    ensures Told(keys, Proceed(keys, s, round), id)
  {
    match round {
      case QueueReconciliation(_, _, _) => QueueingKeepsTold(keys, s, round, id);
      case HandlerStores(handled, at) => StoringKeepsTold(keys, s, s.targets[handled].0, at, s.stored + {handled}, id);
      case OtherStores(location, at) => StoringKeepsTold(keys, s, location, at, s.stored, id);
      case OtherStep(step) => StepKeepsTold(keys, s, step, id);
    }
  }

  lemma ProceedKeepsTables(keys: Keys, s: Rounds, round: Round)
    requires AllTold(keys, s) && MayHappen(keys, s, round)
    ensures var s' := Proceed(keys, s, round);
      UniqueKeys(s'.jobs) && LeasesHeld(s'.jobs) && s'.targets.Keys <= s'.jobs.Keys && s'.stored <= s'.targets.Keys
  {
    match round {
      case QueueReconciliation(id, location, now) =>
        StepKeepsKeys(s.jobs, Insert(id, RequestFor(keys, s.cursors, location), now));
        StepKeepsLeases(s.jobs, Insert(id, RequestFor(keys, s.cursors, location), now));
      case OtherStep(step) =>
        StepKeepsKeys(s.jobs, step);
        StepKeepsLeases(s.jobs, step);
      case HandlerStores(_, _) =>
      case OtherStores(_, _) =>
    }
  }

  lemma {:induction false} EveryRoundIsTold(keys: Keys, s: Rounds, rounds: seq<Round>)
    requires AllTold(keys, s) && LegalRounds(keys, s, rounds)
    ensures AllTold(keys, RoundsOf(keys, s, rounds))
    decreases |rounds|
  {
    if rounds != [] {
      forall id | id in Proceed(keys, s, rounds[0]).jobs
        ensures Told(keys, Proceed(keys, s, rounds[0]), id)
      {
        ProceedKeepsTold(keys, s, rounds[0], id);
      }
      ProceedKeepsTables(keys, s, rounds[0]);
      EveryRoundIsTold(keys, Proceed(keys, s, rounds[0]), rounds[1..]);
    }
  }

  // The holder of the request's key is in one of these states.
  ghost predicate HolderIn(jobs: Jobs, request: Request, states: set<JobQueues.State>) {
    exists holder :: Holds(jobs, holder, request) && jobs[holder].state in states
  }

  ghost predicate TellApart(keys: Keys) {
    forall location, generation, other, another ::
      keys.key(location, generation) == keys.key(other, another) ==> location == other && generation == another
  }

  // Under a clock that moves between two stores of a cursor, and keys that tell locations and generations
  // apart, success never locks a location out: the holder of the present key has not succeeded, and the
  // location is locked out exactly when that holder is a dead letter or was cancelled.
  lemma {:induction false} LockedOutIffDeadOrCancelled(keys: Keys, rounds: seq<Round>, location: string, newId: string)
    requires keys.organization != "" && TellApart(keys)
    requires LegalRounds(keys, Rounds(map[], map[], map[], {}), rounds)
    requires newId !in RoundsOf(keys, Rounds(map[], map[], map[], {}), rounds).jobs
    ensures var s := RoundsOf(keys, Rounds(map[], map[], map[], {}), rounds);
      var request := RequestFor(keys, s.cursors, location);
      && !HolderIn(s.jobs, request, {Succeeded})
      && (LockedOut(keys, State(s.jobs, s.cursors), location) <==> HolderIn(s.jobs, request, {DeadLetter, Cancelled}))
  {
    EveryRoundIsTold(keys, Rounds(map[], map[], map[], {}), rounds);
    var s := RoundsOf(keys, Rounds(map[], map[], map[], {}), rounds);
    var request := RequestFor(keys, s.cursors, location);
    forall holder | Holds(s.jobs, holder, request)
      ensures s.jobs[holder].state != Succeeded
    {
      assert Told(keys, s, holder);
    }
    KeyIsSpentIffHolderFinished(s.jobs, request, newId);
  }
}
