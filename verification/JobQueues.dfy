/**
  The background job queue: priorities, leases, bounded retries, dead letters and cancellation, without
  an event log. As in the processing queue, a run is a sequence of atomic steps.
 */
module JobQueues {
  import opened Selection
  import opened Wrappers

  datatype State = Queued | Running | Succeeded | RetryScheduled | DeadLetter | Cancelled

  datatype Request = Request(
    organization: string, kind: string, fingerprint: string, priority: int, maxAttempts: int,
    runAfter: Option<int>, key: Option<string>)

  datatype Job = Job(
    organization: string, kind: string, fingerprint: string, state: State, priority: int, attempts: int,
    maxAttempts: int,
    runAfter: int, key: Option<string>, owner: Option<string>, leasedUntil: Option<int>, lastError: Option<string>,
    createdAt: int, updatedAt: int)

  type Jobs = map<string, Job>

  datatype QueueError = InvalidArgument | IdempotencyConflict | JobNotFound | NotOwner | StillRunning

  datatype Step =
    | Insert(id: string, request: Request, now: int)
    | Expire(id: string, now: int)
    | Claim(id: string, worker: string, leaseSeconds: int, now: int)
    | Succeed(id: string, worker: string, now: int)
    | Fail(id: string, worker: string, error: string, retryDelay: int, now: int)
    | Cancel(id: string, organization: string, now: int)

  predicate Acceptable(request: Request) {
    request.organization != "" && request.kind != "" && 1 <= request.maxAttempts
  }

  predicate HoldsKey(job: Job, request: Request) {
    request.key.Some? && job.organization == request.organization && job.key == request.key
  }

  predicate Owned(jobs: Jobs, id: string, worker: string) {
    id in jobs && jobs[id].state == Running && jobs[id].owner == Some(worker)
  }

  predicate Expired(job: Job, now: int) {
    job.state == Running && job.leasedUntil.Some? && job.leasedUntil.value <= now
  }

  predicate Waiting(job: Job) {
    job.state == Queued || job.state == RetryScheduled
  }

  predicate Ready(job: Job, now: int) {
    Waiting(job) && job.runAfter <= now
  }

  ghost predicate Enabled(jobs: Jobs, step: Step) {
    match step
    case Insert(id, request, _) =>
      && Acceptable(request)
      && id !in jobs
      && forall other | other in jobs :: !HoldsKey(jobs[other], request)
    case Expire(id, now) => id in jobs && Expired(jobs[id], now)
    case Claim(id, worker, leaseSeconds, now) => worker != "" && 0 < leaseSeconds && id in jobs && Ready(jobs[id], now)
    case Succeed(id, worker, _) => Owned(jobs, id, worker)
    case Fail(id, worker, _, retryDelay, _) => 0 <= retryDelay && Owned(jobs, id, worker)
    case Cancel(id, organization, _) => id in jobs && jobs[id].organization == organization && jobs[id].state != Running
  }

  function Truncated(error: string): string {
    if |error| <= 2000 then error else error[..2000]
  }

  function Requeued(job: Job, now: int): Job {
    job.(state := RetryScheduled, owner := None, leasedUntil := None, runAfter := now, updatedAt := now)
  }

  function NextJob(jobs: Jobs, step: Step): Job
    requires step.Insert? || step.id in jobs
  {
    match step
    case Insert(_, request, now) =>
      Job(request.organization, request.kind, request.fingerprint, Queued, request.priority, 0, request.maxAttempts,
          if request.runAfter.Some? then request.runAfter.value else now, request.key, None, None, None, now, now)
    case Expire(id, now) => Requeued(jobs[id], now)
    case Claim(id, worker, leaseSeconds, now) =>
      jobs[id].(state := Running, attempts := jobs[id].attempts + 1, owner := Some(worker),
                leasedUntil := Some(now + leaseSeconds), updatedAt := now)
    case Succeed(id, _, now) => jobs[id].(state := Succeeded, owner := None, leasedUntil := None, updatedAt := now)
    case Fail(id, _, error, retryDelay, now) =>
      var terminal := jobs[id].attempts >= jobs[id].maxAttempts;
      jobs[id].(state := if terminal then DeadLetter else RetryScheduled,
                runAfter := if terminal then now else now + retryDelay,
                owner := None, leasedUntil := None, lastError := Some(Truncated(error)), updatedAt := now)
    case Cancel(id, _, now) => jobs[id].(state := Cancelled, updatedAt := now)
  }

  function Next(jobs: Jobs, step: Step): Jobs
    requires step.Insert? || step.id in jobs
  {
    jobs[step.id := NextJob(jobs, step)]
  }

  ghost predicate Legal(jobs: Jobs, steps: seq<Step>)
    decreases |steps|
  {
    steps == [] || (Enabled(jobs, steps[0]) && Legal(Next(jobs, steps[0]), steps[1..]))
  }

  ghost function Run(jobs: Jobs, steps: seq<Step>): Jobs
    requires Legal(jobs, steps)
    decreases |steps|
  {
    if steps == [] then jobs else Run(Next(jobs, steps[0]), steps[1..])
  }

  lemma {:induction false} RunsCompose(jobs: Jobs, first: seq<Step>, second: seq<Step>)
    requires Legal(jobs, first)
    ensures Legal(jobs, first + second) <==> Legal(Run(jobs, first), second)
    ensures Legal(jobs, first + second) ==> Run(jobs, first + second) == Run(Run(jobs, first), second)
    decreases |first|
  {
    if first == [] {
      assert first + second == second;
    } else {
      RunsCompose(Next(jobs, first[0]), first[1..], second);
      assert (first + second)[1..] == first[1..] + second;
    }
  }

  /// Invariants of every run

  function ExpiryCount(steps: seq<Step>, id: string): nat
    decreases |steps|
  {
    if steps == [] then 0
    else (if steps[0].Expire? && steps[0].id == id then 1 else 0) + ExpiryCount(steps[1..], id)
  }

  function ClaimCount(steps: seq<Step>, id: string): nat
    decreases |steps|
  {
    if steps == [] then 0
    else (if steps[0].Claim? && steps[0].id == id then 1 else 0) + ClaimCount(steps[1..], id)
  }

  // A job's attempts against its limit, allowing one more for every lease that expired.
  ghost predicate WithinLimits(jobs: Jobs, id: string, expiries: nat) {
    id in jobs ==>
      var job := jobs[id];
      && 0 <= job.attempts <= job.maxAttempts + expiries
      && (Waiting(job) ==> job.attempts < job.maxAttempts + expiries)
      && (job.state == DeadLetter ==> job.maxAttempts <= job.attempts)
      && (job.state == Running <==> job.owner.Some?)
      && (job.state == Running <==> job.leasedUntil.Some?)
  }

  // Along every run: attempts count the claims, exceed the limit at most by the leases that expired, a
  // dead letter has used its limit up, and exactly the running jobs have an owner and a lease.
  lemma {:induction false} RunStaysWithinLimits(jobs: Jobs, steps: seq<Step>, id: string, expiries: nat)
    requires Legal(jobs, steps) && WithinLimits(jobs, id, expiries)
    ensures WithinLimits(Run(jobs, steps), id, expiries + ExpiryCount(steps, id))
    ensures id in jobs ==> id in Run(jobs, steps) && Run(jobs, steps)[id].maxAttempts == jobs[id].maxAttempts
    ensures id in Run(jobs, steps) ==>
              Run(jobs, steps)[id].attempts == (if id in jobs then jobs[id].attempts else 0) + ClaimCount(steps, id)
    ensures id !in Run(jobs, steps) ==> id !in jobs && ClaimCount(steps, id) == 0
    decreases |steps|
  {
    if steps != [] {
      var more := if steps[0].Expire? && steps[0].id == id then 1 else 0;
      RunStaysWithinLimits(Next(jobs, steps[0]), steps[1..], id, expiries + more);
    }
  }

  /// When the attempt limit bounds attempts

  // The lease of the job expires on an attempt at or beyond its limit.
  predicate ExpiresAtLimit(jobs: Jobs, step: Step, id: string) {
    step.Expire? && step.id == id && id in jobs && jobs[id].maxAttempts <= jobs[id].attempts
  }

  // The job, waiting, is claimed with its attempts used up.
  predicate ClaimsPastLimit(jobs: Jobs, step: Step, id: string) {
    step.Claim? && step.id == id && id in jobs && jobs[id].maxAttempts <= jobs[id].attempts
  }

  ghost predicate SomeClaimPastLimit(jobs: Jobs, steps: seq<Step>, id: string)
    requires Legal(jobs, steps)
    decreases |steps|
  {
    steps != [] && (ClaimsPastLimit(jobs, steps[0], id) || SomeClaimPastLimit(Next(jobs, steps[0]), steps[1..], id))
  }

  // Some lease of the job expires at the limit and the job is claimed again afterwards.
  ghost predicate SomeClaimAfterSpentExpiry(jobs: Jobs, steps: seq<Step>, id: string)
    requires Legal(jobs, steps)
    decreases |steps|
  {
    steps != [] && (
      || (ExpiresAtLimit(jobs, steps[0], id) && 0 < ClaimCount(steps[1..], id))
      || SomeClaimAfterSpentExpiry(Next(jobs, steps[0]), steps[1..], id))
  }

  // Whether the last step on the job was such an expiry; `spent` tells it of the steps before the run.
  ghost predicate LastStepSpentLimit(jobs: Jobs, steps: seq<Step>, id: string, spent: bool)
    requires Legal(jobs, steps)
    decreases |steps|
  {
    if steps == [] then spent
    else
      var spentNow := if steps[0].id == id then ExpiresAtLimit(jobs, steps[0], id) else spent;
      LastStepSpentLimit(Next(jobs, steps[0]), steps[1..], id, spentNow)
  }

  lemma {:induction false} SpentExpiryThenClaimCounts(jobs: Jobs, steps: seq<Step>, id: string)
    requires Legal(jobs, steps) && SomeClaimAfterSpentExpiry(jobs, steps, id)
    ensures 0 < ClaimCount(steps, id)
    decreases |steps|
  {
    if SomeClaimAfterSpentExpiry(Next(jobs, steps[0]), steps[1..], id) {
      SpentExpiryThenClaimCounts(Next(jobs, steps[0]), steps[1..], id);
    }
  }

  // A job comes to exceed its limit exactly when it is claimed with its attempts used up.
  lemma {:induction false} AttemptsExceedLimitIffClaimed(jobs: Jobs, steps: seq<Step>, id: string)
    requires Legal(jobs, steps) && (id in jobs ==> jobs[id].attempts <= jobs[id].maxAttempts)
    ensures id in Run(jobs, steps) ==>
              var job := Run(jobs, steps)[id];
              job.maxAttempts < job.attempts <==> SomeClaimPastLimit(jobs, steps, id)
    decreases |steps|
  {
    if steps != [] {
      var next := Next(jobs, steps[0]);
      if ClaimsPastLimit(jobs, steps[0], id) {
        AttemptsNeverFall(next, steps[1..], id);
      } else {
        AttemptsExceedLimitIffClaimed(next, steps[1..], id);
      }
    }
  }

  lemma {:induction false} AttemptsNeverFall(jobs: Jobs, steps: seq<Step>, id: string)
    requires Legal(jobs, steps) && id in jobs
    ensures id in Run(jobs, steps)
    ensures jobs[id].attempts <= Run(jobs, steps)[id].attempts
    ensures Run(jobs, steps)[id].maxAttempts == jobs[id].maxAttempts
    decreases |steps|
  {
    if steps != [] {
      AttemptsNeverFall(Next(jobs, steps[0]), steps[1..], id);
    }
  }

  // Equivalently, when one of its leases expires at the limit and the job is claimed again afterwards.
  lemma {:induction false} AttemptsExceedLimitIffExpired(jobs: Jobs, steps: seq<Step>, id: string)
    requires Legal(jobs, steps) && WithinLimits(jobs, id, 0)
    ensures id in Run(jobs, steps) ==>
              var job := Run(jobs, steps)[id];
              job.maxAttempts < job.attempts <==> SomeClaimAfterSpentExpiry(jobs, steps, id)
    decreases |steps|
  {
    if steps != [] {
      var next := Next(jobs, steps[0]);
      if ExpiresAtLimit(jobs, steps[0], id) {
        RunStaysWithinLimits(next, steps[1..], id, 1);
        if SomeClaimAfterSpentExpiry(next, steps[1..], id) {
          SpentExpiryThenClaimCounts(next, steps[1..], id);
        }
      } else {
        AttemptsExceedLimitIffExpired(next, steps[1..], id);
      }
    }
  }

  // A waiting job has used its limit up exactly when the last step on it was an expiry at the limit.
  lemma {:induction false} WaitingAtLimitIffJustExpired(jobs: Jobs, steps: seq<Step>, id: string, spent: bool)
    requires Legal(jobs, steps)
    requires id in jobs && Waiting(jobs[id]) ==> (jobs[id].maxAttempts <= jobs[id].attempts <==> spent)
    ensures id in Run(jobs, steps) && Waiting(Run(jobs, steps)[id]) ==>
              var job := Run(jobs, steps)[id];
              job.maxAttempts <= job.attempts <==> LastStepSpentLimit(jobs, steps, id, spent)
    decreases |steps|
  {
    if steps != [] {
      var now := if steps[0].id == id then ExpiresAtLimit(jobs, steps[0], id) else spent;
      WaitingAtLimitIffJustExpired(Next(jobs, steps[0]), steps[1..], id, now);
    }
  }

  // One worker that keeps losing its lease claims the same job any number of times, whatever the limit.
  ghost function CrashingRun(id: string, now: int, crashes: nat): seq<Step>
    decreases crashes
  {
    if crashes == 0 then []
    else [Claim(id, "worker", 1, now), Expire(id, now + 1)] + CrashingRun(id, now + 1, crashes - 1)
  }

  lemma {:induction false} AttemptsOutrunTheLimit(jobs: Jobs, id: string, now: int, crashes: nat)
    requires id in jobs && Ready(jobs[id], now)
    ensures var steps := CrashingRun(id, now, crashes);
      && Legal(jobs, steps)
      && id in Run(jobs, steps)
      && Run(jobs, steps)[id].attempts == jobs[id].attempts + crashes
      && Run(jobs, steps)[id].maxAttempts == jobs[id].maxAttempts
      && Waiting(Run(jobs, steps)[id])
    decreases crashes
  {
    if crashes != 0 {
      var rest := CrashingRun(id, now + 1, crashes - 1);
      var claim, expire := Claim(id, "worker", 1, now), Expire(id, now + 1);
      AttemptsOutrunTheLimit(Next(Next(jobs, claim), expire), id, now + 1, crashes - 1);
      assert ([claim, expire] + rest)[1..] == [expire] + rest;
      assert ([expire] + rest)[1..] == rest;
    }
  }

  /// Steps on one job

  lemma {:induction false} LegalPrefix(jobs: Jobs, steps: seq<Step>, last: Step)
    requires Legal(jobs, steps + [last])
    ensures Legal(jobs, steps) && Enabled(Run(jobs, steps), last)
    decreases |steps|
  {
    if steps == [] {
      assert steps + [last] == [last];
    } else {
      assert (steps + [last])[1..] == steps[1..] + [last];
      LegalPrefix(Next(jobs, steps[0]), steps[1..], last);
    }
  }

  lemma {:induction false} StepsOnOtherJobs(jobs: Jobs, steps: seq<Step>, id: string)
    requires Legal(jobs, steps) && id in jobs
    requires forall i | 0 <= i < |steps| :: steps[i].id != id
    ensures id in Run(jobs, steps) && Run(jobs, steps)[id] == jobs[id]
    decreases |steps|
  {
    if steps != [] {
      StepsOnOtherJobs(Next(jobs, steps[0]), steps[1..], id);
    }
  }

  // When `later` may be the next step on a job after `earlier`.
  predicate MayFollow(earlier: Step, later: Step) {
    match later
    case Insert(_, _, _) => false
    case Claim(_, _, _, now) =>
      (match earlier
       case Insert(_, request, inserted) => (if request.runAfter.Some? then request.runAfter.value else inserted) <= now
       case Expire(_, expired) => expired <= now
       case Fail(_, _, _, retryDelay, failed) => failed + retryDelay <= now
       case _ => false)
    case Expire(_, now) => earlier.Claim? && earlier.now + earlier.leaseSeconds <= now
    case Succeed(_, worker, _) => earlier.Claim? && earlier.worker == worker
    case Fail(_, worker, _, _, _) => earlier.Claim? && earlier.worker == worker
    case Cancel(_, _, _) => !earlier.Claim?
  }

  // A claim ends with its own worker's report or with an expiry no earlier than the end of the lease;
  // nobody else claims or cancels the job meanwhile, and retries wait for their delay.
  lemma {:induction false} ConsecutiveStepsOnAJob(jobs: Jobs, earlier: Step, between: seq<Step>, later: Step)
    requires Legal(jobs, [earlier] + between + [later])
    requires earlier.id == later.id && forall i | 0 <= i < |between| :: between[i].id != later.id
    ensures MayFollow(earlier, later)
  {
    var next := Next(jobs, earlier);
    assert ([earlier] + between + [later])[1..] == between + [later];
    LegalPrefix(next, between, later);
    StepsOnOtherJobs(next, between, later.id);
    NextStepOnAJob(jobs, earlier, Run(next, between), later);
  }

  // And conversely, whatever happens to other jobs meanwhile: the next step on a job can be taken exactly
  // when it may follow the last one and its own arguments are in order, from the very instant on that the
  // lease ends or the retry is due. A failure with the attempts used up is not followed by a claim.
  lemma {:induction false} NextStepOnAJobIff(jobs: Jobs, earlier: Step, between: seq<Step>, later: Step)
    requires Enabled(jobs, earlier) && Legal(Next(jobs, earlier), between)
    requires earlier.id == later.id && !later.Insert?
    requires forall i | 0 <= i < |between| :: between[i].id != later.id
    ensures Enabled(Run(Next(jobs, earlier), between), later)
       <==> && MayFollow(earlier, later) && ArgumentsInOrder(NextJob(jobs, earlier).organization, later)
            && (earlier.Fail? && later.Claim? ==> jobs[earlier.id].attempts < jobs[earlier.id].maxAttempts)
  {
    StepsOnOtherJobs(Next(jobs, earlier), between, later.id);
    FollowsIff(jobs, earlier, Run(Next(jobs, earlier), between), later);
  }

  predicate ArgumentsInOrder(organization: string, step: Step) {
    match step
    case Claim(_, worker, leaseSeconds, _) => |worker| > 0 && 1 <= leaseSeconds
    case Fail(_, _, _, retryDelay, _) => -1 < retryDelay
    case Cancel(_, canceller, _) => canceller == organization
    case _ => true
  }

  lemma FollowsIff(jobs: Jobs, earlier: Step, jobs': Jobs, later: Step)
    requires Enabled(jobs, earlier) && earlier.id == later.id && !later.Insert?
    requires later.id in jobs' && jobs'[later.id] == NextJob(jobs, earlier)
    ensures Enabled(jobs', later)
       <==> && MayFollow(earlier, later) && ArgumentsInOrder(NextJob(jobs, earlier).organization, later)
            && (earlier.Fail? && later.Claim? ==> jobs[earlier.id].attempts < jobs[earlier.id].maxAttempts)
  {
  }

  // What the row says about the last step taken on the job; `before` is the row that step found, if any.
  ghost predicate TellsLastStep(job: Job, last: Step, before: Option<Job>) {
    && job.updatedAt == last.now
    && (last.Insert? || before.Some?)
    && (!last.Cancel? ==> job.owner == if last.Claim? then Some(last.worker) else None)
    && (!last.Cancel? ==> job.leasedUntil == if last.Claim? then Some(last.now + last.leaseSeconds) else None)
    && (!last.Insert? && !last.Fail? ==> job.lastError == before.value.lastError)
    && (!last.Insert? && !last.Claim? ==> job.attempts == before.value.attempts)
    && match last
       case Insert(_, _, _) => job.state == Queued && job.attempts == 0 && job.lastError == None
       case Expire(_, now) => job.state == RetryScheduled && job.runAfter == now
       case Claim(_, _, _, _) => job.state == Running && job.attempts == before.value.attempts + 1
       case Succeed(_, _, _) => job.state == Succeeded
       case Fail(_, _, error, retryDelay, now) =>
         && (if job.attempts < job.maxAttempts then job.state == RetryScheduled && job.runAfter == now + retryDelay
             else job.state == DeadLetter && job.runAfter == now)
         && job.lastError.Some? && job.lastError.value <= error
         && |job.lastError.value| == if |error| < 2000 then |error| else 2000
       case Cancel(_, _, _) => job.state == Cancelled
  }

  // Whatever happens to other jobs afterwards.
  lemma {:induction false} RowTellsLastStep(jobs: Jobs, last: Step, after: seq<Step>)
    requires Enabled(jobs, last) && Legal(Next(jobs, last), after)
    requires forall i | 0 <= i < |after| :: after[i].id != last.id
    ensures last.id in Run(Next(jobs, last), after)
    ensures TellsLastStep(Run(Next(jobs, last), after)[last.id], last,
                          if last.id in jobs then Some(jobs[last.id]) else None)
  {
    StepsOnOtherJobs(Next(jobs, last), after, last.id);
  }

  lemma NextStepOnAJob(jobs: Jobs, earlier: Step, jobs': Jobs, later: Step)
    requires Enabled(jobs, earlier) && earlier.id == later.id
    requires later.id in jobs' && jobs'[later.id] == NextJob(jobs, earlier) && Enabled(jobs', later)
    ensures MayFollow(earlier, later)
  {
  }

  /// Idempotency keys

  predicate Holds(jobs: Jobs, holder: string, request: Request) {
    holder in jobs && HoldsKey(jobs[holder], request)
  }

  // No two jobs of one organization share an idempotency key.
  ghost predicate UniqueKeys(jobs: Jobs) {
    forall id, other | id in jobs && other in jobs && id != other ::
      jobs[id].key == None || jobs[id].organization != jobs[other].organization || jobs[id].key != jobs[other].key
  }

  lemma StepKeepsKeys(jobs: Jobs, step: Step)
    requires UniqueKeys(jobs) && Enabled(jobs, step)
    ensures UniqueKeys(Next(jobs, step))
  {
    if step.Insert? {
      assert forall other | other in jobs :: !HoldsKey(jobs[other], step.request);
    }
  }

  lemma {:induction false} RunKeepsKeys(jobs: Jobs, steps: seq<Step>)
    requires Legal(jobs, steps) && UniqueKeys(jobs)
    ensures UniqueKeys(Run(jobs, steps))
    decreases |steps|
  {
    if steps != [] {
      StepKeepsKeys(jobs, steps[0]);
      RunKeepsKeys(Next(jobs, steps[0]), steps[1..]);
    }
  }

  // A job keeps what it was inserted with.
  lemma {:induction false} RunKeepsIdentity(jobs: Jobs, steps: seq<Step>, id: string)
    requires Legal(jobs, steps) && id in jobs
    ensures id in Run(jobs, steps)
    ensures var job, job' := jobs[id], Run(jobs, steps)[id];
      && job'.organization == job.organization && job'.key == job.key && job'.fingerprint == job.fingerprint
      && job'.kind == job.kind && job'.priority == job.priority && job'.maxAttempts == job.maxAttempts
      && job'.createdAt == job.createdAt
    decreases |steps|
  {
    if steps != [] {
      RunKeepsIdentity(Next(jobs, steps[0]), steps[1..], id);
    }
  }

  // So every job is, for ever, the job of the request it was inserted for.
  lemma {:induction false} JobIsOfItsRequest(jobs: Jobs, id: string, request: Request, now: int, steps: seq<Step>)
    requires Enabled(jobs, Insert(id, request, now)) && Legal(Next(jobs, Insert(id, request, now)), steps)
    ensures id in Run(Next(jobs, Insert(id, request, now)), steps)
    ensures var job := Run(Next(jobs, Insert(id, request, now)), steps)[id];
      && job.organization == request.organization && job.key == request.key && job.fingerprint == request.fingerprint
      && job.kind == request.kind && job.priority == request.priority && job.maxAttempts == request.maxAttempts
      && job.createdAt == now && (request.key.Some? ==> HoldsKey(job, request))
  {
    RunKeepsIdentity(Next(jobs, Insert(id, request, now)), steps, id);
  }

  // What enqueueing answers: the new identifier exactly when nobody holds the key, the holder exactly
  // when its payload is the same, whatever became of it, and a conflict exactly when it differs.
  ghost predicate Answers(jobs: Jobs, newId: string, request: Request, r: Result<string, QueueError>) {
    && (r == Err(InvalidArgument) <==> !Acceptable(request))
    && (r == Ok(newId) <==> Acceptable(request) && forall holder | holder in jobs :: !HoldsKey(jobs[holder], request))
    && (r == Err(IdempotencyConflict) <==>
          Acceptable(request)
          && exists holder :: Holds(jobs, holder, request) && jobs[holder].fingerprint != request.fingerprint)
    && (r.Ok? && r.value != newId ==> Holds(jobs, r.value, request) && jobs[r.value].fingerprint == request.fingerprint)
    && (r.Err? ==> r.error in {InvalidArgument, IdempotencyConflict})
  }

  lemma HolderIsUnique(jobs: Jobs, request: Request, holder: string)
    requires UniqueKeys(jobs) && Holds(jobs, holder, request)
    ensures forall other | Holds(jobs, other, request) :: other == holder
  {
  }

  lemma HolderDecides(jobs: Jobs, newId: string, request: Request, holder: string)
    requires UniqueKeys(jobs) && Acceptable(request) && newId !in jobs && Holds(jobs, holder, request)
    ensures Answers(jobs, newId, request,
                    if jobs[holder].fingerprint != request.fingerprint then Err(IdempotencyConflict) else Ok(holder))
  {
    HolderIsUnique(jobs, request, holder);
  }

  // Once a job holds a key, whatever the queue does later, a request with that key has one answer: that
  // job if the payload is the same, and a conflict otherwise.
  lemma {:induction false} RepeatedRequestFindsItsJob(jobs: Jobs, id: string, request: Request, after: seq<Step>,
                                                      newId: string, jobs': Jobs, r: Result<string, QueueError>)
    requires UniqueKeys(jobs) && Holds(jobs, id, request)
    requires Legal(jobs, after) && jobs' == Run(jobs, after)
    requires Acceptable(request) && newId !in jobs' && Answers(jobs', newId, request, r)
    ensures r == if jobs[id].fingerprint == request.fingerprint then Ok(id) else Err(IdempotencyConflict)
  {
    RunKeepsKeys(jobs, after);
    RunKeepsIdentity(jobs, after, id);
    HolderIsUnique(jobs', request, id);
  }

  // In particular a request that was accepted is answered by its own job when it is repeated, at any time.
  lemma {:induction false} RepeatingARequestIsIdempotent(jobs: Jobs, id: string, request: Request, now: int,
                                                         after: seq<Step>, newId: string, jobs': Jobs,
                                                         r: Result<string, QueueError>)
    requires UniqueKeys(jobs) && Enabled(jobs, Insert(id, request, now))
    requires Legal(Next(jobs, Insert(id, request, now)), after)
    requires jobs' == Run(Next(jobs, Insert(id, request, now)), after)
    requires request.key.Some? && newId !in jobs' && Answers(jobs', newId, request, r)
    ensures r == Ok(id)
  {
    StepKeepsKeys(jobs, Insert(id, request, now));
    JobIsOfItsRequest(jobs, id, request, now, []);
    RepeatedRequestFindsItsJob(Next(jobs, Insert(id, request, now)), id, request, after, newId, jobs', r);
  }

  /// Finished jobs

  predicate Terminal(jobs: Jobs, id: string) {
    id in jobs && (jobs[id].state.Succeeded? || jobs[id].state.DeadLetter? || jobs[id].state.Cancelled?)
  }

  // A finished job keeps its state exactly when nobody cancels it afterwards or it was cancelled already:
  // cancellation refuses only running jobs. Nothing else about the job ever changes.
  lemma {:induction false} OnlyCancelLeavesTerminal(jobs: Jobs, steps: seq<Step>, id: string)
    requires Legal(jobs, steps) && Terminal(jobs, id)
    ensures Terminal(Run(jobs, steps), id)
    ensures Run(jobs, steps)[id].state == jobs[id].state
       <==> jobs[id].state == Cancelled || forall i | 0 <= i < |steps| :: !(steps[i].Cancel? && steps[i].id == id)
    ensures Run(jobs, steps)[id].(state := jobs[id].state, updatedAt := jobs[id].updatedAt) == jobs[id]
    ensures Run(jobs, steps)[id].state in {jobs[id].state, Cancelled}
    decreases |steps|
  {
    if steps != [] {
      OnlyCancelLeavesTerminal(Next(jobs, steps[0]), steps[1..], id);
    }
  }

  // A key held by a finished job is spent for ever: whatever the queue does later, no job with that key
  // can be inserted and the holder is never claimed again.
  lemma {:induction false} FinishedJobSpendsItsKey(jobs: Jobs, steps: seq<Step>, id: string, request: Request,
                                                   newId: string, worker: string, leaseSeconds: int, now: int)
    requires Legal(jobs, steps) && Terminal(jobs, id) && HoldsKey(jobs[id], request)
    ensures !Enabled(Run(jobs, steps), Insert(newId, request, now))
    ensures !Enabled(Run(jobs, steps), Claim(id, worker, leaseSeconds, now))
  {
    OnlyCancelLeavesTerminal(jobs, steps, id);
    assert HoldsKey(Run(jobs, steps)[id], request);
  }

  // Some step of the run claims a job that holds the request's key.
  ghost predicate ClaimsKey(jobs: Jobs, steps: seq<Step>, request: Request)
    requires Legal(jobs, steps)
    decreases |steps|
  {
    steps != [] && (
      || (steps[0].Claim? && HoldsKey(jobs[steps[0].id], request))
      || ClaimsKey(Next(jobs, steps[0]), steps[1..], request))
  }

  ghost predicate ClaimingRun(jobs: Jobs, steps: seq<Step>, request: Request) {
    Legal(jobs, steps) && ClaimsKey(jobs, steps, request)
  }

  // Whatever the queue does, no job with the request's key is ever claimed again.
  ghost predicate KeyIsSpent(jobs: Jobs, request: Request) {
    forall steps :: !ClaimingRun(jobs, steps, request)
  }

  ghost predicate FinishedHolder(jobs: Jobs, request: Request) {
    exists holder :: Holds(jobs, holder, request) && Terminal(jobs, holder)
  }

  // Exactly the running jobs have a lease.
  ghost predicate LeasesHeld(jobs: Jobs) {
    forall id | id in jobs :: jobs[id].state == Running <==> jobs[id].leasedUntil.Some?
  }

  lemma StepKeepsFinishedHolder(jobs: Jobs, step: Step, holder: string, request: Request)
    requires UniqueKeys(jobs) && Enabled(jobs, step) && Holds(jobs, holder, request) && Terminal(jobs, holder)
    ensures Holds(Next(jobs, step), holder, request) && Terminal(Next(jobs, step), holder)
    ensures step.Claim? ==> !HoldsKey(jobs[step.id], request)
    ensures step.Insert? ==> !HoldsKey(NextJob(jobs, step), request)
  {
    HolderIsUnique(jobs, request, holder);
  }

  lemma {:induction false} FinishedKeyIsNeverClaimed(jobs: Jobs, steps: seq<Step>, holder: string, request: Request)
    requires UniqueKeys(jobs) && Legal(jobs, steps) && Holds(jobs, holder, request) && Terminal(jobs, holder)
    ensures !ClaimsKey(jobs, steps, request)
    ensures Holds(Run(jobs, steps), holder, request) && Terminal(Run(jobs, steps), holder)
    decreases |steps|
  {
    if steps != [] {
      StepKeepsFinishedHolder(jobs, steps[0], holder, request);
      StepKeepsKeys(jobs, steps[0]);
      FinishedKeyIsNeverClaimed(Next(jobs, steps[0]), steps[1..], holder, request);
    }
  }

  lemma WaitingKeyCanBeClaimed(jobs: Jobs, holder: string, request: Request) returns (steps: seq<Step>)
    requires Holds(jobs, holder, request) && Waiting(jobs[holder])
    ensures Legal(jobs, steps) && ClaimsKey(jobs, steps, request)
  {
    var claim := Claim(holder, "worker", 1, jobs[holder].runAfter);
    OneStep(jobs, claim);
    steps := [claim];
  }

  // A key without a finished holder: its job can be put back in line or inserted, and claimed.
  lemma OpenKeyCanBeClaimed(jobs: Jobs, request: Request, newId: string) returns (steps: seq<Step>)
    requires LeasesHeld(jobs) && Acceptable(request) && request.key.Some? && newId !in jobs
    requires !FinishedHolder(jobs, request)
    ensures Legal(jobs, steps) && ClaimsKey(jobs, steps, request)
  {
    if holder :| Holds(jobs, holder, request) {
      assert !Terminal(jobs, holder);
      if Waiting(jobs[holder]) {
        steps := WaitingKeyCanBeClaimed(jobs, holder, request);
      } else {
        var expire := Expire(holder, jobs[holder].leasedUntil.value);
        var rest := WaitingKeyCanBeClaimed(Next(jobs, expire), holder, request);
        steps := [expire] + rest;
        assert steps[1..] == rest;
      }
    } else {
      assert forall other | other in jobs :: HoldsKey(jobs[other], request) ==> Holds(jobs, other, request);
      var insert := Insert(newId, request, 0);
      var rest := WaitingKeyCanBeClaimed(Next(jobs, insert), newId, request);
      steps := [insert] + rest;
      assert steps[1..] == rest;
    }
  }

  // A key is spent exactly when the job that holds it has finished; otherwise some run claims one.
  lemma KeyIsSpentIffHolderFinished(jobs: Jobs, request: Request, newId: string)
    requires UniqueKeys(jobs) && LeasesHeld(jobs)
    requires Acceptable(request) && request.key.Some? && newId !in jobs
    ensures KeyIsSpent(jobs, request) <==> FinishedHolder(jobs, request)
  {
    if FinishedHolder(jobs, request) {
      var holder :| Holds(jobs, holder, request) && Terminal(jobs, holder);
      forall steps
        ensures !ClaimingRun(jobs, steps, request)
      {
        if Legal(jobs, steps) {
          FinishedKeyIsNeverClaimed(jobs, steps, holder, request);
        }
      }
    } else {
      var steps := OpenKeyCanBeClaimed(jobs, request, newId);
      assert ClaimingRun(jobs, steps, request);
    }
  }

  lemma {:induction false} ReachableTablesAreSane(steps: seq<Step>)
    requires Legal(map[], steps)
    ensures UniqueKeys(Run(map[], steps)) && LeasesHeld(Run(map[], steps))
  {
    RunKeepsKeys(map[], steps);
    forall id | id in Run(map[], steps)
      ensures Run(map[], steps)[id].state == Running <==> Run(map[], steps)[id].leasedUntil.Some?
    {
      RunStaysWithinLimits(map[], steps, id, 0);
    }
  }

  // So it is in every reachable table.
  lemma {:induction false} ReachableKeyIsSpentIffHolderFinished(steps: seq<Step>, request: Request, newId: string)
    requires Legal(map[], steps) && newId !in Run(map[], steps)
    requires Acceptable(request) && request.key.Some?
    ensures KeyIsSpent(Run(map[], steps), request) <==> FinishedHolder(Run(map[], steps), request)
  {
    ReachableTablesAreSane(steps);
    KeyIsSpentIffHolderFinished(Run(map[], steps), request, newId);
  }

  // A job that fails as often as its limit allows.
  ghost function FailingRun(id: string, now: int, rounds: nat): seq<Step>
    decreases rounds
  {
    if rounds == 0 then []
    else [Claim(id, "worker", 1, now), Fail(id, "worker", "error", 0, now)] + FailingRun(id, now, rounds - 1)
  }

  lemma {:induction false} FailuresEndInDeadLetter(jobs: Jobs, id: string, now: int, rounds: nat)
    requires id in jobs && Ready(jobs[id], now) && 0 < rounds && jobs[id].attempts + rounds == jobs[id].maxAttempts
    ensures var steps := FailingRun(id, now, rounds);
      && Legal(jobs, steps) && id in Run(jobs, steps) && Run(jobs, steps)[id].state == DeadLetter
      && Run(jobs, steps)[id].organization == jobs[id].organization && Run(jobs, steps)[id].key == jobs[id].key
    decreases rounds
  {
    var claim, fail := Claim(id, "worker", 1, now), Fail(id, "worker", "error", 0, now);
    var rest := FailingRun(id, now, rounds - 1);
    assert ([claim, fail] + rest)[1..] == [fail] + rest;
    assert ([fail] + rest)[1..] == rest;
    if rounds > 1 {
      FailuresEndInDeadLetter(Next(Next(jobs, claim), fail), id, now, rounds - 1);
    } else {
      assert rest == [] && Run(Next(Next(jobs, claim), fail), []) == Next(Next(jobs, claim), fail);
    }
  }

  /// Recovery of expired leases, one statement for all of them

  function ExpiredIds(jobs: Jobs, now: int): set<string> {
    set id | id in jobs && Expired(jobs[id], now)
  }

  function Recovered(jobs: Jobs, now: int): Jobs {
    map id | id in jobs :: if Expired(jobs[id], now) then Requeued(jobs[id], now) else jobs[id]
  }

  function Expiries(order: seq<string>, now: int): seq<Step> {
    seq(|order|, i requires 0 <= i < |order| => Expire(order[i], now))
  }

  // The bulk update is a run of single expiries, one for each expired lease.
  lemma {:induction false} RecoveryIsARun(jobs: Jobs, now: int) returns (order: seq<string>)
    ensures multiset(order) == multiset(ExpiredIds(jobs, now))
    ensures Legal(jobs, Expiries(order, now))
    ensures Run(jobs, Expiries(order, now)) == Recovered(jobs, now)
    decreases ExpiredIds(jobs, now)
  {
    if ExpiredIds(jobs, now) == {} {
      order := [];
      assert forall id | id in jobs :: id in ExpiredIds(jobs, now) <==> Expired(jobs[id], now);
      assert Recovered(jobs, now) == jobs;
    } else {
      var id :| id in ExpiredIds(jobs, now);
      var next := Next(jobs, Expire(id, now));
      OneExpiryLess(jobs, id, now);
      var rest := RecoveryIsARun(next, now);
      order := [id] + rest;
      assert Expiries(order, now)[1..] == Expiries(rest, now);
      assert multiset(order) == multiset(ExpiredIds(jobs, now));
    }
  }

  lemma OneExpiryLess(jobs: Jobs, id: string, now: int)
    requires id in ExpiredIds(jobs, now)
    ensures ExpiredIds(Next(jobs, Expire(id, now)), now) == ExpiredIds(jobs, now) - {id}
    ensures Recovered(Next(jobs, Expire(id, now)), now) == Recovered(jobs, now)
  {
  }

  /// The queue

  // The claim order: highest priority first, then earliest created.
  predicate NotAfter(a: Job, b: Job) {
    a.priority > b.priority || (a.priority == b.priority && a.createdAt <= b.createdAt)
  }

  ghost predicate FirstInLine(jobs: Jobs, id: string, now: int) {
    && id in jobs && Ready(jobs[id], now)
    && forall other | other in jobs && Ready(jobs[other], now) :: NotAfter(jobs[id], jobs[other])
  }

  method FirstReady(jobs: Jobs, now: int) returns (first: Option<string>)
    ensures first.None? ==> forall id | id in jobs :: !Ready(jobs[id], now)
    ensures first.Some? ==> FirstInLine(jobs, first.value, now)
  {
    var ready := set id | id in jobs && Ready(jobs[id], now);
    assert forall id | id in jobs && Ready(jobs[id], now) :: id in ready;
    if ready == {} {
      return None;
    }
    SomeoneComesFirst(jobs, ready, NotAfter);
    var id :| id in ready && ComesFirst(jobs, ready, NotAfter, id);
    return Some(id);
  }

  class JobQueue {
    var jobs: Jobs
    // The atomic steps taken since the database was created.
    ghost var steps: seq<Step>

    ghost predicate Valid()
      reads this
    {
      Legal(map[], steps) && Run(map[], steps) == jobs
    }

    constructor ()
      ensures Valid() && jobs == map[]
    {
      jobs, steps := map[], [];
    }

    // Records enabled steps after the code has made its changes.
    ghost method Took(more: seq<Step>, before: Jobs)
      requires Legal(map[], steps) && Run(map[], steps) == before
      requires Legal(before, more) && jobs == Run(before, more)
      modifies this`steps
      ensures Valid() && steps == old(steps) + more
    {
      RunsCompose(map[], steps, more);
      steps := steps + more;
    }

    // A repeated key returns the job that holds it whatever became of that job, even a dead letter.
    method Enqueue(newId: string, request: Request, now: int) returns (r: Result<string, QueueError>)
      requires Valid() && newId !in jobs
      modifies this
      ensures Valid()
      ensures Answers(old(jobs), newId, request, r)
      ensures r == Err(InvalidArgument) <==>
                request.organization == "" || request.kind == "" || request.maxAttempts <= 0
      ensures r == Ok(newId) ==> Holds(jobs, newId, request) || request.key.None?
      ensures r == Ok(newId) ==> steps == old(steps) + [Insert(newId, request, now)]
      ensures r == Ok(newId) ==>
                Enabled(old(jobs), Insert(newId, request, now)) && jobs == Next(old(jobs), Insert(newId, request, now))
      ensures r != Ok(newId) ==> unchanged(this)
    {
      if request.organization == "" || request.kind == "" || request.maxAttempts < 1 {
        return Err(InvalidArgument);
      }
      if holder :| holder in jobs && HoldsKey(jobs[holder], request) {
        RunKeepsKeys(map[], steps);
        HolderDecides(jobs, newId, request, holder);
        if jobs[holder].fingerprint != request.fingerprint {
          return Err(IdempotencyConflict);
        }
        return Ok(holder);
      }
      ghost var before := jobs;
      var due := if request.runAfter.Some? then request.runAfter.value else now;
      jobs := jobs[newId := Job(request.organization, request.kind, request.fingerprint, Queued, request.priority, 0,
                                request.maxAttempts, due, request.key, None, None, None, now, now)];
      OneStep(before, Insert(newId, request, now));
      Took([Insert(newId, request, now)], before);
      return Ok(newId);
    }

    method RecoverExpiredLeases(now: int) returns (count: nat, ghost order: seq<string>)
      requires Valid()
      modifies this
      ensures Valid()
      ensures jobs == Recovered(old(jobs), now) && count == |ExpiredIds(old(jobs), now)|
      ensures multiset(order) == multiset(ExpiredIds(old(jobs), now)) && steps == old(steps) + Expiries(order, now)
    {
      ghost var before := jobs;
      count := |ExpiredIds(jobs, now)|;
      jobs := map id | id in jobs ::
        if jobs[id].state == Running && jobs[id].leasedUntil.Some? && jobs[id].leasedUntil.value <= now
        then jobs[id].(state := RetryScheduled, owner := None, leasedUntil := None, runAfter := now, updatedAt := now)
        else jobs[id];
      order := RecoveryIsARun(before, now);
      Took(Expiries(order, now), before);
    }

    // The clock is read once for the claim and once more for the recovery that precedes it.
    method ClaimNext(worker: string, leaseSeconds: int, now: int, recoveredAt: int)
      returns (r: Result<Option<string>, QueueError>, ghost order: seq<string>)
      requires Valid()
      modifies this
      ensures Valid()
      ensures r.Err? <==> worker == "" || leaseSeconds <= 0
      ensures r.Err? ==> unchanged(this) && r.error == InvalidArgument
      ensures r == Ok(None) ==>
                jobs == Recovered(old(jobs), recoveredAt) && forall id | id in jobs :: !Ready(jobs[id], now)
      ensures r == Ok(None) ==> steps == old(steps) + Expiries(order, recoveredAt)
      ensures r.Ok? && r.value.Some? ==>
                var recovered, id := Recovered(old(jobs), recoveredAt), r.value.value;
                && FirstInLine(recovered, id, now)
                && (forall other | other in recovered && recovered[other].state in {Queued, RetryScheduled}
                                   && recovered[other].runAfter <= now ::
                      || recovered[id].priority > recovered[other].priority
                      || (recovered[id].priority == recovered[other].priority
                          && recovered[id].createdAt <= recovered[other].createdAt))
                && jobs == Next(recovered, Claim(id, worker, leaseSeconds, now))
                && steps == old(steps) + Expiries(order, recoveredAt) + [Claim(id, worker, leaseSeconds, now)]
    {
      order := [];
      if worker == "" || leaseSeconds <= 0 {
        return Err(InvalidArgument), order;
      }
      var _, expired := RecoverExpiredLeases(recoveredAt);
      order := expired;
      var first := FirstReady(jobs, now);
      if first.None? {
        return Ok(None), order;
      }
      var id := first.value;
      ghost var before := jobs;
      jobs := jobs[id := jobs[id].(state := Running, attempts := jobs[id].attempts + 1, owner := Some(worker),
                                   leasedUntil := Some(now + leaseSeconds), updatedAt := now)];
      OneStep(before, Claim(id, worker, leaseSeconds, now));
      Took([Claim(id, worker, leaseSeconds, now)], before);
      return Ok(Some(id)), order;
    }

    method SucceedJob(id: string, worker: string, now: int) returns (r: Result<(), QueueError>)
      requires Valid()
      modifies this
      ensures Valid()
      ensures r.Ok? <==> Owned(old(jobs), id, worker)
      ensures r.Ok? ==>
                jobs == Next(old(jobs), Succeed(id, worker, now)) && steps == old(steps) + [Succeed(id, worker, now)]
      ensures r.Err? ==> unchanged(this) && r.error == if id in jobs then NotOwner else JobNotFound
    {
      if id !in jobs {
        return Err(JobNotFound);
      }
      if jobs[id].state != Running || jobs[id].owner != Some(worker) {
        return Err(NotOwner);
      }
      ghost var before := jobs;
      jobs := jobs[id := jobs[id].(state := Succeeded, owner := None, leasedUntil := None, updatedAt := now)];
      OneStep(before, Succeed(id, worker, now));
      Took([Succeed(id, worker, now)], before);
      return Ok(());
    }

    method FailJob(id: string, worker: string, error: string, retryDelay: int, now: int)
      returns (r: Result<(), QueueError>)
      requires Valid()
      modifies this
      ensures Valid()
      ensures r.Ok? <==> 0 <= retryDelay && Owned(old(jobs), id, worker)
      ensures r.Ok? ==> jobs == Next(old(jobs), Fail(id, worker, error, retryDelay, now))
      ensures r.Ok? ==> steps == old(steps) + [Fail(id, worker, error, retryDelay, now)]
      ensures r.Err? ==> unchanged(this)
      ensures r.Err? ==>
                r.error == if retryDelay < 0 then InvalidArgument else if id in jobs then NotOwner else JobNotFound
    {
      if retryDelay < 0 {
        return Err(InvalidArgument);
      }
      if id !in jobs {
        return Err(JobNotFound);
      }
      var row := jobs[id];
      if row.state != Running || row.owner != Some(worker) {
        return Err(NotOwner);
      }
      ghost var before := jobs;
      var terminal := row.attempts >= row.maxAttempts;
      jobs := jobs[id := row.(state := if terminal then DeadLetter else RetryScheduled,
                              runAfter := if terminal then now else now + retryDelay,
                              owner := None, leasedUntil := None, lastError := Some(Truncated(error)),
                              updatedAt := now)];
      OneStep(before, Fail(id, worker, error, retryDelay, now));
      Took([Fail(id, worker, error, retryDelay, now)], before);
      return Ok(());
    }

    method CancelJob(id: string, organization: string, now: int) returns (r: Result<(), QueueError>)
      requires Valid()
      modifies this
      ensures Valid()
      ensures r.Ok? <==> Enabled(old(jobs), Cancel(id, organization, now))
      ensures r.Ok? ==>
                && jobs == Next(old(jobs), Cancel(id, organization, now))
                && steps == old(steps) + [Cancel(id, organization, now)]
      ensures r.Err? ==> unchanged(this)
      ensures r.Err? ==>
                r.error == if id in jobs && jobs[id].organization == organization then StillRunning else JobNotFound
    {
      if id !in jobs || jobs[id].organization != organization {
        return Err(JobNotFound);
      }
      if jobs[id].state == Running {
        return Err(StillRunning);
      }
      ghost var before := jobs;
      jobs := jobs[id := jobs[id].(state := Cancelled, updatedAt := now)];
      OneStep(before, Cancel(id, organization, now));
      Took([Cancel(id, organization, now)], before);
      return Ok(());
    }
  }

  lemma {:induction false} OneStep(jobs: Jobs, step: Step)
    requires Enabled(jobs, step)
    ensures Legal(jobs, [step]) && Run(jobs, [step]) == Next(jobs, step)
  {
    assert [step][1..] == [];
  }

  /// The worker

  // What a worker reports for the job it ran, as in the processing queue but with this queue's steps.
  function Report(id: string, kind: string, outcomes: map<string, Result<(), string>>, worker: string, retryDelay: int,
                  at: int): Step {
    if kind !in outcomes then Fail(id, worker, "no handler for " + kind, retryDelay, at)
    else if outcomes[kind].Err? then Fail(id, worker, outcomes[kind].error, retryDelay, at)
    else Succeed(id, worker, at)
  }

  // What a round makes of the job it claims: succeeded exactly when there is a handler and it returns, and
  // otherwise retried after the delay below the attempt limit and dead at it, with the error on record.
  lemma RoundSettlesTheJob(jobs: Jobs, id: string, outcomes: map<string, Result<(), string>>, worker: string,
                           leaseSeconds: int, retryDelay: nat, claimedAt: int, reportedAt: int)
    requires Enabled(jobs, Claim(id, worker, leaseSeconds, claimedAt))
    ensures var report := Report(id, jobs[id].kind, outcomes, worker, retryDelay, reportedAt);
      report.id == id && Enabled(Next(jobs, Claim(id, worker, leaseSeconds, claimedAt)), report)
    ensures var report := Report(id, jobs[id].kind, outcomes, worker, retryDelay, reportedAt);
      var before, after := jobs[id], Next(Next(jobs, Claim(id, worker, leaseSeconds, claimedAt)), report)[id];
      var handled := before.kind in outcomes;
      && after.attempts == before.attempts + 1 && after.updatedAt == reportedAt
      && (if handled && outcomes[before.kind].Ok? then after.state == Succeeded
          else if after.attempts < after.maxAttempts
            then after.state == RetryScheduled && after.runAfter == reportedAt + retryDelay
          else after.state == DeadLetter)
      && (!handled ==> after.lastError == Some(Truncated("no handler for " + before.kind)))
      && (handled && outcomes[before.kind].Err? ==> after.lastError == Some(Truncated(outcomes[before.kind].error)))
  {
  }

  // One round of a worker that nobody interrupts. With a negative retry delay a failing job cannot be
  // reported: it stays claimed, and the round ends in an error.
  method RunOnce(queue: JobQueue, outcomes: map<string, Result<(), string>>, worker: string, leaseSeconds: int,
                 retryDelay: int, claimedAt: int, recoveredAt: int, reportedAt: int)
    returns (r: Result<Option<string>, QueueError>, claimed: Option<string>)
    requires queue.Valid()
    modifies queue
    ensures queue.Valid()
    ensures worker == "" || leaseSeconds <= 0 ==> r == Err(InvalidArgument) && unchanged(queue)
    ensures claimed.None? && r.Ok? ==>
              && r == Ok(None) && queue.jobs == Recovered(old(queue.jobs), recoveredAt)
              && forall id | id in queue.jobs :: !Ready(queue.jobs[id], claimedAt)
    ensures claimed.None? && r.Err? ==> worker == "" || leaseSeconds <= 0
    ensures claimed.Some? ==>
              var recovered, id := Recovered(old(queue.jobs), recoveredAt), claimed.value;
              && FirstInLine(recovered, id, claimedAt)
              && var running := Next(recovered, Claim(id, worker, leaseSeconds, claimedAt));
                 var report := Report(id, recovered[id].kind, outcomes, worker, retryDelay, reportedAt);
                 if report.Fail? && retryDelay < 0 then r == Err(InvalidArgument) && queue.jobs == running
                 else r == Ok(claimed) && Enabled(running, report) && queue.jobs == Next(running, report)
  {
    claimed := None;
    var claim, _ := queue.ClaimNext(worker, leaseSeconds, claimedAt, recoveredAt);
    if claim.Err? || claim.value.None? {
      return claim, claimed;
    }
    claimed := claim.value;
    var id := claimed.value;
    var kind := queue.jobs[id].kind;
    var reported;
    if kind !in outcomes {
      reported := queue.FailJob(id, worker, "no handler for " + kind, retryDelay, reportedAt);
    } else if outcomes[kind].Err? {
      reported := queue.FailJob(id, worker, outcomes[kind].error, retryDelay, reportedAt);
    } else {
      reported := queue.SucceedJob(id, worker, reportedAt);
    }
    return if reported.Ok? then claim else Err(reported.error), claimed;
  }
}
