/**
  The leased processing queue: a job table with an append-only event log.

  The database runs each statement group under the queue's lock, so a run of the queue is a sequence
  of atomic steps, whichever workers take them and whatever their clocks say.
 */
module ProcessingQueues {
  import opened Selection
  import opened Wrappers

  datatype Status = Pending | Processing | Completed | Failed

  // `fingerprint` stands for the payload.
  datatype Request = Request(
    organization: string, kind: string, fingerprint: string, maxAttempts: int,
    nextAttemptAt: Option<int>, key: Option<string>)

  datatype Job = Job(
    organization: string, kind: string, fingerprint: string, status: Status, attempt: int, maxAttempts: int,
    nextAttemptAt: int, key: Option<string>, worker: Option<string>, leasedUntil: Option<int>,
    lastError: Option<string>, createdAt: int, updatedAt: int)

  datatype EventKind = EnqueuedEvent | ClaimedEvent | CompletedEvent | FailedEvent | RetryEvent | ExpiredEvent

  datatype Event = Event(
    job: string, kind: EventKind, from: Option<Status>, target: Status, attempt: int, worker: Option<string>, at: int)

  datatype Table = Table(jobs: map<string, Job>, log: seq<Event>)

  datatype QueueError = InvalidRequest | IdempotencyConflict | DuplicateKey | JobNotFound | NotOwner

  /// Atomic steps

  datatype Step =
    | Insert(id: string, request: Request, now: int)
    | Expire(id: string, now: int)
    | Claim(id: string, worker: string, leaseSeconds: int, now: int)
    | Complete(id: string, worker: string, now: int)
    | Fail(id: string, worker: string, error: string, retryDelay: int, now: int)

  predicate Acceptable(request: Request) {
    request.organization != "" && request.kind != "" && 1 <= request.maxAttempts
  }

  // Whether a row already holds the request's idempotency key; rows without a key never clash.
  predicate HoldsKey(job: Job, request: Request) {
    request.key.Some? && job.organization == request.organization && job.key == request.key
  }

  predicate Owned(t: Table, id: string, worker: string) {
    id in t.jobs && t.jobs[id].status == Processing && t.jobs[id].worker == Some(worker)
  }

  predicate Expired(job: Job, now: int) {
    job.status == Processing && job.leasedUntil.Some? && job.leasedUntil.value <= now
  }

  predicate Ready(job: Job, now: int) {
    job.status == Pending && job.nextAttemptAt <= now
  }

  ghost predicate Enabled(t: Table, step: Step) {
    match step
    case Insert(id, request, _) =>
      && Acceptable(request)
      && id !in t.jobs
      && forall other | other in t.jobs :: !HoldsKey(t.jobs[other], request)
    case Expire(id, now) => id in t.jobs && Expired(t.jobs[id], now)
    case Claim(id, _, _, now) => id in t.jobs && Ready(t.jobs[id], now)
    case Complete(id, worker, _) => Owned(t, id, worker)
    case Fail(id, worker, _, _, _) => Owned(t, id, worker)
  }

  function NewJob(request: Request, now: int): Job {
    Job(request.organization, request.kind, request.fingerprint, Pending, 0, request.maxAttempts,
        if request.nextAttemptAt.Some? then request.nextAttemptAt.value else now,
        request.key, None, None, None, now, now)
  }

  function Truncated(error: string): string {
    if |error| <= 4000 then error else error[..4000]
  }

  // The row of an expired lease, ready again at once.
  function BackInLine(job: Job, now: int): Job {
    job.(status := Pending, worker := None, leasedUntil := None, nextAttemptAt := now, updatedAt := now)
  }

  // The row a step leaves behind.
  function NextJob(t: Table, step: Step): Job
    requires step.Insert? || step.id in t.jobs
  {
    match step
    case Insert(_, request, now) => NewJob(request, now)
    case Expire(id, now) => BackInLine(t.jobs[id], now)
    case Claim(id, worker, leaseSeconds, now) =>
      t.jobs[id].(status := Processing, attempt := t.jobs[id].attempt + 1, worker := Some(worker),
                  leasedUntil := Some(now + leaseSeconds), updatedAt := now)
    case Complete(id, _, now) =>
      t.jobs[id].(status := Completed, worker := None, leasedUntil := None, updatedAt := now)
    case Fail(id, _, error, retryDelay, now) =>
      var terminal := t.jobs[id].attempt >= t.jobs[id].maxAttempts;
      t.jobs[id].(status := if terminal then Failed else Pending,
                  nextAttemptAt := if terminal then now else now + retryDelay,
                  worker := None, leasedUntil := None, lastError := Some(Truncated(error)), updatedAt := now)
  }

  // The event a step appends.
  function NextEvent(t: Table, step: Step): Event
    requires step.Insert? || step.id in t.jobs
  {
    match step
    case Insert(id, _, now) => Event(id, EnqueuedEvent, None, Pending, 0, None, now)
    case Expire(id, now) =>
      Event(id, ExpiredEvent, Some(Processing), Pending, t.jobs[id].attempt, t.jobs[id].worker, now)
    case Claim(id, worker, _, now) =>
      Event(id, ClaimedEvent, Some(Pending), Processing, t.jobs[id].attempt + 1, Some(worker), now)
    case Complete(id, worker, now) =>
      Event(id, CompletedEvent, Some(Processing), Completed, t.jobs[id].attempt, Some(worker), now)
    case Fail(id, worker, _, _, now) =>
      if t.jobs[id].attempt >= t.jobs[id].maxAttempts
      then Event(id, FailedEvent, Some(Processing), Failed, t.jobs[id].attempt, Some(worker), now)
      else Event(id, RetryEvent, Some(Processing), Pending, t.jobs[id].attempt, Some(worker), now)
  }

  function Next(t: Table, step: Step): Table
    requires step.Insert? || step.id in t.jobs
  {
    Table(t.jobs[step.id := NextJob(t, step)], t.log + [NextEvent(t, step)])
  }

  /// Runs

  function EmptyTable(): Table {
    Table(map[], [])
  }

  ghost predicate Legal(t: Table, steps: seq<Step>)
    decreases |steps|
  {
    steps == [] || (Enabled(t, steps[0]) && Legal(Next(t, steps[0]), steps[1..]))
  }

  ghost function Run(t: Table, steps: seq<Step>): Table
    requires Legal(t, steps)
    decreases |steps|
  {
    if steps == [] then t else Run(Next(t, steps[0]), steps[1..])
  }

  lemma {:induction false} RunsCompose(t: Table, first: seq<Step>, second: seq<Step>)
    requires Legal(t, first)
    ensures Legal(t, first + second) <==> Legal(Run(t, first), second)
    ensures Legal(t, first + second) ==> Run(t, first + second) == Run(Run(t, first), second)
    decreases |first|
  {
    if first == [] {
      assert first + second == second;
    } else {
      RunsCompose(Next(t, first[0]), first[1..], second);
      assert (first + second)[1..] == first[1..] + second;
    }
  }

  /// Replaying the log

  // The events of one job, in insertion order.
  function History(log: seq<Event>, id: string): seq<Event> {
    if log == [] then []
    else
      var last := log[|log| - 1];
      History(log[..|log| - 1], id) + (if last.job == id then [last] else [])
  }

  datatype Replayed = Absent | Row(status: Status, attempt: int, worker: Option<string>) | Corrupt

  function ReplayEvent(r: Replayed, e: Event): Replayed {
    match e.kind
    case EnqueuedEvent =>
      if r == Absent && e.from == None && e.target == Pending && e.attempt == 0 then Row(Pending, 0, None) else Corrupt
    case ClaimedEvent =>
      if r.Row? && r.status == Pending
         && e.from == Some(Pending) && e.target == Processing && e.attempt == r.attempt + 1
      then Row(Processing, e.attempt, e.worker) else Corrupt
    case _ =>
      if r.Row? && r.status == Processing
         && e.from == Some(Processing) && e.attempt == r.attempt && e.worker == r.worker
         && e.target == (match e.kind case CompletedEvent => Completed case FailedEvent => Failed case _ => Pending)
      then Row(e.target, r.attempt, None) else Corrupt
  }

  function Replay(history: seq<Event>): Replayed {
    if history == [] then Absent else ReplayEvent(Replay(history[..|history| - 1]), history[|history| - 1])
  }

  function CountKind(history: seq<Event>, kind: EventKind): nat {
    if history == [] then 0
    else CountKind(history[..|history| - 1], kind) + (if history[|history| - 1].kind == kind then 1 else 0)
  }

  ghost predicate GoodRow(job: Job, history: seq<Event>) {
    && Replay(history) == Row(job.status, job.attempt, job.worker)
    && (job.status == Processing <==> job.worker.Some?)
    && (job.status == Processing <==> job.leasedUntil.Some?)
    && WithinLimits(job, CountKind(history, ExpiredEvent))
  }

  ghost predicate WithinLimits(job: Job, expiries: nat) {
    && 1 <= job.maxAttempts
    && job.attempt <= job.maxAttempts + expiries
    && (job.status == Pending ==> job.attempt < job.maxAttempts + expiries)
    && (job.status == Failed ==> job.maxAttempts <= job.attempt)
  }

  // No two jobs of one organization share an idempotency key.
  ghost predicate UniqueKeys(jobs: map<string, Job>) {
    forall id, other | id in jobs && other in jobs && id != other ::
      jobs[id].key == None || jobs[id].organization != jobs[other].organization || jobs[id].key != jobs[other].key
  }

  ghost predicate GoodTable(t: Table) {
    && (forall id | id in t.jobs :: GoodRow(t.jobs[id], History(t.log, id)))
    && (forall id | id !in t.jobs :: History(t.log, id) == [])
    && UniqueKeys(t.jobs)
  }

  lemma {:induction false} StepAppends(t: Table, step: Step, id: string)
    requires Enabled(t, step)
    ensures id == step.id ==> History(Next(t, step).log, id) == History(t.log, id) + [NextEvent(t, step)]
    ensures id != step.id ==> History(Next(t, step).log, id) == History(t.log, id)
  {
    assert Next(t, step).log[..|t.log|] == t.log;
  }

  lemma {:induction false} OneMoreEvent(history: seq<Event>, e: Event)
    ensures Replay(history + [e]) == ReplayEvent(Replay(history), e)
    ensures CountKind(history + [e], ExpiredEvent)
         == CountKind(history, ExpiredEvent) + (if e.kind == ExpiredEvent then 1 else 0)
  {
    assert (history + [e])[..|history|] == history;
  }

  lemma StepReplays(t: Table, step: Step, before: Replayed)
    requires Enabled(t, step)
    requires before == if step.Insert? then Absent
                       else Row(t.jobs[step.id].status, t.jobs[step.id].attempt, t.jobs[step.id].worker)
    ensures var job := NextJob(t, step);
      ReplayEvent(before, NextEvent(t, step)) == Row(job.status, job.attempt, job.worker)
  {
  }

  lemma StepKeepsRow(t: Table, step: Step)
    requires GoodTable(t) && Enabled(t, step)
    ensures GoodRow(NextJob(t, step), History(t.log, step.id) + [NextEvent(t, step)])
  {
    var history := History(t.log, step.id);
    OneMoreEvent(history, NextEvent(t, step));
    if !step.Insert? {
      assert GoodRow(t.jobs[step.id], history);
    }
    StepReplays(t, step, Replay(history));
  }

  lemma StepKeepsKeys(t: Table, step: Step)
    requires UniqueKeys(t.jobs) && Enabled(t, step)
    ensures UniqueKeys(Next(t, step).jobs)
  {
    if step.Insert? {
      assert forall other | other in t.jobs :: !HoldsKey(t.jobs[other], step.request);
    }
  }

  lemma StepKeepsTable(t: Table, step: Step)
    requires GoodTable(t) && Enabled(t, step)
    ensures GoodTable(Next(t, step))
  {
    var t' := Next(t, step);
    StepKeepsKeys(t, step);
    forall id | id in t'.jobs
      ensures GoodRow(t'.jobs[id], History(t'.log, id))
    {
      StepAppends(t, step, id);
      if id == step.id {
        StepKeepsRow(t, step);
      } else {
        assert GoodRow(t.jobs[id], History(t.log, id));
      }
    }
    forall id | id !in t'.jobs
      ensures History(t'.log, id) == []
    {
      StepAppends(t, step, id);
    }
  }

  // In every reachable state: replaying a job's log rebuilds its row, a row is processing exactly while
  // it has an owner and a lease, attempts are bounded by the limit and the expiries, and keys are unique.
  lemma {:induction false} EveryRunIsGood(t: Table, steps: seq<Step>)
    requires GoodTable(t) && Legal(t, steps)
    ensures GoodTable(Run(t, steps))
    decreases |steps|
  {
    if steps != [] {
      StepKeepsTable(t, steps[0]);
      EveryRunIsGood(Next(t, steps[0]), steps[1..]);
    }
  }

  /// What a replayable history looks like

  // A history that replays to a row starts with the enqueue event, counts its claims as attempts, chains
  // each event to the one before, and carries the row's status and attempt in its last event.
  lemma {:induction false} ReplayableHistory(history: seq<Event>)
    requires Replay(history).Row?
    ensures history[0].kind == EnqueuedEvent && history[0].from == None
    ensures forall i | 0 < i < |history| :: history[i].from == Some(history[i - 1].target)
    ensures history[|history| - 1].target == Replay(history).status
    ensures history[|history| - 1].attempt == Replay(history).attempt == CountKind(history, ClaimedEvent)
    ensures forall i | 0 <= i < |history| - 1 :: history[i].target !in {Completed, Failed}
  {
    var front := history[..|history| - 1];
    if front != [] {
      assert Replay(front) != Absent by {
        ReplayNeverReturnsToAbsent(front);
      }
      ReplayableHistory(front);
    }
  }

  lemma {:induction false} ReplayNeverReturnsToAbsent(history: seq<Event>)
    requires history != []
    ensures Replay(history) != Absent
  {
  }

  // The log of a reachable queue is the record of its rows.
  lemma {:induction false} LogTellsTheRow(steps: seq<Step>, id: string)
    requires Legal(EmptyTable(), steps) && id in Run(EmptyTable(), steps).jobs
    ensures var t := Run(EmptyTable(), steps);
      var job, history := t.jobs[id], History(t.log, id);
      && history != []
      && history[0].kind == EnqueuedEvent
      && (forall i | 0 < i < |history| :: history[i].from == Some(history[i - 1].target))
      && history[|history| - 1].target == job.status
      && job.attempt == CountKind(history, ClaimedEvent)
      && job.attempt <= job.maxAttempts + CountKind(history, ExpiredEvent)
      && (job.status == Failed ==> job.maxAttempts <= job.attempt)
      && (job.status == Failed && CountKind(history, ExpiredEvent) == 0 ==> job.attempt == job.maxAttempts)
  {
    EveryRunIsGood(EmptyTable(), steps);
    ReplayableHistory(History(Run(EmptyTable(), steps).log, id));
  }

  /// Runs that go on

  // The job's row and log are the same in both tables.
  predicate Untouched(t: Table, t': Table, id: string) {
    && (id in t.jobs <==> id in t'.jobs)
    && (id in t.jobs ==> t.jobs[id] == t'.jobs[id])
    && History(t.log, id) == History(t'.log, id)
  }

  lemma {:induction false} StepsOnOtherJobs(t: Table, steps: seq<Step>, id: string)
    requires Legal(t, steps)
    requires forall i | 0 <= i < |steps| :: steps[i].id != id
    ensures Untouched(t, Run(t, steps), id)
    decreases |steps|
  {
    if steps != [] {
      StepAppends(t, steps[0], id);
      StepsOnOtherJobs(Next(t, steps[0]), steps[1..], id);
    }
  }

  predicate Terminal(t: Table, id: string) {
    id in t.jobs && (t.jobs[id].status.Completed? || t.jobs[id].status.Failed?)
  }

  // A completed or failed job is never touched again.
  lemma {:induction false} TerminalIsFinal(t: Table, steps: seq<Step>, id: string)
    requires Legal(t, steps) && Terminal(t, id)
    ensures Untouched(t, Run(t, steps), id)
    decreases |steps|
  {
    if steps != [] {
      assert steps[0].id != id;
      StepAppends(t, steps[0], id);
      TerminalIsFinal(Next(t, steps[0]), steps[1..], id);
    }
  }

  // When `later` may be the next step on a job after `earlier`.
  predicate MayFollow(earlier: Step, later: Step) {
    match later
    case Insert(_, _, _) => false
    case Claim(_, _, _, now) =>
      (match earlier
       case Insert(_, request, inserted) =>
         (if request.nextAttemptAt.Some? then request.nextAttemptAt.value else inserted) <= now
       case Expire(_, expired) => expired <= now
       case Fail(_, _, _, retryDelay, failed) => failed + retryDelay <= now
       case _ => false)
    case Expire(_, now) => earlier.Claim? && earlier.now + earlier.leaseSeconds <= now
    case Complete(_, worker, _) => earlier.Claim? && earlier.worker == worker
    case Fail(_, worker, _, _, _) => earlier.Claim? && earlier.worker == worker
  }

  // The life of a job: a claim ends with its own worker's report or with an expiry no earlier than the
  // end of the lease, nobody else claims it meanwhile, and retries wait for their delay.
  lemma {:induction false} ConsecutiveStepsOnAJob(t: Table, earlier: Step, between: seq<Step>, later: Step)
    requires Legal(t, [earlier] + between + [later])
    requires earlier.id == later.id && forall i | 0 <= i < |between| :: between[i].id != later.id
    ensures MayFollow(earlier, later)
  {
    var t1 := Next(t, earlier);
    assert ([earlier] + between + [later])[1..] == between + [later];
    LegalPrefix(t1, between, later);
    StepsOnOtherJobs(t1, between, later.id);
    assert Enabled(Run(t1, between), later);
    assert t1.jobs[later.id] == NextJob(t, earlier);
  }

  // And conversely, whatever happens to other jobs meanwhile: the next step on a job can be taken exactly
  // when it may follow the last one, from the very instant on that the lease ends or the retry is due. A
  // failure with the attempts used up is followed by nothing.
  lemma {:induction false} NextStepOnAJobIff(t: Table, earlier: Step, between: seq<Step>, later: Step)
    requires Enabled(t, earlier) && Legal(Next(t, earlier), between)
    requires earlier.id == later.id && !later.Insert?
    requires forall i | 0 <= i < |between| :: between[i].id != later.id
    ensures Enabled(Run(Next(t, earlier), between), later)
       <==> && MayFollow(earlier, later)
            && (earlier.Fail? ==> t.jobs[earlier.id].attempt < t.jobs[earlier.id].maxAttempts)
  {
    StepsOnOtherJobs(Next(t, earlier), between, later.id);
    FollowsIff(t, earlier, Run(Next(t, earlier), between), later);
  }

  lemma FollowsIff(t: Table, earlier: Step, t': Table, later: Step)
    requires Enabled(t, earlier) && earlier.id == later.id && !later.Insert?
    requires later.id in t'.jobs && t'.jobs[later.id] == NextJob(t, earlier)
    ensures Enabled(t', later)
       <==> && MayFollow(earlier, later)
            && (earlier.Fail? ==> t.jobs[earlier.id].attempt < t.jobs[earlier.id].maxAttempts)
  {
  }

  // What the row says about the last step taken on the job; `before` is the row that step found, if any.
  ghost predicate TellsLastStep(job: Job, last: Step, before: Option<Job>) {
    && job.updatedAt == last.now
    && job.worker == (if last.Claim? then Some(last.worker) else None)
    && job.leasedUntil == (if last.Claim? then Some(last.now + last.leaseSeconds) else None)
    && (last.Insert? || before.Some?)
    && match last
       case Insert(_, _, _) => job.status == Pending && job.attempt == 0 && job.lastError == None
       case Expire(_, now) =>
         && job.status == Pending && job.attempt == before.value.attempt && job.nextAttemptAt == now
         && job.lastError == before.value.lastError
       case Claim(_, _, _, _) =>
         && job.status == Processing && job.attempt == before.value.attempt + 1
         && job.nextAttemptAt == before.value.nextAttemptAt && job.lastError == before.value.lastError
       case Complete(_, _, _) =>
         && job.status == Completed && job.attempt == before.value.attempt
         && job.nextAttemptAt == before.value.nextAttemptAt && job.lastError == before.value.lastError
       case Fail(_, _, error, retryDelay, now) =>
         && job.attempt == before.value.attempt
         && (if job.attempt < job.maxAttempts then job.status == Pending && job.nextAttemptAt == now + retryDelay
             else job.status == Failed && job.nextAttemptAt == now)
         && job.lastError.Some? && job.lastError.value <= error
         && |job.lastError.value| == if |error| < 4000 then |error| else 4000
  }

  // Whatever happens to other jobs afterwards.
  lemma {:induction false} RowTellsLastStep(t: Table, last: Step, after: seq<Step>)
    requires Enabled(t, last) && Legal(Next(t, last), after)
    requires forall i | 0 <= i < |after| :: after[i].id != last.id
    ensures last.id in Run(Next(t, last), after).jobs
    ensures TellsLastStep(Run(Next(t, last), after).jobs[last.id], last,
                          if last.id in t.jobs then Some(t.jobs[last.id]) else None)
  {
    StepsOnOtherJobs(Next(t, last), after, last.id);
  }

  // The event records the step.
  ghost predicate Traces(e: Event, step: Step) {
    && e.job == step.id && e.at == step.now
    && match step
       case Insert(_, _, _) => e.kind == EnqueuedEvent && e.worker == None
       case Expire(_, _) => e.kind == ExpiredEvent
       case Claim(_, worker, _, _) => e.kind == ClaimedEvent && e.worker == Some(worker)
       case Complete(_, worker, _) => e.kind == CompletedEvent && e.worker == Some(worker)
       case Fail(_, worker, _, _, _) => e.kind in {FailedEvent, RetryEvent} && e.worker == Some(worker)
  }

  // The log grows by one event for each step, in the order of the steps, at their times.
  lemma {:induction false} LogTracesTheRun(t: Table, steps: seq<Step>)
    requires Legal(t, steps)
    ensures |Run(t, steps).log| == |t.log| + |steps| && Run(t, steps).log[..|t.log|] == t.log
    ensures forall i | 0 <= i < |steps| :: Traces(Run(t, steps).log[|t.log| + i], steps[i])
    decreases |steps|
  {
    if steps != [] {
      var next, end := Next(t, steps[0]), Run(t, steps);
      LogTracesTheRun(next, steps[1..]);
      forall i | 0 <= i < |steps|
        ensures Traces(end.log[|t.log| + i], steps[i])
      {
        if i == 0 {
          assert end.log[|t.log|] == end.log[..|next.log|][|t.log|] == NextEvent(t, steps[0]);
        } else {
          assert Traces(end.log[|next.log| + (i - 1)], steps[1..][i - 1]);
        }
      }
      assert end.log[..|t.log|] == end.log[..|next.log|][..|t.log|];
    }
  }

  lemma {:induction false} LegalPrefix(t: Table, steps: seq<Step>, last: Step)
    requires Legal(t, steps + [last])
    ensures Legal(t, steps) && Enabled(Run(t, steps), last)
    decreases |steps|
  {
    if steps == [] {
      assert steps + [last] == [last];
    } else {
      assert (steps + [last])[1..] == steps[1..] + [last];
      LegalPrefix(Next(t, steps[0]), steps[1..], last);
    }
  }

  /// When the attempt limit bounds attempts

  // A lease that expired on an attempt at or beyond the limit.
  predicate SpentExpiry(e: Event, limit: int) {
    e.kind == ExpiredEvent && limit <= e.attempt
  }

  // The job went on after such an expiry.
  ghost predicate WentOnPastLimit(history: seq<Event>, limit: int) {
    exists i | 0 <= i < |history| - 1 :: SpentExpiry(history[i], limit)
  }

  // The limit is exceeded exactly when the job went on after a spent expiry, and is used up by a waiting
  // job exactly when such an expiry is the last thing that happened to it.
  ghost predicate LimitTold(job: Job, history: seq<Event>) {
    && history != []
    && (job.maxAttempts < job.attempt <==> WentOnPastLimit(history, job.maxAttempts))
    && (job.status == Pending ==>
          (job.maxAttempts <= job.attempt <==> SpentExpiry(history[|history| - 1], job.maxAttempts)))
    && (job.status == Processing ==> history[|history| - 1].kind == ClaimedEvent)
  }

  lemma WentOnOneMore(history: seq<Event>, e: Event, limit: int)
    requires history != []
    ensures WentOnPastLimit(history + [e], limit)
       <==> WentOnPastLimit(history, limit) || SpentExpiry(history[|history| - 1], limit)
  {
    var more := history + [e];
    if SpentExpiry(history[|history| - 1], limit) {
      assert SpentExpiry(more[|history| - 1], limit);
    }
    if WentOnPastLimit(history, limit) {
      var i :| 0 <= i < |history| - 1 && SpentExpiry(history[i], limit);
      assert SpentExpiry(more[i], limit);
    }
  }

  lemma StepTellsLimit(t: Table, step: Step)
    requires Enabled(t, step)
    requires if step.Insert? then History(t.log, step.id) == [] else LimitTold(t.jobs[step.id], History(t.log, step.id))
    ensures LimitTold(NextJob(t, step), History(t.log, step.id) + [NextEvent(t, step)])
  {
    var history := History(t.log, step.id);
    if !step.Insert? {
      WentOnOneMore(history, NextEvent(t, step), t.jobs[step.id].maxAttempts);
    }
  }

  lemma {:induction false} EveryRunTellsLimit(t: Table, steps: seq<Step>, id: string)
    requires Legal(t, steps)
    requires if id in t.jobs then LimitTold(t.jobs[id], History(t.log, id)) else History(t.log, id) == []
    ensures id in Run(t, steps).jobs ==> LimitTold(Run(t, steps).jobs[id], History(Run(t, steps).log, id))
    decreases |steps|
  {
    if steps != [] {
      StepAppends(t, steps[0], id);
      if steps[0].id == id {
        StepTellsLimit(t, steps[0]);
      }
      EveryRunTellsLimit(Next(t, steps[0]), steps[1..], id);
    }
  }

  // In every reachable state, a job has made more attempts than its limit exactly when one of its leases
  // expired on an attempt at or beyond the limit and the job has gone on since.
  lemma {:induction false} AttemptsExceedLimitIff(steps: seq<Step>, id: string)
    requires Legal(EmptyTable(), steps) && id in Run(EmptyTable(), steps).jobs
    ensures var t := Run(EmptyTable(), steps);
      var job, history := t.jobs[id], History(t.log, id);
      && (job.maxAttempts < job.attempt <==>
            exists i | 0 <= i < |history| - 1 ::
              history[i].kind == ExpiredEvent && job.maxAttempts <= history[i].attempt)
      && (job.status == Pending ==>
            (job.maxAttempts <= job.attempt <==>
               history != [] && history[|history| - 1].kind == ExpiredEvent
               && job.maxAttempts <= history[|history| - 1].attempt))
  {
    EveryRunTellsLimit(EmptyTable(), steps, id);
    var t := Run(EmptyTable(), steps);
    var job, history := t.jobs[id], History(t.log, id);
    if WentOnPastLimit(history, job.maxAttempts) {
      var i :| 0 <= i < |history| - 1 && SpentExpiry(history[i], job.maxAttempts);
      assert history[i].kind == ExpiredEvent && job.maxAttempts <= history[i].attempt;
    }
    if i :| 0 <= i < |history| - 1 && history[i].kind == ExpiredEvent && job.maxAttempts <= history[i].attempt {
      assert SpentExpiry(history[i], job.maxAttempts);
    }
  }

  // One worker that keeps losing its lease claims the same job any number of times, whatever the limit.
  ghost function CrashingRun(id: string, now: int, crashes: nat): seq<Step>
    decreases crashes
  {
    if crashes == 0 then []
    else [Claim(id, "worker", 1, now), Expire(id, now + 1)] + CrashingRun(id, now + 1, crashes - 1)
  }

  lemma {:induction false} AttemptsOutrunTheLimit(t: Table, id: string, now: int, crashes: nat)
    requires id in t.jobs && Ready(t.jobs[id], now)
    ensures var steps := CrashingRun(id, now, crashes);
      && Legal(t, steps)
      && id in Run(t, steps).jobs
      && Run(t, steps).jobs[id].attempt == t.jobs[id].attempt + crashes
      && Run(t, steps).jobs[id].maxAttempts == t.jobs[id].maxAttempts
      && Run(t, steps).jobs[id].status == Pending
    decreases crashes
  {
    if crashes != 0 {
      var rest := CrashingRun(id, now + 1, crashes - 1);
      var claim, expire := Claim(id, "worker", 1, now), Expire(id, now + 1);
      var t2 := Next(Next(t, claim), expire);
      AttemptsOutrunTheLimit(t2, id, now + 1, crashes - 1);
      assert ([claim, expire] + rest)[1..] == [expire] + rest;
      assert ([expire] + rest)[1..] == rest;
    }
  }

  /// Idempotent enqueueing

  predicate Holds(jobs: map<string, Job>, holder: string, request: Request) {
    holder in jobs && HoldsKey(jobs[holder], request)
  }

  // What enqueueing answers: the new identifier exactly when nobody holds the key, the holder exactly
  // when its payload is the same, a conflict exactly when it differs. The empty key is not looked up, so
  // the unique index refuses its second row.
  ghost predicate Answers(jobs: map<string, Job>, newId: string, request: Request, r: Result<string, QueueError>) {
    && (r == Err(InvalidRequest) <==> !Acceptable(request))
    && (r == Ok(newId) <==> Acceptable(request) && forall holder | holder in jobs :: !HoldsKey(jobs[holder], request))
    && (r == Err(DuplicateKey) <==>
          Acceptable(request) && request.key == Some("") && exists holder :: Holds(jobs, holder, request))
    && (r == Err(IdempotencyConflict) <==>
          Acceptable(request) && request.key != Some("")
          && exists holder :: Holds(jobs, holder, request) && jobs[holder].fingerprint != request.fingerprint)
    && (r.Ok? && r.value != newId ==>
          request.key != Some("") && Holds(jobs, r.value, request) && jobs[r.value].fingerprint == request.fingerprint)
    && (r.Err? ==> r.error in {InvalidRequest, DuplicateKey, IdempotencyConflict})
  }

  lemma HolderIsUnique(jobs: map<string, Job>, request: Request, holder: string)
    requires UniqueKeys(jobs) && Holds(jobs, holder, request)
    ensures forall other | Holds(jobs, other, request) :: other == holder
  {
  }

  lemma HolderDecides(jobs: map<string, Job>, newId: string, request: Request, holder: string)
    requires UniqueKeys(jobs) && Acceptable(request) && newId !in jobs && Holds(jobs, holder, request)
    ensures Answers(jobs, newId, request,
                    if request.key == Some("") then Err(DuplicateKey)
                    else if jobs[holder].fingerprint != request.fingerprint then Err(IdempotencyConflict)
                    else Ok(holder))
  {
    HolderIsUnique(jobs, request, holder);
  }

  lemma {:induction false} KeysAreUnique(steps: seq<Step>)
    requires Legal(EmptyTable(), steps)
    ensures UniqueKeys(Run(EmptyTable(), steps).jobs)
  {
    EveryRunIsGood(EmptyTable(), steps);
  }

  // A row keeps what it was inserted with.
  lemma {:induction false} RunKeepsIdentity(t: Table, steps: seq<Step>, id: string)
    requires Legal(t, steps) && id in t.jobs
    ensures id in Run(t, steps).jobs
    ensures var job, job' := t.jobs[id], Run(t, steps).jobs[id];
      && job'.organization == job.organization && job'.key == job.key && job'.fingerprint == job.fingerprint
      && job'.kind == job.kind && job'.maxAttempts == job.maxAttempts && job'.createdAt == job.createdAt
    decreases |steps|
  {
    if steps != [] {
      RunKeepsIdentity(Next(t, steps[0]), steps[1..], id);
    }
  }

  // So every row is, for ever, the row of the request it was inserted for.
  lemma {:induction false} RowIsOfItsRequest(t: Table, id: string, request: Request, now: int, steps: seq<Step>)
    requires Enabled(t, Insert(id, request, now)) && Legal(Next(t, Insert(id, request, now)), steps)
    ensures id in Run(Next(t, Insert(id, request, now)), steps).jobs
    ensures var job := Run(Next(t, Insert(id, request, now)), steps).jobs[id];
      && job.organization == request.organization && job.key == request.key && job.fingerprint == request.fingerprint
      && job.kind == request.kind && job.maxAttempts == request.maxAttempts && job.createdAt == now
      && (request.key.Some? ==> HoldsKey(job, request))
  {
    RunKeepsIdentity(Next(t, Insert(id, request, now)), steps, id);
  }

  lemma {:induction false} RunKeepsHolder(t: Table, steps: seq<Step>, id: string, request: Request)
    requires GoodTable(t) && Legal(t, steps) && Holds(t.jobs, id, request)
    ensures UniqueKeys(Run(t, steps).jobs) && Holds(Run(t, steps).jobs, id, request)
    ensures Run(t, steps).jobs[id].fingerprint == t.jobs[id].fingerprint
  {
    EveryRunIsGood(t, steps);
    RunKeepsIdentity(t, steps, id);
  }

  // Once a job holds a key, whatever the queue does later, a request with that key has one answer: that
  // job if the payload is the same, and a conflict otherwise.
  lemma {:induction false} RepeatedRequestFindsItsJob(before: seq<Step>, id: string, request: Request, after: seq<Step>,
                                                      newId: string, t: Table, r: Result<string, QueueError>)
    requires Legal(EmptyTable(), before) && Holds(Run(EmptyTable(), before).jobs, id, request)
    requires Legal(Run(EmptyTable(), before), after) && t == Run(Run(EmptyTable(), before), after)
    requires Acceptable(request) && request.key != Some("") && newId !in t.jobs && Answers(t.jobs, newId, request, r)
    ensures var same := Run(EmptyTable(), before).jobs[id].fingerprint == request.fingerprint;
            r == if same then Ok(id) else Err(IdempotencyConflict)
  {
    EveryRunIsGood(EmptyTable(), before);
    RunKeepsHolder(Run(EmptyTable(), before), after, id, request);
    HolderIsUnique(t.jobs, request, id);
  }

  // In particular a request that was accepted is answered by its own job when it is repeated, at any time.
  lemma {:induction false} RepeatingARequestIsIdempotent(before: seq<Step>, id: string, request: Request, now: int,
                                                         after: seq<Step>, t: Table, newId: string,
                                                         r: Result<string, QueueError>)
    requires Legal(EmptyTable(), before) && Enabled(Run(EmptyTable(), before), Insert(id, request, now))
    requires Legal(Next(Run(EmptyTable(), before), Insert(id, request, now)), after)
    requires t == Run(Next(Run(EmptyTable(), before), Insert(id, request, now)), after)
    requires request.key.Some? && request.key != Some("") && newId !in t.jobs && Answers(t.jobs, newId, request, r)
    ensures r == Ok(id)
  {
    var t0 := Run(EmptyTable(), before);
    EveryRunIsGood(EmptyTable(), before);
    StepKeepsTable(t0, Insert(id, request, now));
    RowIsOfItsRequest(t0, id, request, now, []);
    RunKeepsHolder(Next(t0, Insert(id, request, now)), after, id, request);
    HolderIsUnique(t.jobs, request, id);
  }

  /// The queue

  // Every expired lease goes back in line; other rows stay.
  function Recovered(jobs: map<string, Job>, now: int): map<string, Job> {
    map id | id in jobs :: if Expired(jobs[id], now) then BackInLine(jobs[id], now) else jobs[id]
  }

  // The table part-way through a recovery: rows not in `left` have been handled.
  ghost function RecoveredExcept(jobs: map<string, Job>, left: set<string>, now: int): map<string, Job> {
    map id | id in jobs :: if Expired(jobs[id], now) && id !in left then BackInLine(jobs[id], now) else jobs[id]
  }

  function ExpiredIds(jobs: map<string, Job>, now: int): set<string> {
    set id | id in jobs && Expired(jobs[id], now)
  }

  // The claim order: earliest due first, then earliest created.
  predicate NotAfter(a: Job, b: Job) {
    a.nextAttemptAt < b.nextAttemptAt || (a.nextAttemptAt == b.nextAttemptAt && a.createdAt <= b.createdAt)
  }

  ghost predicate FirstInLine(jobs: map<string, Job>, id: string, now: int) {
    && id in jobs && Ready(jobs[id], now)
    && forall other | other in jobs && Ready(jobs[other], now) :: NotAfter(jobs[id], jobs[other])
  }

  method FirstReady(jobs: map<string, Job>, now: int) returns (first: Option<string>)
    ensures first.None? ==> forall id | id in jobs :: !Ready(jobs[id], now)
    ensures first.Some? ==> FirstInLine(jobs, first.value, now)
  {
    var ready := set id | id in jobs && Ready(jobs[id], now);
    assert forall id | id in jobs && Ready(jobs[id], now) :: id in ready;
    if ready == {} {
      return None;
    }
    SomeoneComesFirst(jobs, ready, NotAfter);
    var id :| id in ready && ComesFirst(jobs, ready, NotAfter, id);
    return Some(id);
  }

  function Expiries(order: seq<string>, now: int): seq<Step> {
    seq(|order|, i requires 0 <= i < |order| => Expire(order[i], now))
  }

  lemma OneMoreRecovered(jobs: map<string, Job>, left: set<string>, id: string, order: seq<string>, now: int)
    requires id in left && left <= ExpiredIds(jobs, now)
    ensures RecoveredExcept(jobs, left, now)[id] == jobs[id] && Expired(jobs[id], now)
    ensures RecoveredExcept(jobs, left - {id}, now) == RecoveredExcept(jobs, left, now)[id := BackInLine(jobs[id], now)]
    ensures Expiries(order + [id], now) == Expiries(order, now) + [Expire(id, now)]
    ensures multiset(order + [id]) + multiset(left - {id}) == multiset(order) + multiset(left)
  {
  }

  class ProcessingQueue {
    var jobs: map<string, Job>
    var log: seq<Event>
    // The atomic steps taken since the database was created.
    ghost var steps: seq<Step>

    ghost predicate Valid()
      reads this
    {
      Legal(EmptyTable(), steps) && Run(EmptyTable(), steps) == Table(jobs, log)
    }

    constructor ()
      ensures Valid() && jobs == map[] && log == []
    {
      jobs, log, steps := map[], [], [];
    }

    // Records an enabled step after the code has made its changes.
    ghost method Took(step: Step, before: Table)
      requires Legal(EmptyTable(), steps) && Run(EmptyTable(), steps) == before
      requires Enabled(before, step) && Table(jobs, log) == Next(before, step)
      modifies this`steps
      ensures Valid() && steps == old(steps) + [step]
    {
      RunsCompose(EmptyTable(), steps, [step]);
      steps := steps + [step];
    }

    // The row that already holds the request's key is returned when the payload is the same.
    method Enqueue(newId: string, request: Request, now: int) returns (r: Result<string, QueueError>)
      requires Valid() && newId !in jobs
      modifies this
      ensures Valid()
      ensures Answers(old(jobs), newId, request, r)
      ensures r == Err(InvalidRequest) <==> request.organization == "" || request.kind == "" || request.maxAttempts <= 0
      ensures r == Ok(newId) ==> Holds(jobs, newId, request) || request.key.None?
      ensures r == Ok(newId) ==> steps == old(steps) + [Insert(newId, request, now)]
      ensures r == Ok(newId) ==> Table(jobs, log) == Next(old(Table(jobs, log)), Insert(newId, request, now))
      ensures r != Ok(newId) ==> unchanged(this)
    {
      if request.organization == "" || request.kind == "" || request.maxAttempts < 1 {
        return Err(InvalidRequest);
      }
      if holder :| holder in jobs && HoldsKey(jobs[holder], request) {
        KeysAreUnique(steps);
        HolderDecides(jobs, newId, request, holder);
        if request.key == Some("") {
          // The empty key is not looked up, and the unique index refuses the second row.
          return Err(DuplicateKey);
        }
        if jobs[holder].fingerprint != request.fingerprint {
          return Err(IdempotencyConflict);
        }
        return Ok(holder);
      }
      ghost var before := Table(jobs, log);
      var due := if request.nextAttemptAt.Some? then request.nextAttemptAt.value else now;
      jobs := jobs[newId := Job(request.organization, request.kind, request.fingerprint, Pending, 0,
                                request.maxAttempts,
                                due, request.key, None, None, None, now, now)];
      log := log + [Event(newId, EnqueuedEvent, None, Pending, 0, None, now)];
      Took(Insert(newId, request, now), before);
      return Ok(newId);
    }

    method ExpireRow(id: string, now: int)
      requires Valid() && id in jobs && Expired(jobs[id], now)
      modifies this
      ensures Valid() && steps == old(steps) + [Expire(id, now)]
      ensures Table(jobs, log) == Next(old(Table(jobs, log)), Expire(id, now))
    {
      ghost var before := Table(jobs, log);
      var row := jobs[id];
      jobs := jobs[id := row.(status := Pending, worker := None, leasedUntil := None, nextAttemptAt := now,
                              updatedAt := now)];
      log := log + [Event(id, ExpiredEvent, Some(Processing), Pending, row.attempt, row.worker, now)];
      Took(Expire(id, now), before);
    }

    // Puts every expired lease back in line, in some order, and nothing else.
    method Recover(now: int) returns (count: nat, ghost order: seq<string>)
      requires Valid()
      modifies this
      ensures Valid()
      ensures jobs == Recovered(old(jobs), now)
      ensures multiset(order) == multiset(ExpiredIds(old(jobs), now)) && count == |order|
      ensures steps == old(steps) + Expiries(order, now)
    {
      var rows := ExpiredIds(jobs, now);
      count, order := 0, [];
      while rows != {}
        invariant Valid()
        invariant rows <= ExpiredIds(old(jobs), now)
        invariant jobs == RecoveredExcept(old(jobs), rows, now)
        invariant multiset(order) + multiset(rows) == multiset(ExpiredIds(old(jobs), now)) && count == |order|
        invariant steps == old(steps) + Expiries(order, now)
        decreases rows
      {
        var id :| id in rows;
        OneMoreRecovered(old(jobs), rows, id, order, now);
        ExpireRow(id, now);
        rows, count, order := rows - {id}, count + 1, order + [id];
      }
    }

    method ClaimRow(id: string, worker: string, leaseSeconds: int, now: int)
      requires Valid() && id in jobs && Ready(jobs[id], now)
      modifies this
      ensures Valid() && steps == old(steps) + [Claim(id, worker, leaseSeconds, now)]
      ensures Table(jobs, log) == Next(old(Table(jobs, log)), Claim(id, worker, leaseSeconds, now))
    {
      ghost var before := Table(jobs, log);
      var attempt := jobs[id].attempt + 1;
      jobs := jobs[id := jobs[id].(status := Processing, attempt := attempt, worker := Some(worker),
                                   leasedUntil := Some(now + leaseSeconds), updatedAt := now)];
      log := log + [Event(id, ClaimedEvent, Some(Pending), Processing, attempt, Some(worker), now)];
      Took(Claim(id, worker, leaseSeconds, now), before);
    }

    // Recovers first, then takes the first ready job in line, if any.
    method ClaimNext(worker: string, leaseSeconds: int, now: int) returns (r: Option<string>, ghost order: seq<string>)
      requires Valid()
      modifies this
      ensures Valid()
      ensures multiset(order) == multiset(ExpiredIds(old(jobs), now))
      ensures r.None? ==> steps == old(steps) + Expiries(order, now) && jobs == Recovered(old(jobs), now)
      ensures r.None? ==> forall id | id in jobs :: !Ready(jobs[id], now)
      ensures r.Some? ==> FirstInLine(Recovered(old(jobs), now), r.value, now)
      ensures r.Some? ==>
                var recovered := Recovered(old(jobs), now);
                forall id | id in recovered && recovered[id].status == Pending && recovered[id].nextAttemptAt <= now ::
                  || recovered[r.value].nextAttemptAt < recovered[id].nextAttemptAt
                  || (recovered[r.value].nextAttemptAt == recovered[id].nextAttemptAt
                      && recovered[r.value].createdAt <= recovered[id].createdAt)
      ensures r.Some? ==> steps == old(steps) + Expiries(order, now) + [Claim(r.value, worker, leaseSeconds, now)]
      ensures r.Some? ==>
                var recovered := Table(Recovered(old(jobs), now), []);
                jobs == Next(recovered, Claim(r.value, worker, leaseSeconds, now)).jobs
      ensures r.Some? ==>
                Owned(Table(jobs, log), r.value, worker) && jobs[r.value].leasedUntil == Some(now + leaseSeconds)
      ensures r.Some? ==> r.value in old(jobs) && jobs[r.value].kind == old(jobs)[r.value].kind
    {
      var _, expired := Recover(now);
      order := expired;
      var first := FirstReady(jobs, now);
      if first.None? {
        return None, order;
      }
      var id := first.value;
      ClaimRow(id, worker, leaseSeconds, now);
      return Some(id), order;
    }

    method CheckOwned(id: string, worker: string) returns (r: Result<(), QueueError>)
      ensures r.Ok? <==> Owned(Table(jobs, log), id, worker)
      ensures r == Err(JobNotFound) <==> id !in jobs
      ensures r.Err? ==> r.error in {JobNotFound, NotOwner}
    {
      if id !in jobs {
        return Err(JobNotFound);
      }
      if jobs[id].status != Processing || jobs[id].worker != Some(worker) {
        return Err(NotOwner);
      }
      return Ok(());
    }

    method CompleteJob(id: string, worker: string, now: int) returns (r: Result<(), QueueError>)
      requires Valid()
      modifies this
      ensures Valid()
      ensures r.Ok? <==> Owned(old(Table(jobs, log)), id, worker)
      ensures r.Ok? ==> steps == old(steps) + [Complete(id, worker, now)]
      ensures r.Ok? ==> Table(jobs, log) == Next(old(Table(jobs, log)), Complete(id, worker, now))
      ensures r.Err? ==> unchanged(this)
    {
      r := CheckOwned(id, worker);
      if r.Ok? {
        ghost var before := Table(jobs, log);
        log := log + [Event(id, CompletedEvent, Some(Processing), Completed, jobs[id].attempt, Some(worker), now)];
        jobs := jobs[id := jobs[id].(status := Completed, worker := None, leasedUntil := None, updatedAt := now)];
        Took(Complete(id, worker, now), before);
      }
    }

    method FailJob(id: string, worker: string, error: string, retryDelay: int, now: int)
      returns (r: Result<(), QueueError>)
      requires Valid()
      modifies this
      ensures Valid()
      ensures r.Ok? <==> Owned(old(Table(jobs, log)), id, worker)
      ensures r.Ok? ==> steps == old(steps) + [Fail(id, worker, error, retryDelay, now)]
      ensures r.Ok? ==> Table(jobs, log) == Next(old(Table(jobs, log)), Fail(id, worker, error, retryDelay, now))
      ensures r.Err? ==> unchanged(this)
    {
      r := CheckOwned(id, worker);
      if r.Ok? {
        ghost var before := Table(jobs, log);
        var row := jobs[id];
        var terminal := row.attempt >= row.maxAttempts;
        var target := if terminal then Failed else Pending;
        jobs := jobs[id := row.(status := target, nextAttemptAt := if terminal then now else now + retryDelay,
                                worker := None, leasedUntil := None, lastError := Some(Truncated(error)),
                                updatedAt := now)];
        var kind := if terminal then FailedEvent else RetryEvent;
        log := log + [Event(id, kind, Some(Processing), target, row.attempt, Some(worker), now)];
        Took(Fail(id, worker, error, retryDelay, now), before);
      }
    }
  }

  /// The worker

  // What a worker reports for the job it ran: `outcomes` gives, for each kind with a handler, what the
  // handler does this time, return or raise the given error.
  function Report(id: string, kind: string, outcomes: map<string, Result<(), string>>, worker: string, retryDelay: int,
                  at: int): Step {
    if kind !in outcomes then Fail(id, worker, "no handler for " + kind, retryDelay, at)
    else if outcomes[kind].Err? then Fail(id, worker, outcomes[kind].error, retryDelay, at)
    else Complete(id, worker, at)
  }

  // One round of a worker that nobody interrupts.
  method RunOnce(queue: ProcessingQueue, outcomes: map<string, Result<(), string>>, worker: string,
                 leaseSeconds: int, retryDelay: int, claimedAt: int, reportedAt: int)
    returns (claimed: Option<string>, ghost order: seq<string>)
    requires queue.Valid()
    modifies queue
    ensures queue.Valid()
    ensures multiset(order) == multiset(ExpiredIds(old(queue.jobs), claimedAt))
    ensures claimed.None? ==> queue.steps == old(queue.steps) + Expiries(order, claimedAt)
    ensures claimed.None? ==> queue.jobs == Recovered(old(queue.jobs), claimedAt)
    ensures claimed.None? ==> forall id | id in queue.jobs :: !Ready(queue.jobs[id], claimedAt)
    ensures claimed.Some? ==> FirstInLine(Recovered(old(queue.jobs), claimedAt), claimed.value, claimedAt)
    ensures claimed.Some? ==> claimed.value in old(queue.jobs) && claimed.value in queue.jobs
    ensures claimed.Some? ==>
              var before, after := old(queue.jobs)[claimed.value], queue.jobs[claimed.value];
              var succeeded := before.kind in outcomes && outcomes[before.kind].Ok?;
              && after.attempt == before.attempt + 1 && after.updatedAt == reportedAt
              && (if succeeded then after.status == Completed
                  else if after.attempt < after.maxAttempts
                    then after.status == Pending && after.nextAttemptAt == reportedAt + retryDelay
                  else after.status == Failed)
              && (before.kind !in outcomes ==> after.lastError == Some(Truncated("no handler for " + before.kind)))
              && (before.kind in outcomes && outcomes[before.kind].Err? ==>
                    after.lastError == Some(Truncated(outcomes[before.kind].error)))
    ensures claimed.Some? ==>
              var claim := Claim(claimed.value, worker, leaseSeconds, claimedAt);
              var kind := old(queue.jobs)[claimed.value].kind;
              var report := Report(claimed.value, kind, outcomes, worker, retryDelay, reportedAt);
              queue.steps == old(queue.steps) + Expiries(order, claimedAt) + [claim] + [report]
  {
    claimed, order := queue.ClaimNext(worker, leaseSeconds, claimedAt);
    if claimed.Some? {
      var id := claimed.value;
      var kind := queue.jobs[id].kind;
      if kind !in outcomes {
        var _ := queue.FailJob(id, worker, "no handler for " + kind, retryDelay, reportedAt);
      } else if outcomes[kind].Err? {
        var _ := queue.FailJob(id, worker, outcomes[kind].error, retryDelay, reportedAt);
      } else {
        var _ := queue.CompleteJob(id, worker, reportedAt);
      }
    }
  }
}
