/**
  The notification outbox: queueing with deduplication, operator actions, and worker batches under a
  delivery policy. Instants are seconds on the UTC timeline; what a channel does is a parameter.
 */
module Notifications {
  import opened Selection
  import opened Validation
  import opened Wrappers

  datatype Status = Pending | Sent | Cancelled

  datatype Notification = Notification(
    organization: string, caseId: string, level: string, channel: string, target: string, dedupeKey: string,
    status: Status, createdAt: int, attempts: int, maxAttempts: int, lastAttemptAt: Option<int>,
    nextAttemptAt: Option<int>, deadLetteredAt: Option<int>, error: Option<string>,
    sentBy: Option<string>, sentAt: Option<int>, cancelledBy: Option<string>, cancelledAt: Option<int>)

  type Outbox = map<string, Notification>

  // The hash of organization, case, level, channel and target.
  type DedupeKey = (string, string, string, string, string) -> string

  datatype Error = Invalid | NotFound | NotAllowed | DeliveryFailed

  /// Policy

  // Quiet hours are seconds of the day.
  datatype Policy = Policy(
    enabled: bool, levels: seq<string>, channels: seq<string>, quietStart: Option<int>, quietEnd: Option<int>,
    allowExternal: bool)

  function SecondsOfDay(now: int): int {
    now % 86400
  }

  predicate InQuietWindow(now: int, start: Option<int>, end: Option<int>) {
    if start.None? || end.None? then false
    else
      var current, s, e := SecondsOfDay(now), start.value, end.value;
      if s <= e then s <= current < e else current >= s || current < e
  }

  predicate Allows(policy: Policy, level: string, channel: string, now: int) {
    && policy.enabled
    && level in policy.levels
    && channel in policy.channels
    && (channel == "EMAIL" || channel == "WEBHOOK" ==> policy.allowExternal)
    && !InQuietWindow(now, policy.quietStart, policy.quietEnd)
  }

  // The window, wrapping midnight or not, holds the times less than its length after its start, around the clock.
  lemma QuietWindowWraps(now: int, start: int, end: int)
    requires 0 <= start < 86400 && 0 <= end < 86400
    ensures InQuietWindow(now, Some(start), Some(end)) <==> (now - start) % 86400 < (end - start) % 86400
  {
    var day := now / 86400;
    var current := SecondsOfDay(now);
    assert now == day * 86400 + current;
    if start <= current {
      assert (now - start) % 86400 == current - start;
    } else {
      assert now - start == (day - 1) * 86400 + (current - start + 86400);
      assert (now - start) % 86400 == current - start + 86400;
    }
    assert (end - start) % 86400 == if start <= end then end - start else end - start + 86400;
  }

  /// One delivery attempt

  // What the outside world does when a channel is tried.
  datatype World = Accepts | Refuses(error: string) | Breaks(error: string)

  // Only pending notifications are delivered, and in-app ones need nobody else.
  function Deliver(n: Notification, world: World): World {
    if n.status != Pending then Refuses("only pending notifications can be delivered")
    else if n.channel == "IN_APP" then Accepts
    else if n.channel == "WEBHOOK" || n.channel == "EMAIL" then world
    else Refuses("unsupported notification channel")
  }

  function Power(base: int, exponent: nat): int {
    if exponent == 0 then 1 else base * Power(base, exponent - 1)
  }

  function BackoffSeconds(attempt: int): int {
    var delay := 60 * Power(5, if attempt < 1 then 0 else attempt - 1);
    if delay < 3600 then delay else 3600
  }

  // One, five and twenty-five minutes, then an hour for ever.
  lemma BackoffTable(attempt: int)
    requires 1 <= attempt
    ensures BackoffSeconds(attempt)
         == if attempt == 1 then 60 else if attempt == 2 then 300 else if attempt == 3 then 1500 else 3600
  {
    assert Power(5, 0) == 1;
    assert Power(5, 1) == 5;
    assert Power(5, 2) == 25;
    if 4 <= attempt {
      PowerGrows(attempt - 4);
    }
  }

  lemma {:induction false} PowerGrows(more: nat)
    ensures 125 <= Power(5, 3 + more)
  {
    if more == 0 {
      assert Power(5, 0) == 1;
      assert Power(5, 1) == 5;
      assert Power(5, 2) == 25;
    } else {
      PowerGrows(more - 1);
    }
  }

  datatype Verdict = Skipped | Delivered | Retried | DeadLettered

  // What the worker does to a candidate it comes to.
  function VerdictOn(policy: Policy, n: Notification, now: int, world: World): Verdict {
    if n.nextAttemptAt.Some? && n.nextAttemptAt.value > now then Skipped
    else if !Allows(policy, n.level, n.channel, now) then Skipped
    else if Deliver(n, world) == Accepts then Delivered
    else if n.attempts + 1 >= n.maxAttempts then DeadLettered
    else Retried
  }

  function Visited(policy: Policy, n: Notification, now: int, actor: string, world: World): Notification {
    var attempted := n.(attempts := n.attempts + 1, lastAttemptAt := Some(now));
    match VerdictOn(policy, n, now, world)
    case Skipped => n
    case Delivered =>
      attempted.(status := Sent, sentBy := Some(actor), sentAt := Some(now), error := None, nextAttemptAt := None)
    case DeadLettered =>
      attempted.(error := Some(Deliver(n, world).error), deadLetteredAt := Some(now), nextAttemptAt := None)
    case Retried =>
      attempted.(error := Some(Deliver(n, world).error), nextAttemptAt := Some(now + BackoffSeconds(n.attempts + 1)))
  }

  // The worker tries nothing inside the quiet window, before the next attempt is due, or against the policy.
  lemma WorkerKeepsToThePolicy(policy: Policy, n: Notification, now: int, actor: string, world: World)
    requires Visited(policy, n, now, actor, world) != n
    ensures n.nextAttemptAt.Some? ==> n.nextAttemptAt.value <= now
    ensures Allows(policy, n.level, n.channel, now)
    ensures policy.enabled && n.level in policy.levels && n.channel in policy.channels
    ensures n.channel == "EMAIL" || n.channel == "WEBHOOK" ==> policy.allowExternal
    ensures policy.quietStart.Some? && policy.quietEnd.Some?
              && 0 <= policy.quietStart.value < 86400 && 0 <= policy.quietEnd.value < 86400 ==>
              (now - policy.quietStart.value) % 86400 >= (policy.quietEnd.value - policy.quietStart.value) % 86400
  {
    if policy.quietStart.Some? && policy.quietEnd.Some?
       && 0 <= policy.quietStart.value < 86400 && 0 <= policy.quietEnd.value < 86400 {
      QuietWindowWraps(now, policy.quietStart.value, policy.quietEnd.value);
    }
  }

  // It tries exactly what is due, what the policy is for, and what the quiet window, around the clock, does
  // not hold back.
  lemma WorkerTriesIff(policy: Policy, n: Notification, now: int, world: World, start: int, end: int)
    requires 0 <= start < 86400 && 0 <= end < 86400
    requires policy.quietStart == Some(start) && policy.quietEnd == Some(end)
    ensures VerdictOn(policy, n, now, world) != Skipped <==>
              && (n.nextAttemptAt.Some? ==> n.nextAttemptAt.value <= now)
              && policy.enabled && n.level in policy.levels && n.channel in policy.channels
              && (n.channel in {"EMAIL", "WEBHOOK"} ==> policy.allowExternal)
              && (now - start) % 86400 >= (end - start) % 86400
  {
    QuietWindowWraps(now, start, end);
  }

  // Without both ends of a window there are no quiet hours.
  lemma WorkerTriesWithoutQuietHours(policy: Policy, n: Notification, now: int, world: World)
    requires policy.quietStart.None? || policy.quietEnd.None?
    ensures VerdictOn(policy, n, now, world) != Skipped <==>
              && (n.nextAttemptAt.Some? ==> n.nextAttemptAt.value <= now)
              && policy.enabled && n.level in policy.levels && n.channel in policy.channels
              && (n.channel in {"EMAIL", "WEBHOOK"} ==> policy.allowExternal)
  {
  }

  // What a try makes of a pending notification: in-app ones are sent without asking the world, external ones
  // when it accepts; the others are retried after 1, 5, 25 and then 60 minutes, until the limit is reached.
  lemma TryLeadsTo(policy: Policy, n: Notification, now: int, actor: string, world: World)
    requires n.status == Pending && 0 <= n.attempts && VerdictOn(policy, n, now, world) != Skipped
    ensures var n', verdict := Visited(policy, n, now, actor, world), VerdictOn(policy, n, now, world);
      && n'.attempts == n.attempts + 1 && n'.lastAttemptAt == Some(now)
      && (verdict == Delivered <==> n.channel == "IN_APP" || (n.channel in {"EMAIL", "WEBHOOK"} && world == Accepts))
      && (n'.status == if verdict == Delivered then Sent else Pending)
      && (verdict == Delivered ==> n'.sentBy == Some(actor) && n'.sentAt == Some(now)
                                   && n'.nextAttemptAt.None? && n'.error.None? && n'.deadLetteredAt == n.deadLetteredAt)
      && (verdict == Retried <==> verdict != Delivered && n.attempts + 1 < n.maxAttempts)
      && (verdict == Retried ==>
            n'.deadLetteredAt == n.deadLetteredAt
            && n'.nextAttemptAt == Some(now + if n.attempts == 0 then 60 else if n.attempts == 1 then 300
                                              else if n.attempts == 2 then 1500 else 3600))
      && (verdict == DeadLettered ==> n'.deadLetteredAt == Some(now) && n'.nextAttemptAt.None?)
      && (verdict in {Retried, DeadLettered} && n.channel in {"EMAIL", "WEBHOOK"} && !world.Accepts? ==>
            n'.error == Some(world.error))
      && (verdict != Delivered ==> n'.error.Some?)
      && n'.cancelledBy == n.cancelledBy && n'.maxAttempts == n.maxAttempts && n'.channel == n.channel
  {
    BackoffTable(n.attempts + 1);
  }

  /// Operations on the outbox

  datatype Draft = Draft(organization: string, caseId: string, level: string, channel: string, target: string,
                         subject: string, body: string)

  function KeyOf(key: DedupeKey, d: Draft): string {
    key(d.organization, d.caseId, d.level, d.channel, d.target)
  }

  function Create(key: DedupeKey, d: Draft, now: int): Result<Notification, Error> {
    if d.channel != "IN_APP" && d.channel != "EMAIL" && d.channel != "WEBHOOK" then Err(Invalid)
    else if Blank(d.target) || Blank(d.subject) || Blank(d.body) then Err(Invalid)
    else Ok(Notification(d.organization, d.caseId, d.level, d.channel, d.target, KeyOf(key, d),
                         Pending, now, 0, 3, None, None, None, None, None, None, None, None))
  }

  // A pending notification of the same organization with the same key.
  predicate Duplicates(n: Notification, organization: string, dedupeKey: string) {
    n.organization == organization && n.dedupeKey == dedupeKey && n.status == Pending
  }

  function CancelledBy(n: Notification, actor: string, now: int): Notification {
    n.(status := Cancelled, cancelledBy := Some(actor), cancelledAt := Some(now))
  }

  function SentBy(n: Notification, actor: string, now: int): Notification {
    n.(status := Sent, sentBy := Some(actor), sentAt := Some(now))
  }

  // An operator's own delivery. Errors of the delivery layer are recorded; any other error passes unrecorded.
  function DeliveredBy(n: Notification, actor: string, now: int, world: World): Notification {
    match Deliver(n, world)
    case Accepts => SentBy(n, actor, now).(attempts := n.attempts + 1, lastAttemptAt := Some(now), error := None)
    case Refuses(error) => n.(attempts := n.attempts + 1, lastAttemptAt := Some(now), error := Some(error))
    case Breaks(_) => n
  }

  predicate Candidate(n: Notification, organization: string) {
    n.organization == organization && n.status == Pending
  }

  // The outbox after a worker batch came to these notifications.
  function AfterBatch(outbox: Outbox, visited: set<string>, policy: Policy, now: int, actor: string,
                      worlds: map<string, World>): Outbox {
    map id | id in outbox ::
      if id in visited then Visited(policy, outbox[id], now, actor, WorldOf(worlds, id)) else outbox[id]
  }

  function WorldOf(worlds: map<string, World>, id: string): World {
    if id in worlds then worlds[id] else Accepts
  }

  datatype Step =
    | Queue(id: string, notification: Notification)
    | Cancel(id: string, actor: string, now: int)
    | DeliverNow(id: string, policy: Policy, actor: string, now: int, world: World)
    | MarkSent(id: string, actor: string, now: int)
    | Batch(organization: string, visited: set<string>, policy: Policy, actor: string, now: int,
            worlds: map<string, World>)

  ghost predicate Enabled(outbox: Outbox, step: Step) {
    match step
    case Queue(id, n) =>
      && id !in outbox && n.status == Pending
      && forall other | other in outbox :: !Duplicates(outbox[other], n.organization, n.dedupeKey)
    case Cancel(id, _, _) => id in outbox && outbox[id].status == Pending
    case DeliverNow(id, policy, _, now, _) => id in outbox && Allows(policy, outbox[id].level, outbox[id].channel, now)
    case MarkSent(id, _, _) => id in outbox && outbox[id].status == Pending
    case Batch(organization, visited, _, _, _, _) =>
      forall id | id in visited :: id in outbox && Candidate(outbox[id], organization)
  }

  function Next(outbox: Outbox, step: Step): Outbox
    requires step.Cancel? || step.DeliverNow? || step.MarkSent? ==> step.id in outbox
  {
    match step
    case Queue(id, n) => outbox[id := n]
    case Cancel(id, actor, now) => outbox[id := CancelledBy(outbox[id], actor, now)]
    case DeliverNow(id, _, actor, now, world) => outbox[id := DeliveredBy(outbox[id], actor, now, world)]
    case MarkSent(id, actor, now) => outbox[id := SentBy(outbox[id], actor, now)]
    case Batch(_, visited, policy, actor, now, worlds) => AfterBatch(outbox, visited, policy, now, actor, worlds)
  }

  ghost predicate Legal(outbox: Outbox, steps: seq<Step>)
    decreases |steps|
  {
    steps == [] || (Enabled(outbox, steps[0]) && Legal(Next(outbox, steps[0]), steps[1..]))
  }

  ghost function Run(outbox: Outbox, steps: seq<Step>): Outbox
    requires Legal(outbox, steps)
    decreases |steps|
  {
    if steps == [] then outbox else Run(Next(outbox, steps[0]), steps[1..])
  }

  /// What every run keeps

  predicate Same(a: Notification, b: Notification) {
    a.organization == b.organization && a.dedupeKey == b.dedupeKey
  }

  // No two pending notifications of one organization share a dedupe key.
  ghost predicate NoDuplicates(outbox: Outbox) {
    forall a, b | a in outbox && b in outbox && a != b ::
      !(outbox[a].status == Pending && outbox[b].status == Pending && Same(outbox[a], outbox[b]))
  }

  // Existing notifications keep their identity, and a final status is never left.
  lemma StepKeepsIdentity(outbox: Outbox, step: Step, id: string)
    requires Enabled(outbox, step) && id in outbox
    ensures id in Next(outbox, step) && Same(Next(outbox, step)[id], outbox[id])
    ensures outbox[id].status != Pending ==> Next(outbox, step)[id].status == outbox[id].status
  {
  }

  // The status a step leads to: a cancellation cancels, a mark and a delivery that succeeds send, and nothing
  // else changes a status.
  lemma StepLeadsTo(outbox: Outbox, step: Step, id: string)
    requires Enabled(outbox, step) && id in outbox && outbox[id].status == Pending
    ensures var n' := Next(outbox, step)[id];
      && (n'.status == Cancelled <==> step.Cancel? && step.id == id)
      && (n'.status == Sent <==>
            || (step.MarkSent? && step.id == id)
            || (step.DeliverNow? && step.id == id && ChannelAccepts(outbox[id], step.world))
            || (step.Batch? && id in step.visited && ChannelAccepts(outbox[id], WorldOf(step.worlds, id))
                && VerdictOn(step.policy, outbox[id], step.now, WorldOf(step.worlds, id)) != Skipped))
      && (n'.status == Cancelled ==> n'.cancelledBy == Some(step.actor) && n'.cancelledAt == Some(step.now))
      && (n'.status == Sent ==> n'.sentBy == Some(step.actor) && n'.sentAt == Some(step.now))
  {
  }

  predicate ChannelAccepts(n: Notification, world: World) {
    n.channel == "IN_APP" || (n.channel in {"EMAIL", "WEBHOOK"} && world == Accepts)
  }

  // What an operator's delivery records when it fails: an attempt and the error for an error of the delivery
  // layer, nothing at all for any other.
  lemma FailedDeliveryRecords(n: Notification, actor: string, now: int, world: World)
    requires n.status == Pending && n.channel in {"EMAIL", "WEBHOOK"} && world != Accepts
    ensures DeliveredBy(n, actor, now, world)
         == if world.Breaks? then n
            else n.(attempts := n.attempts + 1, lastAttemptAt := Some(now), error := Some(world.error))
  {
  }

  // A notification can be queued for one of three channels with something in target, subject and body, and
  // starts afresh.
  lemma CreateSucceedsIff(key: DedupeKey, d: Draft, now: int)
    ensures Create(key, d, now).Ok? <==>
              && d.channel in {"IN_APP", "EMAIL", "WEBHOOK"}
              && SaysSomething(d.target) && SaysSomething(d.subject) && SaysSomething(d.body)
    ensures Create(key, d, now).Ok? ==>
              var n := Create(key, d, now).value;
              && n.status == Pending && n.attempts == 0 && n.maxAttempts == 3 && n.createdAt == now && Settled(n)
              && n.organization == d.organization && n.caseId == d.caseId && n.level == d.level
              && n.channel == d.channel && n.target == d.target
              && n.dedupeKey == key(d.organization, d.caseId, d.level, d.channel, d.target)
  {
    SaysSomethingIffNotBlank(d.target);
    SaysSomethingIffNotBlank(d.subject);
    SaysSomethingIffNotBlank(d.body);
  }

  lemma StepKeepsNoDuplicates(outbox: Outbox, step: Step)
    requires NoDuplicates(outbox) && Enabled(outbox, step)
    ensures NoDuplicates(Next(outbox, step))
  {
    var outbox' := Next(outbox, step);
    forall a, b | a in outbox' && b in outbox' && a != b
      ensures !(outbox'[a].status == Pending && outbox'[b].status == Pending && Same(outbox'[a], outbox'[b]))
    {
      if a in outbox {
        StepKeepsIdentity(outbox, step, a);
      }
      if b in outbox {
        StepKeepsIdentity(outbox, step, b);
      }
    }
  }

  // In every run no two pending notifications of an organization are duplicates, and SENT and CANCELLED are final.
  lemma {:induction false} EveryRunKeepsNoDuplicates(outbox: Outbox, steps: seq<Step>, id: string)
    requires NoDuplicates(outbox) && Legal(outbox, steps)
    ensures NoDuplicates(Run(outbox, steps))
    ensures id in outbox ==> id in Run(outbox, steps) && Same(Run(outbox, steps)[id], outbox[id])
    ensures id in outbox && outbox[id].status != Pending ==> Run(outbox, steps)[id].status == outbox[id].status
    decreases |steps|
  {
    if steps != [] {
      StepKeepsNoDuplicates(outbox, steps[0]);
      if id in outbox {
        StepKeepsIdentity(outbox, steps[0], id);
      }
      EveryRunKeepsNoDuplicates(Next(outbox, steps[0]), steps[1..], id);
    }
  }

  // While every worker batch comes before the scheduled instant, a notification waiting for its retry is
  // not tried by any of them: only an operator can touch it.
  lemma {:induction false} RetryWaitsForItsTime(outbox: Outbox, steps: seq<Step>, id: string, due: int)
    requires Legal(outbox, steps) && id in outbox && outbox[id].nextAttemptAt == Some(due)
    requires forall i | 0 <= i < |steps| :: steps[i].Batch? ==> steps[i].now < due
    requires forall i | 0 <= i < |steps| :: !(steps[i].DeliverNow? && steps[i].id == id)
    ensures id in Run(outbox, steps)
    ensures Run(outbox, steps)[id].attempts == outbox[id].attempts && Run(outbox, steps)[id].nextAttemptAt == Some(due)
    decreases |steps|
  {
    if steps != [] {
      RetryWaitsForItsTime(Next(outbox, steps[0]), steps[1..], id, due);
    }
  }

  /// The attempt limit and dead letters

  // How the worker leaves a pending notification: dead-lettered exactly at or beyond its attempt limit,
  // scheduled exactly between its first attempt and the limit.
  predicate Settled(n: Notification) {
    n.status == Pending ==>
      && 0 <= n.attempts
      && (n.deadLetteredAt.Some? <==> n.maxAttempts <= n.attempts)
      && (n.nextAttemptAt.Some? <==> 0 < n.attempts < n.maxAttempts)
  }

  // Along every run in which no operator delivers it, whatever else happens. Since a dead letter has no
  // scheduled instant and stays pending, later batches try it again.
  lemma {:induction false} DeadLetteredIffLimitReached(outbox: Outbox, steps: seq<Step>, id: string)
    requires Legal(outbox, steps) && id in outbox && Settled(outbox[id])
    requires forall i | 0 <= i < |steps| :: !(steps[i].DeliverNow? && steps[i].id == id)
    ensures id in Run(outbox, steps) && Settled(Run(outbox, steps)[id])
    decreases |steps|
  {
    if steps != [] {
      StepKeepsSettled(outbox, steps[0], id);
      DeadLetteredIffLimitReached(Next(outbox, steps[0]), steps[1..], id);
    }
  }

  // The step counts an attempt at the notification: a batch that does not skip it, or an operator's
  // delivery whose outcome is recorded.
  ghost predicate Tries(outbox: Outbox, step: Step, id: string)
    requires id in outbox
  {
    || (step.Batch? && id in step.visited
        && VerdictOn(step.policy, outbox[id], step.now, WorldOf(step.worlds, id)) != Skipped)
    || (step.DeliverNow? && step.id == id && !Deliver(outbox[id], step.world).Breaks?)
  }

  // A batch comes to the notification after it was dead-lettered, under a policy that lets it through.
  ghost predicate TriesDeadLetter(outbox: Outbox, step: Step, id: string)
    requires id in outbox
  {
    && step.Batch? && id in step.visited && outbox[id].status == Pending && outbox[id].deadLetteredAt.Some?
    && Allows(step.policy, outbox[id].level, outbox[id].channel, step.now)
  }

  ghost predicate SomeTryAtLimit(outbox: Outbox, steps: seq<Step>, id: string)
    requires Legal(outbox, steps) && id in outbox
    decreases |steps|
  {
    steps != [] && (
      || (Tries(outbox, steps[0], id) && outbox[id].maxAttempts <= outbox[id].attempts)
      || SomeTryAtLimit(Next(outbox, steps[0]), steps[1..], id))
  }

  ghost predicate SomeDeadLetterTried(outbox: Outbox, steps: seq<Step>, id: string)
    requires Legal(outbox, steps) && id in outbox
    decreases |steps|
  {
    steps != [] && (
      || TriesDeadLetter(outbox, steps[0], id)
      || SomeDeadLetterTried(Next(outbox, steps[0]), steps[1..], id))
  }

  lemma StepCountsTries(outbox: Outbox, step: Step, id: string)
    requires Enabled(outbox, step) && id in outbox
    ensures id in Next(outbox, step) && Next(outbox, step)[id].maxAttempts == outbox[id].maxAttempts
    ensures Next(outbox, step)[id].attempts == outbox[id].attempts + if Tries(outbox, step, id) then 1 else 0
  {
  }

  lemma {:induction false} AttemptsNeverFall(outbox: Outbox, steps: seq<Step>, id: string)
    requires Legal(outbox, steps) && id in outbox
    ensures id in Run(outbox, steps) && Run(outbox, steps)[id].maxAttempts == outbox[id].maxAttempts
    ensures outbox[id].attempts <= Run(outbox, steps)[id].attempts
    decreases |steps|
  {
    if steps != [] {
      StepCountsTries(outbox, steps[0], id);
      AttemptsNeverFall(Next(outbox, steps[0]), steps[1..], id);
    }
  }

  // In any run, attempts come to exceed the limit exactly when something tried the notification with its
  // attempts used up.
  lemma {:induction false} AttemptsExceedLimitIff(outbox: Outbox, steps: seq<Step>, id: string)
    requires Legal(outbox, steps) && id in outbox && outbox[id].attempts <= outbox[id].maxAttempts
    ensures id in Run(outbox, steps)
    ensures Run(outbox, steps)[id].maxAttempts < Run(outbox, steps)[id].attempts <==> SomeTryAtLimit(outbox, steps, id)
    decreases |steps|
  {
    if steps != [] {
      var next := Next(outbox, steps[0]);
      StepCountsTries(outbox, steps[0], id);
      if next[id].attempts <= next[id].maxAttempts {
        AttemptsExceedLimitIff(next, steps[1..], id);
      } else {
        AttemptsNeverFall(next, steps[1..], id);
      }
    }
  }

  lemma StepKeepsSettled(outbox: Outbox, step: Step, id: string)
    requires Enabled(outbox, step) && id in outbox && Settled(outbox[id]) && !(step.DeliverNow? && step.id == id)
    ensures id in Next(outbox, step) && Settled(Next(outbox, step)[id])
    ensures TriesDeadLetter(outbox, step, id) <==>
              Tries(outbox, step, id) && outbox[id].maxAttempts <= outbox[id].attempts
  {
  }

  // Without operator deliveries, that is exactly when a batch came to it as a dead letter, under a policy
  // that lets it through.
  lemma {:induction false} AttemptsExceedLimitIffDeadLetterTried(outbox: Outbox, steps: seq<Step>, id: string)
    requires Legal(outbox, steps) && id in outbox && Settled(outbox[id])
    requires outbox[id].attempts <= outbox[id].maxAttempts
    requires forall i | 0 <= i < |steps| :: !(steps[i].DeliverNow? && steps[i].id == id)
    ensures id in Run(outbox, steps)
    ensures Run(outbox, steps)[id].maxAttempts < Run(outbox, steps)[id].attempts <==>
              SomeDeadLetterTried(outbox, steps, id)
    decreases |steps|
  {
    if steps != [] {
      var next := Next(outbox, steps[0]);
      StepKeepsSettled(outbox, steps[0], id);
      StepCountsTries(outbox, steps[0], id);
      if next[id].attempts <= next[id].maxAttempts {
        AttemptsExceedLimitIffDeadLetterTried(next, steps[1..], id);
      } else {
        AttemptsNeverFall(next, steps[1..], id);
      }
    }
  }

  // Hourly batches in which the channel keeps failing.
  ghost function FailingBatches(id: string, organization: string, policy: Policy, now: int, rounds: nat): seq<Step>
    decreases rounds
  {
    if rounds == 0 then []
    else
      var batch := Batch(organization, {id}, policy, "actor", now, map[id := Breaks("down")]);
      [batch] + FailingBatches(id, organization, policy, now + 3600, rounds - 1)
  }

  // The attempt limit does not bound attempts: after any number of them the notification is still pending.
  lemma {:induction false} AttemptsOutrunTheLimit(outbox: Outbox, id: string, policy: Policy, now: int, rounds: nat)
    requires id in outbox && outbox[id].status == Pending && outbox[id].channel in {"EMAIL", "WEBHOOK"}
    requires outbox[id].nextAttemptAt.Some? ==> outbox[id].nextAttemptAt.value <= now
    requires forall at :: Allows(policy, outbox[id].level, outbox[id].channel, at)
    ensures var steps := FailingBatches(id, outbox[id].organization, policy, now, rounds);
      && Legal(outbox, steps) && id in Run(outbox, steps)
      && Run(outbox, steps)[id].attempts == outbox[id].attempts + rounds
      && Run(outbox, steps)[id].maxAttempts == outbox[id].maxAttempts
      && Run(outbox, steps)[id].status == Pending
    decreases rounds
  {
    if rounds != 0 {
      var steps := FailingBatches(id, outbox[id].organization, policy, now, rounds);
      assert Enabled(outbox, steps[0]);
      assert Allows(policy, outbox[id].level, outbox[id].channel, now);
      assert steps[1..] == FailingBatches(id, outbox[id].organization, policy, now + 3600, rounds - 1);
      AttemptsOutrunTheLimit(Next(outbox, steps[0]), id, policy, now + 3600, rounds - 1);
    }
  }

  /// The service and its worker

  datatype WorkerResult = WorkerResult(processed: nat, sent: nat, retried: nat, deadLettered: nat, skipped: nat)

  function SortKey(n: Notification): int {
    if n.nextAttemptAt.Some? then n.nextAttemptAt.value else n.createdAt
  }

  // The worker's order: scheduled instant, then creation.
  predicate NotAfter(a: Notification, b: Notification) {
    SortKey(a) < SortKey(b) || (SortKey(a) == SortKey(b) && a.createdAt <= b.createdAt)
  }

  // None of `ahead` comes after any of `behind` in the worker's order.
  ghost predicate AllAhead(outbox: Outbox, ahead: set<string>, behind: set<string>) {
    forall a, b | a in ahead && b in behind && a in outbox && b in outbox :: NotAfter(outbox[a], outbox[b])
  }

  function Candidates(outbox: Outbox, organization: string): set<string> {
    set id | id in outbox && Candidate(outbox[id], organization)
  }

  // The circumstances of a batch: the outbox it starts from, the policy, the time and the outside world.
  datatype Circumstances = Circumstances(outbox: Outbox, policy: Policy, now: int, worlds: map<string, World>)
  {
    function Verdict(id: string): Verdict {
      if id in outbox then VerdictOn(policy, outbox[id], now, WorldOf(worlds, id)) else Skipped
    }

    // The visited notifications that meet the given verdict.
    function With(visited: set<string>, verdict: Verdict): set<string> {
      set id | id in visited && Verdict(id) == verdict
    }

    // The counts of a batch that visited these notifications.
    function Tally(visited: set<string>): WorkerResult {
      var sent, retried, dead := |With(visited, Delivered)|, |With(visited, Retried)|, |With(visited, DeadLettered)|;
      WorkerResult(sent + retried + dead, sent, retried, dead, |With(visited, Skipped)|)
    }

    lemma OneMoreVisited(visited: set<string>, id: string, verdict: Verdict)
      requires id !in visited
      ensures |With(visited + {id}, verdict)| == |With(visited, verdict)| + if Verdict(id) == verdict then 1 else 0
    {
      if Verdict(id) == verdict {
        assert With(visited + {id}, verdict) == With(visited, verdict) + {id};
      } else {
        assert With(visited + {id}, verdict) == With(visited, verdict);
      }
    }

    lemma TallyOneMore(visited: set<string>, id: string)
      requires id !in visited
      ensures Tally(visited + {id}) == Counted(Tally(visited), Verdict(id))
    {
      OneMoreVisited(visited, id, Skipped);
      OneMoreVisited(visited, id, Delivered);
      OneMoreVisited(visited, id, Retried);
      OneMoreVisited(visited, id, DeadLettered);
    }

    // What the counts count, told by the notifications after the batch: those sent, those left as they were,
    // and those tried in vain, below their attempt limit or not.
    lemma TallyTellsTheOutbox(visited: set<string>, actor: string, after: Outbox)
      requires forall id | id in visited :: id in outbox && outbox[id].status == Pending
      requires after == AfterBatch(outbox, visited, policy, now, actor, worlds)
      ensures Tally(visited).sent == |set id | id in visited && after[id].status == Sent|
      ensures Tally(visited).skipped == |set id | id in visited && after[id] == outbox[id]|
      ensures Tally(visited).retried == |set id | id in visited && TriedInVain(outbox[id], after[id], true)|
      ensures Tally(visited).deadLettered == |set id | id in visited && TriedInVain(outbox[id], after[id], false)|
    {
      forall id | id in visited
        ensures Verdict(id) == Delivered <==> after[id].status == Sent
        ensures Verdict(id) == Skipped <==> after[id] == outbox[id]
        ensures Verdict(id) == Retried <==> TriedInVain(outbox[id], after[id], true)
        ensures Verdict(id) == DeadLettered <==> TriedInVain(outbox[id], after[id], false)
      {
        VerdictTells(policy, outbox[id], now, actor, WorldOf(worlds, id));
      }
      assert With(visited, Delivered) == set id | id in visited && after[id].status == Sent;
      assert With(visited, Skipped) == set id | id in visited && after[id] == outbox[id];
      assert With(visited, Retried) == set id | id in visited && TriedInVain(outbox[id], after[id], true);
      assert With(visited, DeadLettered) == set id | id in visited && TriedInVain(outbox[id], after[id], false);
    }

    // Every visited notification is counted once.
    lemma {:induction false} TallyAddsUp(visited: set<string>)
      ensures Tally(visited).processed + Tally(visited).skipped == |visited|
      decreases visited
    {
      if visited != {} {
        var id :| id in visited;
        TallyAddsUp(visited - {id});
        TallyOneMore(visited - {id}, id);
        assert visited - {id} + {id} == visited;
      }
    }
  }

  /// Starvation

  // A batch of at most `limit` visits the first candidates of its organization in the worker's order.
  ghost predicate TakesTheFirst(outbox: Outbox, organization: string, visited: set<string>, limit: nat) {
    && visited <= Candidates(outbox, organization) && |visited| <= limit
    && AllAhead(outbox, visited, Candidates(outbox, organization) - visited)
  }

  // Each of these candidates comes strictly before the notification.
  ghost predicate StrictlyAhead(outbox: Outbox, ahead: set<string>, id: string)
    requires id in outbox
  {
    ahead <= Candidates(outbox, outbox[id].organization) && forall a | a in ahead :: !NotAfter(outbox[id], outbox[a])
  }

  // A batch does not reach a notification that has as many candidates ahead of it as the batch may visit.
  lemma BatchStopsShort(outbox: Outbox, visited: set<string>, limit: nat, ahead: set<string>, id: string)
    requires id in outbox && TakesTheFirst(outbox, outbox[id].organization, visited, limit)
    requires StrictlyAhead(outbox, ahead, id) && limit <= |ahead|
    ensures id !in visited
  {
    if id in visited {
      assert id !in ahead;
      forall a | a in ahead
        ensures a in visited
      {
        assert a in Candidates(outbox, outbox[id].organization);
      }
      SubsetSize(ahead + {id}, visited);
    }
  }

  // A dead letter of an external channel, created before the instant that orders the other notification.
  predicate DeadAhead(dead: Notification, n: Notification) {
    && dead.organization == n.organization && dead.status == Pending
    && dead.nextAttemptAt.None? && dead.maxAttempts <= dead.attempts
    && dead.channel in {"EMAIL", "WEBHOOK"} && dead.createdAt < SortKey(n)
  }

  // A batch of at most `limit`, or an operation on none of the dead letters and not on the notification; a
  // dead letter that is tried fails.
  ghost predicate LeavesDeadAhead(outbox: Outbox, step: Step, limit: nat, dead: set<string>, id: string)
    requires id in outbox
  {
    match step
    case Queue(_, _) => true
    case Cancel(other, _, _) => other !in dead + {id}
    case MarkSent(other, _, _) => other !in dead + {id}
    case DeliverNow(other, _, _, _, _) => other !in dead + {id}
    case Batch(organization, visited, _, _, _, worlds) =>
      && (forall d | d in dead :: WorldOf(worlds, d) != Accepts)
      && (organization == outbox[id].organization ==> TakesTheFirst(outbox, organization, visited, limit))
  }

  ghost predicate AllLeaveDeadAhead(outbox: Outbox, steps: seq<Step>, limit: nat, dead: set<string>, id: string)
    requires Legal(outbox, steps) && id in outbox
    decreases |steps|
  {
    steps != [] ==>
      && LeavesDeadAhead(outbox, steps[0], limit, dead, id)
      && AllLeaveDeadAhead(Next(outbox, steps[0]), steps[1..], limit, dead, id)
  }

  ghost predicate AllDeadAhead(outbox: Outbox, dead: set<string>, id: string)
    requires id in outbox
  {
    forall d | d in dead :: d in outbox && DeadAhead(outbox[d], outbox[id])
  }

  lemma DeadStaysAhead(outbox: Outbox, step: Step, limit: nat, dead: set<string>, id: string, d: string)
    requires Enabled(outbox, step) && id in outbox && LeavesDeadAhead(outbox, step, limit, dead, id)
    requires d in dead && d in outbox && DeadAhead(outbox[d], outbox[id])
    ensures d in Next(outbox, step) && DeadAhead(Next(outbox, step)[d], outbox[id])
  {
  }

  lemma StarvedStep(outbox: Outbox, step: Step, limit: nat, dead: set<string>, id: string)
    requires Enabled(outbox, step) && id in outbox && LeavesDeadAhead(outbox, step, limit, dead, id)
    requires limit <= |dead| && AllDeadAhead(outbox, dead, id)
    ensures id in Next(outbox, step) && Next(outbox, step)[id] == outbox[id]
  {
    if step.Batch? && step.organization == outbox[id].organization {
      assert StrictlyAhead(outbox, dead, id) by {
        forall d | d in dead
          ensures d in Candidates(outbox, outbox[id].organization) && !NotAfter(outbox[id], outbox[d])
        {
          assert DeadAhead(outbox[d], outbox[id]);
        }
      }
      BatchStopsShort(outbox, step.visited, limit, dead, id);
    }
  }

  // Dead letters keep their place in the order, so as many failing ones as a batch may visit keep the worker
  // from every notification behind them, for ever: whatever is queued or done to others meanwhile, it stays
  // as it is.
  lemma {:induction false} DeadLettersStarveTheRest(outbox: Outbox, steps: seq<Step>, limit: nat, dead: set<string>,
                                                    id: string)
    requires Legal(outbox, steps) && id in outbox && AllLeaveDeadAhead(outbox, steps, limit, dead, id)
    requires limit <= |dead| && AllDeadAhead(outbox, dead, id)
    ensures id in Run(outbox, steps) && Run(outbox, steps)[id] == outbox[id]
    decreases |steps|
  {
    if steps != [] {
      StarvedStep(outbox, steps[0], limit, dead, id);
      forall d | d in dead
        ensures d in Next(outbox, steps[0]) && DeadAhead(Next(outbox, steps[0])[d], outbox[id])
      {
        DeadStaysAhead(outbox, steps[0], limit, dead, id, d);
      }
      DeadLettersStarveTheRest(Next(outbox, steps[0]), steps[1..], limit, dead, id);
    }
  }

  // An attempt was counted, the notification is still pending, and it has attempts left or not.
  predicate TriedInVain(before: Notification, after: Notification, left: bool) {
    && after.attempts == before.attempts + 1 && after.status == Pending
    && (left <==> after.attempts < after.maxAttempts)
  }

  lemma VerdictTells(policy: Policy, n: Notification, now: int, actor: string, world: World)
    requires n.status == Pending
    ensures var verdict, n' := VerdictOn(policy, n, now, world), Visited(policy, n, now, actor, world);
      && (verdict == Delivered <==> n'.status == Sent)
      && (verdict == Skipped <==> n' == n)
      && (verdict == Retried <==> TriedInVain(n, n', true))
      && (verdict == DeadLettered <==> TriedInVain(n, n', false))
  {
  }

  function Counted(r: WorkerResult, verdict: Verdict): WorkerResult {
    match verdict
    case Skipped => r.(skipped := r.skipped + 1)
    case Delivered => r.(processed := r.processed + 1, sent := r.sent + 1)
    case Retried => r.(processed := r.processed + 1, retried := r.retried + 1)
    case DeadLettered => r.(processed := r.processed + 1, deadLettered := r.deadLettered + 1)
  }

  lemma BatchOneMore(outbox: Outbox, visited: set<string>, id: string, policy: Policy, now: int, actor: string,
                     worlds: map<string, World>)
    requires id in outbox && id !in visited
    ensures AfterBatch(outbox, visited, policy, now, actor, worlds)[id] == outbox[id]
    ensures AfterBatch(outbox, visited + {id}, policy, now, actor, worlds)
         == AfterBatch(outbox, visited, policy, now, actor, worlds)[
              id := Visited(policy, outbox[id], now, actor, WorldOf(worlds, id))]
  {
  }

  class NotificationService {
    const key: DedupeKey
    var outbox: Outbox

    constructor (key: DedupeKey)
      ensures this.key == key && outbox == map[]
    {
      this.key := key;
      outbox := map[];
    }

    // Returns the new notification, or the pending one it would duplicate.
    method QueueNotification(newId: string, d: Draft, policy: Policy, now: int) returns (r: Result<string, Error>)
      requires newId !in outbox
      modifies this
      ensures r == Err(NotAllowed) <==> !Allows(policy, d.level, d.channel, now)
      ensures r == Err(Invalid) <==> Allows(policy, d.level, d.channel, now) && Create(key, d, now).Err?
      ensures r.Err? ==> r.error in {NotAllowed, Invalid}
      ensures r == Ok(newId) <==>
                && Allows(policy, d.level, d.channel, now) && Create(key, d, now).Ok?
                && forall other | other in old(outbox) ::
                     || old(outbox)[other].organization != d.organization
                     || old(outbox)[other].dedupeKey != KeyOf(key, d)
                     || old(outbox)[other].status in {Sent, Cancelled}
      ensures r == Ok(newId) ==>
                Create(key, d, now).Ok? && Enabled(old(outbox), Queue(newId, Create(key, d, now).value))
                                 && outbox == Next(old(outbox), Queue(newId, Create(key, d, now).value))
      ensures r != Ok(newId) ==> unchanged(this)
      ensures r.Ok? && r.value != newId ==>
                r.value in outbox && Duplicates(outbox[r.value], d.organization, KeyOf(key, d))
    {
      if !Allows(policy, d.level, d.channel, now) {
        return Err(NotAllowed);
      }
      var created := Create(key, d, now);
      if created.Err? {
        return Err(created.error);
      }
      if existing :| existing in outbox && Duplicates(outbox[existing], d.organization, created.value.dedupeKey) {
        return Ok(existing);
      }
      outbox := outbox[newId := created.value];
      return Ok(newId);
    }

    method CancelNotification(organization: string, id: string, actor: string, now: int) returns (r: Result<(), Error>)
      modifies this
      ensures r.Ok? <==> id in old(outbox) && Candidate(old(outbox)[id], organization)
      ensures r.Ok? ==>
                Enabled(old(outbox), Cancel(id, actor, now)) && outbox == Next(old(outbox), Cancel(id, actor, now))
      ensures r.Err? ==> unchanged(this)
    {
      if id !in outbox || outbox[id].organization != organization {
        return Err(NotFound);
      }
      if outbox[id].status != Pending {
        return Err(Invalid);
      }
      outbox := outbox[id := outbox[id].(status := Cancelled, cancelledBy := Some(actor), cancelledAt := Some(now))];
      return Ok(());
    }

    method MarkNotificationSent(organization: string, id: string, actor: string, now: int)
      returns (r: Result<(), Error>)
      modifies this
      ensures r.Ok? <==> id in old(outbox) && Candidate(old(outbox)[id], organization)
      ensures r.Ok? ==>
                Enabled(old(outbox), MarkSent(id, actor, now)) && outbox == Next(old(outbox), MarkSent(id, actor, now))
      ensures r.Err? ==> unchanged(this)
    {
      if id !in outbox || outbox[id].organization != organization {
        return Err(NotFound);
      }
      if outbox[id].status != Pending {
        return Err(Invalid);
      }
      outbox := outbox[id := outbox[id].(status := Sent, sentBy := Some(actor), sentAt := Some(now))];
      return Ok(());
    }

    // Succeeds exactly on a pending notification that the policy lets through and the channel accepts.
    method DeliverNotification(organization: string, id: string, policy: Policy, actor: string, now: int, world: World)
      returns (r: Result<(), Error>)
      modifies this
      ensures r == Err(NotFound) <==> id !in old(outbox) || old(outbox)[id].organization != organization
      ensures r == Err(NotAllowed) <==> id in old(outbox) && old(outbox)[id].organization == organization
                                        && !Allows(policy, old(outbox)[id].level, old(outbox)[id].channel, now)
      ensures r.Ok? || r == Err(DeliveryFailed) ==>
                && Enabled(old(outbox), DeliverNow(id, policy, actor, now, world))
                && outbox == Next(old(outbox), DeliverNow(id, policy, actor, now, world))
                && (r.Ok? <==> Deliver(old(outbox)[id], world) == Accepts)
      ensures r.Ok? ==> old(outbox)[id].status == Pending && outbox[id].status == Sent
      ensures r.Err? ==> r.error in {NotFound, NotAllowed, DeliveryFailed}
      ensures r in {Err(NotFound), Err(NotAllowed)} ==> unchanged(this)
    {
      if id !in outbox || outbox[id].organization != organization {
        return Err(NotFound);
      }
      var n := outbox[id];
      if !Allows(policy, n.level, n.channel, now) {
        return Err(NotAllowed);
      }
      match Deliver(n, world) {
        case Accepts =>
          outbox := outbox[id := n.(status := Sent, sentBy := Some(actor), sentAt := Some(now),
                                    attempts := n.attempts + 1,
                                    lastAttemptAt := Some(now), error := None)];
          return Ok(());
        case Refuses(error) =>
          outbox := outbox[id := n.(attempts := n.attempts + 1, lastAttemptAt := Some(now), error := Some(error))];
          return Err(DeliveryFailed);
        case Breaks(_) =>
          assert outbox[id := n] == outbox;
          return Err(DeliveryFailed);
      }
    }

    method Visit(id: string, policy: Policy, actor: string, now: int, world: World) returns (verdict: Verdict)
      requires id in outbox
      modifies this
      ensures verdict == VerdictOn(policy, old(outbox)[id], now, world)
      ensures outbox == old(outbox)[id := Visited(policy, old(outbox)[id], now, actor, world)]
    {
      var n := outbox[id];
      if n.nextAttemptAt.Some? && n.nextAttemptAt.value > now {
        assert outbox[id := n] == outbox;
        return Skipped;
      }
      if !Allows(policy, n.level, n.channel, now) {
        assert outbox[id := n] == outbox;
        return Skipped;
      }
      n := n.(attempts := n.attempts + 1, lastAttemptAt := Some(now));
      var result := Deliver(outbox[id], world);
      if result != Accepts {
        n := n.(error := Some(result.error));
        if n.attempts >= n.maxAttempts {
          outbox := outbox[id := n.(deadLetteredAt := Some(now), nextAttemptAt := None)];
          return DeadLettered;
        }
        outbox := outbox[id := n.(nextAttemptAt := Some(now + BackoffSeconds(n.attempts)))];
        return Retried;
      }
      outbox := outbox[id := n.(status := Sent, sentBy := Some(actor), sentAt := Some(now), error := None,
                                nextAttemptAt := None)];
      return Delivered;
    }

    // Treats the first of these notifications in the worker's order.
    method VisitFirst(todo: set<string>, policy: Policy, actor: string, now: int, worlds: map<string, World>)
      returns (id: string, verdict: Verdict)
      requires todo != {} && todo <= outbox.Keys
      modifies this
      ensures id in todo && forall other | other in todo :: NotAfter(old(outbox)[id], old(outbox)[other])
      ensures forall other | other in todo ::
                var n, m := old(outbox)[id], old(outbox)[other];
                var due := if n.nextAttemptAt.Some? then n.nextAttemptAt.value else n.createdAt;
                var due' := if m.nextAttemptAt.Some? then m.nextAttemptAt.value else m.createdAt;
                due < due' || (due == due' && n.createdAt <= m.createdAt)
      ensures verdict == VerdictOn(policy, old(outbox)[id], now, WorldOf(worlds, id))
      ensures outbox == old(outbox)[id := Visited(policy, old(outbox)[id], now, actor, WorldOf(worlds, id))]
    {
      SomeoneComesFirst(outbox, todo, NotAfter);
      id :| id in todo && ComesFirst(outbox, todo, NotAfter, id);
      verdict := Visit(id, policy, actor, now, WorldOf(worlds, id));
    }

    // Comes to the first `limit` candidates in the worker's order and treats each on its own.
    method VisitCandidates(organization: string, limit: nat, policy: Policy, actor: string, now: int,
                           worlds: map<string, World>)
      returns (result: WorkerResult, ghost visited: set<string>)
      modifies this
      ensures visited <= Candidates(old(outbox), organization)
      ensures |visited| == limit || (|visited| <= limit && visited == Candidates(old(outbox), organization))
      ensures AllAhead(old(outbox), visited, Candidates(old(outbox), organization) - visited)
      ensures outbox == AfterBatch(old(outbox), visited, policy, now, actor, worlds)
      ensures result == Circumstances(old(outbox), policy, now, worlds).Tally(visited)
    {
      ghost var start := Circumstances(outbox, policy, now, worlds);
      var todo := Candidates(outbox, organization);
      ghost var candidates := todo;
      var count := 0;
      result, visited := WorkerResult(0, 0, 0, 0, 0), {};
      while todo != {} && count < limit
        invariant visited <= candidates <= start.outbox.Keys && todo == candidates - visited
        invariant count == |visited| <= limit
        invariant outbox == AfterBatch(start.outbox, visited, policy, now, actor, worlds)
        invariant AllAhead(start.outbox, visited, todo)
        invariant result == start.Tally(visited)
        decreases todo
      {
        var id, verdict := VisitFirst(todo, policy, actor, now, worlds);
        start.TallyOneMore(visited, id);
        BatchOneMore(start.outbox, visited, id, policy, now, actor, worlds);
        MoveOver(candidates, visited, id);
        result := Counted(result, verdict);
        visited, todo, count := visited + {id}, todo - {id}, count + 1;
      }
    }

    // One batch for one organization, with every visited notification accounted for.
    method RunOnce(organization: string, limit: int, policy: Policy, actor: string, now: int,
                   worlds: map<string, World>)
      returns (r: Result<WorkerResult, Error>, ghost visited: set<string>)
      modifies this
      ensures r.Err? <==> organization == "" || limit < 1 || 100 < limit
      ensures r.Err? ==> unchanged(this) && r.error == Invalid
      ensures r.Ok? ==> Enabled(old(outbox), Batch(organization, visited, policy, actor, now, worlds))
      ensures r.Ok? ==> outbox == Next(old(outbox), Batch(organization, visited, policy, actor, now, worlds))
      ensures r.Ok? ==>
                var candidates := |Candidates(old(outbox), organization)|;
                |visited| == if limit < candidates then limit else candidates
      ensures r.Ok? ==> TakesTheFirst(old(outbox), organization, visited, limit)
      ensures r.Ok? ==> r.value == Circumstances(old(outbox), policy, now, worlds).Tally(visited)
      ensures r.Ok? ==> r.value.processed == r.value.sent + r.value.retried + r.value.deadLettered
                        && r.value.processed + r.value.skipped == |visited|
    {
      visited := {};
      if organization == "" || limit < 1 || limit > 100 {
        return Err(Invalid), visited;
      }
      ghost var start := Circumstances(outbox, policy, now, worlds);
      var result;
      result, visited := VisitCandidates(organization, limit, policy, actor, now, worlds);
      start.TallyAddsUp(visited);
      SubsetSize(visited, Candidates(start.outbox, organization));
      return Ok(result), visited;
    }
  }

  lemma MoveOver(all: set<string>, done: set<string>, id: string)
    requires id in all - done && done <= all
    ensures done + {id} <= all && all - (done + {id}) == all - done - {id} && |done + {id}| == |done| + 1
  {
  }

  lemma {:induction false} SubsetSize(part: set<string>, whole: set<string>)
    requires part <= whole
    ensures |part| <= |whole|
  {
    assert part + (whole - part) == whole;
  }
}
