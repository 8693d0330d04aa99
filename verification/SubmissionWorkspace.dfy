/**
  Submission records: prepared, approved by a person, marked as submitted and tracked to an outcome.
  Every transition returns a new record; the content hash is an uninterpreted function.
 */
module SubmissionWorkspace {
  import opened Validation
  import opened Wrappers

  datatype Kind = InitialReport | Appeal

  datatype Status =
    | Draft | PendingApproval | Approved | Submitted | UnderReview
    | Rejected | AppealEligible | Appealed | Closed | Invalidated

  datatype Record = Record(
    id: string, caseId: string, organization: string, kind: Kind, content: string, createdBy: string,
    status: Status, sha: Option<string>, approvedAt: Option<int>, approvedBy: Option<string>, submittedAt: Option<int>,
    externalReference: Option<string>, invalidatedAt: Option<int>, invalidationReason: Option<string>)

  datatype Error = Forbidden | Invalid

  type Hash = string -> string

  // A stored hash that is absent or empty.
  predicate Unhashed(r: Record) {
    r.sha.None? || r.sha.value == ""
  }

  function Create(id: string, caseId: string, organization: string, kind: Kind, content: string,
                  user: string): Result<Record, Error> {
    if id == "" || caseId == "" || organization == "" || user == "" || Blank(content) then Err(Invalid)
    else Ok(Record(id, caseId, organization, kind, content, user, Draft, None, None, None, None, None, None, None))
  }

  function PrepareSubmission(hash: Hash, r: Record): Result<Record, Error> {
    if r.status !in {Draft, Invalidated} then Err(Invalid)
    else Ok(r.(status := Draft, sha := Some(hash(r.content)), approvedAt := None, approvedBy := None,
               submittedAt := None,
               externalReference := None, invalidatedAt := None, invalidationReason := None))
  }

  function RequestApproval(r: Record): Result<Record, Error> {
    if r.status != Draft || Unhashed(r) then Err(Invalid)
    else if r.kind == Appeal && Blank(r.content) then Err(Invalid)
    else Ok(r.(status := PendingApproval))
  }

  function ApproveSubmission(hash: Hash, r: Record, user: string, role: string, now: int): Result<Record, Error> {
    if !MayApprove(role) then Err(Forbidden)
    else if r.status != PendingApproval || Unhashed(r) then Err(Invalid)
    else if r.sha != Some(hash(r.content)) then Err(Invalid)
    else Ok(r.(status := Approved, approvedAt := Some(now), approvedBy := Some(user)))
  }

  function InvalidateIfModified(hash: Hash, r: Record, modified: string, now: int, reason: string): Record {
    if Unhashed(r) then r
    else if r.sha == Some(hash(modified)) then r
    else if r.status in {PendingApproval, Approved}
      then r.(content := modified, status := Invalidated, invalidatedAt := Some(now),
              invalidationReason := Some(reason),
              approvedAt := None, approvedBy := None)
    else r.(content := modified)
  }

  function MarkSubmitted(hash: Hash, r: Record, now: int, reference: string): Result<Record, Error> {
    if r.status != Approved then Err(Invalid)
    else if Blank(reference) then Err(Invalid)
    else if r.sha != Some(hash(r.content)) then Err(Invalid)
    else Ok(r.(status := Submitted, submittedAt := Some(now), externalReference := Some(reference)))
  }

  function UpdateStatus(r: Record, status: Status): Result<Record, Error> {
    if status !in {Submitted, UnderReview, Rejected, AppealEligible, Appealed, Closed} then Err(Invalid)
    else if status == Submitted && r.status != Approved then Err(Invalid)
    else if status != Submitted && r.status !in {Submitted, UnderReview, AppealEligible, Appealed} then Err(Invalid)
    else Ok(r.(status := status))
  }

  /// Runs of operations and content edits on one record

  datatype Step =
    | Prepare
    | Request
    | Approve(user: string, role: string, now: int)
    | Edit(modified: string, now: int, reason: string)
    | Mark(now: int, reference: string)
    | Track(status: Status)

  function Outcome(hash: Hash, r: Record, step: Step): Result<Record, Error> {
    match step
    case Prepare => PrepareSubmission(hash, r)
    case Request => RequestApproval(r)
    case Approve(user, role, now) => ApproveSubmission(hash, r, user, role, now)
    case Edit(modified, now, reason) => Ok(InvalidateIfModified(hash, r, modified, now, reason))
    case Mark(now, reference) => MarkSubmitted(hash, r, now, reference)
    case Track(status) => UpdateStatus(r, status)
  }

  // A refused operation leaves the record alone.
  function Next(hash: Hash, r: Record, step: Step): Record {
    var outcome := Outcome(hash, r, step);
    if outcome.Ok? then outcome.value else r
  }

  function Run(hash: Hash, r: Record, steps: seq<Step>): Record
    decreases |steps|
  {
    if steps == [] then r else Run(hash, Next(hash, r, steps[0]), steps[1..])
  }

  // Statuses a record can only have after an approval.
  predicate PastApproval(status: Status) {
    status !in {Draft, PendingApproval, Approved, Invalidated}
  }

  ghost predicate Inv(hash: Hash, r: Record) {
    && (r.status == Approved ==> r.sha == Some(hash(r.content)) && r.approvedBy.Some?)
    && (PastApproval(r.status) ==> r.approvedBy.Some?)
    && (r.status in {Draft, PendingApproval, Invalidated} ==> r.approvedBy.None?)
  }

  // The content of an approved record always hashes to what was approved, and exactly the records that
  // are approved or were tracked beyond approval name an approver.
  lemma {:induction false} ApprovedContentIsIntact(hash: Hash, r: Record, steps: seq<Step>)
    requires Inv(hash, r)
    ensures Inv(hash, Run(hash, r, steps))
    decreases |steps|
  {
    if steps != [] {
      ApprovedContentIsIntact(hash, Next(hash, r, steps[0]), steps[1..]);
    }
  }

  // What a record says about whom and what it is for.
  predicate SameIdentity(a: Record, b: Record) {
    && a.id == b.id && a.caseId == b.caseId && a.organization == b.organization
    && a.kind == b.kind && a.createdBy == b.createdBy
  }

  lemma {:induction false} RunKeepsIdentity(hash: Hash, r: Record, steps: seq<Step>)
    ensures SameIdentity(Run(hash, r, steps), r)
    decreases |steps|
  {
    if steps != [] {
      RunKeepsIdentity(hash, Next(hash, r, steps[0]), steps[1..]);
    }
  }

  // From creation on, whatever the operations and edits, the record keeps what it was created for, and its
  // approved content is intact.
  lemma {:induction false} CreatedRecordsStayIntact(hash: Hash, r: Record, id: string, caseId: string,
                                                    organization: string, kind: Kind, content: string, user: string,
                                                    steps: seq<Step>)
    requires Create(id, caseId, organization, kind, content, user) == Ok(r)
    ensures Inv(hash, Run(hash, r, steps))
    ensures var r' := Run(hash, r, steps);
      r'.id == id && r'.caseId == caseId && r'.organization == organization && r'.kind == kind && r'.createdBy == user
  {
    ApprovedContentIsIntact(hash, r, steps);
    RunKeepsIdentity(hash, r, steps);
  }

  // REJECTED and CLOSED are never left, whatever is tried.
  lemma {:induction false} OutcomesAreFinal(hash: Hash, r: Record, steps: seq<Step>)
    requires r.status in {Rejected, Closed}
    ensures Run(hash, r, steps).status == r.status
    decreases |steps|
  {
    if steps != [] {
      OutcomesAreFinal(hash, Next(hash, r, steps[0]), steps[1..]);
    }
  }

  // Once past approval, a record never returns to an editable or approvable status.
  lemma {:induction false} NoWayBack(hash: Hash, r: Record, steps: seq<Step>)
    requires PastApproval(r.status)
    ensures PastApproval(Run(hash, r, steps).status)
    decreases |steps|
  {
    if steps != [] {
      NoWayBack(hash, Next(hash, r, steps[0]), steps[1..]);
    }
  }

  // No approval succeeds in the run and the content never changes.
  predicate Undisturbed(hash: Hash, r: Record, steps: seq<Step>)
    decreases |steps|
  {
    steps == [] || (
      && !(steps[0].Approve? && Outcome(hash, r, steps[0]).Ok?)
      && Next(hash, r, steps[0]).content == r.content
      && Undisturbed(hash, Next(hash, r, steps[0]), steps[1..]))
  }

  // The run splits at its last successful approval, of the content that stands approved at its end and
  // does not change in between.
  predicate ApprovedWithin(hash: Hash, r: Record, steps: seq<Step>, before: seq<Step>, approval: Step,
                           after: seq<Step>) {
    && steps == before + [approval] + after
    && approval.Approve? && MayApprove(approval.role)
    && Outcome(hash, Run(hash, r, before), approval).Ok?
    && Undisturbed(hash, Next(hash, Run(hash, r, before), approval), after)
    && Run(hash, r, before).content == Run(hash, r, steps).content
    && Run(hash, r, steps).approvedBy == Some(approval.user)
  }

  lemma {:induction false} FindApproval(hash: Hash, r: Record, steps: seq<Step>)
    returns (found: bool, before: seq<Step>, approval: Step, after: seq<Step>)
    requires Run(hash, r, steps).status == Approved
    ensures found ==> ApprovedWithin(hash, r, steps, before, approval, after)
    ensures !found ==>
              && r.status == Approved && r.content == Run(hash, r, steps).content
              && r.approvedBy == Run(hash, r, steps).approvedBy
    ensures !found ==> Undisturbed(hash, r, steps)
    decreases |steps|
  {
    found, before, approval, after := false, [], Prepare, [];
    if steps != [] {
      found, before, approval, after := FindApproval(hash, Next(hash, r, steps[0]), steps[1..]);
      if found {
        assert ([steps[0]] + before)[1..] == before;
        assert steps == [steps[0]] + before + [approval] + after;
        before := [steps[0]] + before;
      } else if steps[0].Approve? && Outcome(hash, r, steps[0]).Ok? {
        found, before, approval, after := true, [], steps[0], steps[1..];
        assert steps == [] + [steps[0]] + steps[1..];
      }
    }
  }

  // Marking as submitted, and tracking as submitted, succeed only on the very content last approved, by
  // a person who may approve.
  lemma SubmittedContentWasApproved(hash: Hash, r: Record, steps: seq<Step>, step: Step)
    returns (before: seq<Step>, approval: Step, after: seq<Step>)
    requires r.status == Draft
    requires step.Mark? || step == Track(Submitted)
    requires Outcome(hash, Run(hash, r, steps), step).Ok?
    ensures ApprovedWithin(hash, r, steps, before, approval, after)
    ensures Outcome(hash, Run(hash, r, steps), step).value.content == Run(hash, r, before).content
  {
    var found;
    found, before, approval, after := FindApproval(hash, r, steps);
  }

  predicate HashMatches(hash: Hash, r: Record) {
    r.sha == Some(hash(r.content))
  }

  // After submission the content is no longer guarded. The stored hash stays, and the content still
  // matches it exactly when every later edit hashed like it: one that does not is kept for good, because
  // an edit that goes back to the hashed content is taken for no change at all.
  lemma {:induction false} SubmittedContentDriftsIff(hash: Hash, r: Record, steps: seq<Step>)
    requires PastApproval(r.status) && !Unhashed(r)
    ensures Run(hash, r, steps).sha == r.sha
    ensures HashMatches(hash, Run(hash, r, steps))
       <==> HashMatches(hash, r)
            && forall i | 0 <= i < |steps| :: steps[i].Edit? ==> Some(hash(steps[i].modified)) == r.sha
    decreases |steps|
  {
    if steps != [] {
      var r' := Next(hash, r, steps[0]);
      SubmittedContentDriftsIff(hash, r', steps[1..]);
      assert HashMatches(hash, r') <==>
          HashMatches(hash, r) && (steps[0].Edit? ==> Some(hash(steps[0].modified)) == r.sha);
    }
  }

  /// When each operation succeeds, and what it leaves behind

  // The statuses an operation leads from and to.
  predicate Leads(step: Step, from: Status, target: Status) {
    match step
    case Prepare => (from == Draft || from == Invalidated) && target == Draft
    case Request => from == Draft && target == PendingApproval
    case Approve(_, _, _) => from == PendingApproval && target == Approved
    case Edit(_, _, _) =>
      target == from || ((from == PendingApproval || from == Approved) && target == Invalidated)
    case Mark(_, _) => from == Approved && target == Submitted
    case Track(status) =>
      && target == status
      && (if from == Approved then status == Submitted
          else from in {Submitted, UnderReview, AppealEligible, Appealed}
               && status in {UnderReview, Rejected, AppealEligible, Appealed, Closed})
  }

  // In every reachable record, an operation succeeds exactly from the status it leads from and with its own
  // arguments in order: marking never fails on the integrity of the content.
  lemma SucceedsIff(hash: Hash, r: Record, step: Step)
    requires Inv(hash, r)
    ensures Outcome(hash, r, step).Ok? <==>
              && (exists target :: Leads(step, r.status, target))
              && match step
                 case Request => r.sha.Some? && r.sha.value != "" && (r.kind == Appeal ==> SaysSomething(r.content))
                 case Approve(_, role, _) =>
                   role in {"OWNER", "ADMIN", "ANALYST"} && HashMatches(hash, r) && hash(r.content) != ""
                 case Mark(_, reference) => SaysSomething(reference)
                 case _ => true
    ensures Outcome(hash, r, step).Ok? ==> Leads(step, r.status, Outcome(hash, r, step).value.status)
  {
    SaysSomethingIffNotBlank(r.content);
    if step.Mark? {
      SaysSomethingIffNotBlank(step.reference);
    }
    if Outcome(hash, r, step).Ok? {
      assert Leads(step, r.status, Outcome(hash, r, step).value.status);
    }
  }

  // A record can be created for every case by a person with something to say, and is an unprepared draft.
  lemma CreateSucceedsIff(id: string, caseId: string, organization: string, kind: Kind, content: string, user: string)
    ensures Create(id, caseId, organization, kind, content, user).Ok? <==>
              && 0 < |id| && 0 < |caseId| && 0 < |organization| && 0 < |user| && SaysSomething(content)
    ensures Create(id, caseId, organization, kind, content, user).Ok? ==>
              var r := Create(id, caseId, organization, kind, content, user).value;
              && r.content == content && r.status == Draft && r.sha.None? && r.approvedBy.None? && r.approvedAt.None?
              && r.submittedAt.None? && r.externalReference.None? && r.invalidatedAt.None?
  {
    SaysSomethingIffNotBlank(content);
  }

  // The integrity gates, whatever record they are given: content that does not match its stored hash is
  // neither approved nor marked as submitted.
  lemma IntegrityGates(hash: Hash, r: Record, user: string, role: string, now: int, reference: string)
    ensures ApproveSubmission(hash, r, user, role, now).Ok? <==>
              && role in {"OWNER", "ADMIN", "ANALYST"} && r.status == PendingApproval
              && HashMatches(hash, r) && 0 < |hash(r.content)|
    ensures MarkSubmitted(hash, r, now, reference).Ok? <==>
              r.status == Approved && HashMatches(hash, r) && SaysSomething(reference)
  {
    SaysSomethingIffNotBlank(reference);
  }

  // What a successful operation writes, and nothing else.
  lemma WritesExactly(hash: Hash, r: Record, step: Step)
    requires Outcome(hash, r, step).Ok?
    ensures var r' := Outcome(hash, r, step).value;
      && SameIdentity(r', r)
      && (!step.Edit? ==> r'.content == r.content)
      && (!step.Prepare? ==> r'.sha == r.sha)
      && match step
         case Prepare =>
           && HashMatches(hash, r') && r'.approvedBy.None? && r'.approvedAt.None? && r'.submittedAt.None?
           && r'.externalReference.None? && r'.invalidatedAt.None? && r'.invalidationReason.None?
         case Request => r'.(status := r.status) == r
         case Approve(user, _, now) =>
           && r'.approvedBy == Some(user) && r'.approvedAt == Some(now)
           && r'.(status := r.status, approvedBy := r.approvedBy, approvedAt := r.approvedAt) == r
         case Mark(now, reference) =>
           && r'.submittedAt == Some(now) && r'.externalReference == Some(reference)
           && r'.(status := r.status, submittedAt := r.submittedAt, externalReference := r.externalReference) == r
         case Track(status) => r'.(status := r.status) == r
         case Edit(modified, now, reason) =>
           if r.sha.None? || r.sha.value == "" || r.sha.value == hash(modified) then r' == r
           else
             && r'.content == modified
             && (r.status in {PendingApproval, Approved} ==>
                   && r'.status == Invalidated && r'.invalidatedAt == Some(now)
                   && r'.invalidationReason == Some(reason) && r'.approvedBy.None? && r'.approvedAt.None?)
             && (r.status !in {PendingApproval, Approved} ==> r' == r.(content := modified))
  {
  }

  lemma {:induction false} RunOfFour(hash: Hash, r: Record, a: Step, b: Step, c: Step, d: Step)
    ensures Run(hash, r, [a, b, c, d]) == Next(hash, Next(hash, Next(hash, Next(hash, r, a), b), c), d)
  {
    assert [a, b, c, d][1..] == [b, c, d] && [b, c, d][1..] == [c, d] && [c, d][1..] == [d] && [d][1..] == [];
    var r' := Next(hash, Next(hash, r, a), b);
    assert Run(hash, r', [c, d]) == Run(hash, Next(hash, r', c), [d]);
  }

  // A created record can be prepared, approved and submitted as it is.
  lemma {:induction false} CreatedRecordsCanBeSubmitted(hash: Hash, r: Record, id: string, caseId: string,
                                                        organization: string, kind: Kind, content: string,
                                                        user: string, approver: string, at: int, reference: string)
    requires id != "" && caseId != "" && organization != "" && user != "" && SaysSomething(content)
    requires SaysSomething(reference) && hash(content) != ""
    ensures Create(id, caseId, organization, kind, content, user).Ok?
    ensures Create(id, caseId, organization, kind, content, user) == Ok(r) ==>
              var end := Run(hash, r, [Prepare, Request, Approve(approver, "ANALYST", at), Mark(at, reference)]);
              && end.status == Submitted && end.content == content && end.sha == Some(hash(content))
              && end.approvedBy == Some(approver) && end.externalReference == Some(reference)
  {
    RunOfFour(hash, r, Prepare, Request, Approve(approver, "ANALYST", at), Mark(at, reference));
  }
}
