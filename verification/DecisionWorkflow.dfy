/**
  Decision, dossier freeze, human approval and submission preparation over the shared case store.
  The hash of a dossier is an uninterpreted function, and every new identifier is a parameter.
 */
module DecisionWorkflow {
  import opened Validation
  import opened Wrappers

  datatype Key = Key(organization: string, id: string)

  datatype DecisionStatus = Draft | Frozen | PendingApproval | Approved | Invalidated

  datatype CaseStatus = Analyzing | Analyzed | HumanReview | ReadyToSubmit

  datatype Decision = Decision(
    id: string, caseId: string, organization: string, kind: string, rationale: string, createdBy: string,
    status: DecisionStatus, sha: Option<string>, approvedAt: Option<int>, approvedBy: Option<string>,
    invalidatedAt: Option<int>, invalidationReason: Option<string>)

  datatype Case = Case(
    caseId: string, organization: string, reviewId: string, status: CaseStatus,
    decisionId: Option<string>, sha: Option<string>)

  // What is frozen: the case, the review with the claims and signals read from it, and the decision.
  datatype Dossier = Dossier(theCase: Case, review: string, decision: Decision)

  datatype Snapshot = Snapshot(caseId: string, organization: string, payload: Dossier, sha: string, frozenAt: int,
                               frozenBy: string)

  datatype Approval = Approval(
    id: string, decisionId: string, caseId: string, organization: string, actor: string, role: string, at: int,
    sha: string)

  datatype Submission = Submission(id: string, caseId: string, organization: string)

  datatype Error = NotFound | Invalid | Forbidden

  type Hash = Dossier -> string

  /// Transitions of one decision

  function FreezeDossier(hash: Hash, theCase: Case, payload: Dossier, now: int, user: string): Result<Snapshot, Error> {
    if theCase.caseId == "" || theCase.organization == "" || user == "" then Err(Invalid)
    else Ok(Snapshot(theCase.caseId, theCase.organization, payload, hash(payload), now, user))
  }

  function AttachSnapshot(decision: Decision, snapshot: Snapshot): Result<Decision, Error> {
    if decision.caseId != snapshot.caseId || decision.organization != snapshot.organization then Err(Invalid)
    else Ok(decision.(status := Frozen, sha := Some(snapshot.sha)))
  }

  function RequestApproval(decision: Decision): Result<Decision, Error> {
    if decision.status != Frozen || decision.sha.None? || decision.sha.value == "" then Err(Invalid)
    else Ok(decision.(status := PendingApproval))
  }

  function ApproveDecision(hash: Hash, decision: Decision, snapshot: Snapshot, user: string, role: string,
                           now: int): Result<Decision, Error> {
    if !MayApprove(role) then Err(Forbidden)
    else if decision.status != PendingApproval then Err(Invalid)
    else if decision.sha != Some(snapshot.sha) || snapshot.sha != hash(snapshot.payload) then Err(Invalid)
    else if decision.organization != snapshot.organization then Err(Invalid)
    else Ok(decision.(status := Approved, approvedAt := Some(now), approvedBy := Some(user)))
  }

  function InvalidateIfModified(hash: Hash, decision: Decision, snapshot: Snapshot, current: Dossier, now: int,
                                reason: string): Decision {
    if snapshot.sha == hash(current) then decision
    else if decision.status in {Approved, PendingApproval, Frozen}
      then decision.(status := Invalidated, invalidatedAt := Some(now), invalidationReason := Some(reason))
    else decision
  }

  // With an injective hash, a frozen, pending or approved decision is invalidated exactly when its dossier
  // changed, and an invalidated one does not pass the approval gate again.
  lemma ModificationInvalidatesIff(hash: Hash, decision: Decision, snapshot: Snapshot, current: Dossier, now: int,
                                   reason: string)
    requires forall a, b :: hash(a) == hash(b) ==> a == b
    requires snapshot.sha == hash(snapshot.payload)
    requires decision.status in {Approved, PendingApproval, Frozen}
    ensures InvalidateIfModified(hash, decision, snapshot, current, now, reason).status == Invalidated <==>
              current != snapshot.payload
    ensures current != snapshot.payload ==> forall user, role, at ::
              var modified := InvalidateIfModified(hash, decision, snapshot, current, now, reason);
              ApproveDecision(hash, modified, snapshot, user, role, at).Err?
  {
    assert hash(current) == hash(snapshot.payload) ==> current == snapshot.payload;
  }

  // The gates of the transitions, whatever record and snapshot they are given: a tampered or foreign dossier
  // is never approved, and nothing but the status and the approval changes.
  lemma ApprovalGate(hash: Hash, d: Decision, snapshot: Snapshot, user: string, role: string, now: int)
    ensures AttachSnapshot(d, snapshot).Ok? <==> d.caseId == snapshot.caseId && d.organization == snapshot.organization
    ensures RequestApproval(d).Ok? <==> d.status == Frozen && exists sha :: d.sha == Some(sha) && |sha| > 0
    ensures var outcome := ApproveDecision(hash, d, snapshot, user, role, now);
      && (outcome.Ok? <==>
            && role in {"OWNER", "ADMIN", "ANALYST"} && d.status == PendingApproval
            && d.organization == snapshot.organization && d.sha == Some(hash(snapshot.payload))
            && snapshot.sha == hash(snapshot.payload))
      && (outcome == Err(Forbidden) <==> role !in {"OWNER", "ADMIN", "ANALYST"})
      && (outcome.Ok? ==>
            outcome.value.(status := d.status, approvedAt := d.approvedAt, approvedBy := d.approvedBy) == d
            && outcome.value.status == Approved && outcome.value.approvedBy == Some(user)
            && outcome.value.approvedAt == Some(now))
  {
    if d.sha.Some? {
      assert d.sha == Some(d.sha.value);
    }
  }

  // A decision is invalidated, with instant and reason, exactly when it has left the draft, is not invalidated
  // yet and the dossier hashes differently; otherwise it stays as it is.
  lemma InvalidationIff(hash: Hash, d: Decision, snapshot: Snapshot, current: Dossier, now: int, reason: string)
    ensures InvalidateIfModified(hash, d, snapshot, current, now, reason)
         == if d.status in {Frozen, PendingApproval, Approved} && hash(current) != snapshot.sha
            then d.(status := Invalidated, invalidatedAt := Some(now), invalidationReason := Some(reason))
            else d
  {
  }

  /// The store

  datatype Store = Store(
    cases: map<Key, Case>, reviews: map<Key, string>, decisions: map<Key, Decision>,
    snapshots: map<Key, Snapshot>, approvals: seq<Approval>, submissions: map<Key, Submission>)

  datatype Step =
    | OpenCase(key: Key, reviewId: string, review: string)
    | Create(key: Key, user: string, kind: string, rationale: string, newId: string)
    | Freeze(key: Key, user: string, now: int)
    | Approve(key: Key, user: string, role: string, newId: string, now: int)
    | Prepare(key: Key, user: string, newId: string)

  // Identifiers are fresh random ones.
  predicate FreshId(s: Store, step: Step) {
    match step
    case OpenCase(key, _, _) => key !in s.cases
    case Create(key, _, _, _, newId) => Key(key.organization, newId) !in s.decisions
    case Prepare(key, _, newId) => Key(key.organization, newId) !in s.submissions
    case _ => true
  }

  // The key of the decision a case currently stands on.
  function CurrentKey(s: Store, key: Key): Key
    requires key in s.cases && s.cases[key].decisionId.Some?
  {
    Key(key.organization, s.cases[key].decisionId.value)
  }

  predicate HasDecision(s: Store, key: Key) {
    key in s.cases && s.cases[key].decisionId.Some? && CurrentKey(s, key) in s.decisions
  }

  function Current(s: Store, key: Key): Decision
    requires HasDecision(s, key)
  {
    s.decisions[CurrentKey(s, key)]
  }

  function CreateStep(s: Store, key: Key, user: string, kind: string, rationale: string,
                      newId: string): Result<Store, Error> {
    if key !in s.cases then Err(NotFound)
    else if Blank(rationale) then Err(Invalid)
    else
      var decision := Decision(newId, s.cases[key].caseId, s.cases[key].organization, kind, rationale, user,
                               Draft, None, None, None, None, None);
      Ok(s.(decisions := s.decisions[Key(key.organization, newId) := decision],
            cases := s.cases[key := s.cases[key].(decisionId := Some(newId), status := Analyzed)]))
  }

  function FreezeStep(hash: Hash, s: Store, key: Key, user: string, now: int): Result<Store, Error> {
    if !HasDecision(s, key) || Key(key.organization, s.cases[key].reviewId) !in s.reviews then Err(NotFound)
    else
      var payload := Dossier(s.cases[key], s.reviews[Key(key.organization, s.cases[key].reviewId)], Current(s, key));
      var snapshot := FreezeDossier(hash, s.cases[key], payload, now, user);
      if snapshot.Err? then Err(snapshot.error)
      else
        var attached := AttachSnapshot(Current(s, key), snapshot.value);
        if attached.Err? then Err(attached.error)
        else
          var requested := RequestApproval(attached.value);
          if requested.Err? then Err(requested.error)
          else Ok(s.(snapshots := s.snapshots[key := snapshot.value],
                     decisions := s.decisions[CurrentKey(s, key) := requested.value],
                     cases := s.cases[key := s.cases[key].(sha := Some(snapshot.value.sha), status := HumanReview)]))
  }

  function ApproveStep(hash: Hash, s: Store, key: Key, user: string, role: string, newId: string,
                       now: int): Result<Store, Error> {
    if !HasDecision(s, key) || key !in s.snapshots then Err(NotFound)
    else
      var approved := ApproveDecision(hash, Current(s, key), s.snapshots[key], user, role, now);
      if approved.Err? then Err(approved.error)
      else
        var d := Current(s, key);
        var event := Approval(newId, d.id, d.caseId, d.organization, user, role, now, s.snapshots[key].sha);
        Ok(s.(decisions := s.decisions[CurrentKey(s, key) := approved.value],
              cases := s.cases[key := s.cases[key].(status := ReadyToSubmit)],
              approvals := s.approvals + [event]))
  }

  function PrepareStep(s: Store, key: Key, newId: string): Result<Store, Error> {
    if key !in s.cases then Err(NotFound)
    else if s.cases[key].decisionId.None? then Err(Invalid)
    else if CurrentKey(s, key) !in s.decisions then Err(NotFound)
    else if Current(s, key).status != Approved then Err(Invalid)
    else
      var row := Submission(newId, s.cases[key].caseId, s.cases[key].organization);
      Ok(s.(submissions := s.submissions[Key(key.organization, newId) := row]))
  }

  function Outcome(hash: Hash, s: Store, step: Step): Result<Store, Error> {
    match step
    case OpenCase(key, reviewId, review) =>
      Ok(s.(cases := s.cases[key := Case(key.id, key.organization, reviewId, Analyzing, None, None)],
            reviews := s.reviews[Key(key.organization, reviewId) := review]))
    case Create(key, user, kind, rationale, newId) => CreateStep(s, key, user, kind, rationale, newId)
    case Freeze(key, user, now) => FreezeStep(hash, s, key, user, now)
    case Approve(key, user, role, newId, now) => ApproveStep(hash, s, key, user, role, newId, now)
    case Prepare(key, _, newId) => PrepareStep(s, key, newId)
  }

  // A refused operation leaves the store alone.
  function Next(hash: Hash, s: Store, step: Step): Store {
    var outcome := Outcome(hash, s, step);
    if outcome.Ok? then outcome.value else s
  }

  /// What every run keeps

  // The status of a case's current decision, if it has one, as the case's own status tells it.
  function DecisionStatusOf(status: CaseStatus): DecisionStatus {
    match status
    case Analyzing => Draft
    case Analyzed => Draft
    case HumanReview => PendingApproval
    case ReadyToSubmit => Approved
  }

  // The case mirrors its current decision, and a decision past its freeze rests on the case's snapshot,
  // which is the hash of a dossier about that very decision.
  ghost predicate CaseOk(hash: Hash, s: Store, key: Key)
    requires key in s.cases
  {
    var c := s.cases[key];
    && c.caseId == key.id && c.organization == key.organization
    && (c.status == Analyzing <==> c.decisionId.None?)
    && (c.decisionId.Some? ==>
          && HasDecision(s, key)
          && var d := Current(s, key);
             && d.id == c.decisionId.value && d.caseId == c.caseId && d.organization == c.organization
             && d.status == DecisionStatusOf(c.status)
             && (d.status != Draft ==> key in s.snapshots && RestsOn(hash, d, s.snapshots[key]) && c.sha == d.sha))
  }

  predicate RestsOn(hash: Hash, d: Decision, snapshot: Snapshot) {
    && d.sha == Some(snapshot.sha) && snapshot.sha == hash(snapshot.payload)
    && snapshot.caseId == d.caseId && snapshot.organization == d.organization
    && snapshot.payload.decision.id == d.id
    && snapshot.payload.decision.kind == d.kind && snapshot.payload.decision.rationale == d.rationale
  }

  predicate Approves(a: Approval, d: Decision) {
    && MayApprove(a.role)
    && a.decisionId == d.id && a.caseId == d.caseId && a.organization == d.organization
    && d.sha == Some(a.sha) && d.approvedBy == Some(a.actor) && d.approvedAt == Some(a.at)
  }

  ghost predicate ApprovalOnRecord(s: Store, d: Decision) {
    exists i | 0 <= i < |s.approvals| :: Approves(s.approvals[i], d)
  }

  ghost predicate Inv(hash: Hash, s: Store) {
    && (forall key | key in s.cases :: CaseOk(hash, s, key))
    && (forall k | k in s.decisions && s.decisions[k].status == Approved :: ApprovalOnRecord(s, s.decisions[k]))
  }

  lemma StepKeepsOwnCase(hash: Hash, s: Store, step: Step)
    requires Inv(hash, s) && FreshId(s, step) && Outcome(hash, s, step).Ok?
    ensures step.key in Next(hash, s, step).cases && CaseOk(hash, Next(hash, s, step), step.key)
  {
    if step.key in s.cases {
      assert CaseOk(hash, s, step.key);
    }
  }

  // The case, its current decision and its snapshot are the same in both stores.
  predicate SameStanding(s: Store, s': Store, key: Key) {
    && key in s.cases && key in s'.cases && s.cases[key] == s'.cases[key]
    && (HasDecision(s, key) ==> HasDecision(s', key) && Current(s', key) == Current(s, key))
    && (key in s.snapshots ==> key in s'.snapshots && s'.snapshots[key] == s.snapshots[key])
  }

  lemma StepLeavesOtherCase(hash: Hash, s: Store, step: Step, key: Key)
    requires Inv(hash, s) && FreshId(s, step) && Outcome(hash, s, step).Ok?
    requires key in s.cases && key != step.key
    ensures SameStanding(s, Next(hash, s, step), key)
  {
    assert CaseOk(hash, s, key);
    if HasDecision(s, step.key) && HasDecision(s, key) {
      DecisionsAreNotShared(hash, s, step.key, key);
    }
  }

  // Two cases never stand on one decision.
  lemma DecisionsAreNotShared(hash: Hash, s: Store, a: Key, b: Key)
    requires Inv(hash, s) && a != b && HasDecision(s, a) && HasDecision(s, b)
    ensures CurrentKey(s, a) != CurrentKey(s, b)
  {
    assert CaseOk(hash, s, a) && CaseOk(hash, s, b);
  }

  lemma SameStandingKeepsCase(hash: Hash, s: Store, s': Store, key: Key)
    requires SameStanding(s, s', key) && CaseOk(hash, s, key)
    ensures CaseOk(hash, s', key)
  {
  }

  lemma StepKeepsOtherCase(hash: Hash, s: Store, step: Step, key: Key)
    requires Inv(hash, s) && FreshId(s, step) && Outcome(hash, s, step).Ok?
    requires key in s.cases && key != step.key
    ensures CaseOk(hash, Next(hash, s, step), key)
  {
    StepLeavesOtherCase(hash, s, step, key);
    assert CaseOk(hash, s, key);
    SameStandingKeepsCase(hash, s, Next(hash, s, step), key);
  }

  lemma StepKeepsApprovals(hash: Hash, s: Store, step: Step, k: Key)
    requires Inv(hash, s) && FreshId(s, step) && Outcome(hash, s, step).Ok?
    requires k in Next(hash, s, step).decisions && Next(hash, s, step).decisions[k].status == Approved
    ensures ApprovalOnRecord(Next(hash, s, step), Next(hash, s, step).decisions[k])
  {
    var s' := Next(hash, s, step);
    if step.Approve? && k == CurrentKey(s, step.key) {
      assert Approves(s'.approvals[|s.approvals|], s'.decisions[k]);
    } else {
      assert k in s.decisions && s.decisions[k] == s'.decisions[k];
      var i :| 0 <= i < |s.approvals| && Approves(s.approvals[i], s.decisions[k]);
      assert s'.approvals[i] == s.approvals[i];
    }
  }

  lemma StepKeepsInv(hash: Hash, s: Store, step: Step)
    requires Inv(hash, s) && FreshId(s, step)
    ensures Inv(hash, Next(hash, s, step))
  {
    if Outcome(hash, s, step).Ok? {
      var s' := Next(hash, s, step);
      forall key | key in s'.cases
        ensures CaseOk(hash, s', key)
      {
        if key == step.key {
          StepKeepsOwnCase(hash, s, step);
        } else {
          StepKeepsOtherCase(hash, s, step, key);
        }
      }
      forall k | k in s'.decisions && s'.decisions[k].status == Approved
        ensures ApprovalOnRecord(s', s'.decisions[k])
      {
        StepKeepsApprovals(hash, s, step, k);
      }
    }
  }

  /// Runs

  function EmptyStore(): Store {
    Store(map[], map[], map[], map[], [], map[])
  }

  predicate Legal(hash: Hash, s: Store, steps: seq<Step>)
    decreases |steps|
  {
    steps == [] || (FreshId(s, steps[0]) && Legal(hash, Next(hash, s, steps[0]), steps[1..]))
  }

  function Run(hash: Hash, s: Store, steps: seq<Step>): Store
    decreases |steps|
  {
    if steps == [] then s else Run(hash, Next(hash, s, steps[0]), steps[1..])
  }

  lemma {:induction false} EveryRunKeepsInv(hash: Hash, s: Store, steps: seq<Step>)
    requires Inv(hash, s) && Legal(hash, s, steps)
    ensures Inv(hash, Run(hash, s, steps))
    decreases |steps|
  {
    if steps != [] {
      StepKeepsInv(hash, s, steps[0]);
      EveryRunKeepsInv(hash, Next(hash, s, steps[0]), steps[1..]);
    }
  }

  predicate StandsApproved(s: Store, key: Key) {
    HasDecision(s, key) && Current(s, key).status == Approved
  }

  // In every reachable store: a case's status tells its current decision's, and an approved decision
  // carries the hash of a frozen dossier about itself and is approved on record, by a role that may,
  // with that very hash.
  lemma {:induction false} ApprovedDecisionsAreGrounded(hash: Hash, steps: seq<Step>, key: Key)
    requires Legal(hash, EmptyStore(), steps) && key in Run(hash, EmptyStore(), steps).cases
    ensures var s := Run(hash, EmptyStore(), steps);
      && (s.cases[key].status == Analyzing <==> !HasDecision(s, key))
      && (s.cases[key].status == Analyzed <==> HasDecision(s, key) && Current(s, key).status == Draft)
      && (s.cases[key].status == HumanReview <==> HasDecision(s, key) && Current(s, key).status == PendingApproval)
      && (s.cases[key].status == ReadyToSubmit <==> StandsApproved(s, key))
      && (StandsApproved(s, key) ==>
            && key in s.snapshots && RestsOn(hash, Current(s, key), s.snapshots[key])
            && ApprovalOnRecord(s, Current(s, key)))
  {
    EveryRunKeepsInv(hash, EmptyStore(), steps);
    assert CaseOk(hash, Run(hash, EmptyStore(), steps), key);
  }

  // A successful create or freeze of the case, which withdraws any approval it had.
  predicate Supersedes(hash: Hash, s: Store, step: Step, key: Key) {
    (step.Create? || step.Freeze?) && step.key == key && Outcome(hash, s, step).Ok?
  }

  predicate Unsuperseded(hash: Hash, s: Store, steps: seq<Step>, key: Key)
    decreases |steps|
  {
    steps == [] || (!Supersedes(hash, s, steps[0], key) && Unsuperseded(hash, Next(hash, s, steps[0]), steps[1..], key))
  }

  // The step is a successful approval of the case's current decision by a role that may approve.
  predicate Grants(hash: Hash, s: Store, step: Step, key: Key) {
    step.Approve? && step.key == key && MayApprove(step.role) && Outcome(hash, s, step).Ok?
  }

  // One step back from an approved standing: it was granted just now, or it stood already and nothing superseded it.
  lemma ApprovalComesFromGrant(hash: Hash, s: Store, step: Step, key: Key)
    requires Inv(hash, s) && FreshId(s, step) && StandsApproved(Next(hash, s, step), key)
    ensures Grants(hash, s, step, key) || (StandsApproved(s, key) && !Supersedes(hash, s, step, key))
  {
    if Outcome(hash, s, step).Ok? && step.key != key {
      StepLeavesOtherCase(hash, s, step, key);
      assert CaseOk(hash, s, key);
    }
  }

  // An approved standing lasts exactly until a create or freeze of the case succeeds.
  lemma {:induction false} ApprovalStandsIffUnsuperseded(hash: Hash, s: Store, step: Step, key: Key)
    requires Inv(hash, s) && FreshId(s, step) && StandsApproved(s, key)
    ensures StandsApproved(Next(hash, s, step), key) <==> !Supersedes(hash, s, step, key)
    ensures !Supersedes(hash, s, step, key) ==> Current(Next(hash, s, step), key) == Current(s, key)
  {
    assert CaseOk(hash, s, key);
    if Outcome(hash, s, step).Ok? && step.key != key {
      StepLeavesOtherCase(hash, s, step, key);
    }
  }

  lemma {:induction false} ApprovalStandsWhileUnsuperseded(hash: Hash, s: Store, steps: seq<Step>, key: Key)
    requires Inv(hash, s) && Legal(hash, s, steps) && StandsApproved(s, key) && Unsuperseded(hash, s, steps, key)
    ensures StandsApproved(Run(hash, s, steps), key) && Current(Run(hash, s, steps), key) == Current(s, key)
    decreases |steps|
  {
    if steps != [] {
      ApprovalStandsIffUnsuperseded(hash, s, steps[0], key);
      StepKeepsInv(hash, s, steps[0]);
      ApprovalStandsWhileUnsuperseded(hash, Next(hash, s, steps[0]), steps[1..], key);
    }
  }

  // The run splits at a grant that nothing superseded afterwards.
  predicate GrantedWithin(hash: Hash, s: Store, steps: seq<Step>, key: Key, before: seq<Step>, grant: Step,
                          after: seq<Step>) {
    && steps == before + [grant] + after
    && Grants(hash, Run(hash, s, before), grant, key)
    && Unsuperseded(hash, Next(hash, Run(hash, s, before), grant), after, key)
  }

  // The decision that the grant approved is the one that stands at the end of the run.
  predicate GrantStands(hash: Hash, s: Store, steps: seq<Step>, key: Key, before: seq<Step>, grant: Step) {
    var granted := Next(hash, Run(hash, s, before), grant);
    && StandsApproved(granted, key) && StandsApproved(Run(hash, s, steps), key)
    && Current(granted, key) == Current(Run(hash, s, steps), key)
    && (grant.Approve? ==> Current(granted, key).approvedBy == Some(grant.user))
  }

  lemma GrantedLater(hash: Hash, s: Store, steps: seq<Step>, key: Key, before: seq<Step>, grant: Step, after: seq<Step>)
    requires steps != [] && GrantedWithin(hash, Next(hash, s, steps[0]), steps[1..], key, before, grant, after)
    ensures GrantedWithin(hash, s, steps, key, [steps[0]] + before, grant, after)
    ensures GrantStands(hash, s, steps, key, [steps[0]] + before, grant)
       <==> GrantStands(hash, Next(hash, s, steps[0]), steps[1..], key, before, grant)
  {
    assert ([steps[0]] + before)[1..] == before;
    assert steps == [steps[0]] + before + [grant] + after;
  }

  // Where an approved standing comes from: a grant, or nothing when the case stood approved from the start.
  lemma {:induction false} FindGrant(hash: Hash, s: Store, steps: seq<Step>, key: Key)
    returns (found: bool, before: seq<Step>, grant: Step, after: seq<Step>)
    requires steps != []
    requires Inv(hash, s) && Legal(hash, s, steps) && StandsApproved(Run(hash, s, steps), key)
    ensures found ==>
              && GrantedWithin(hash, s, steps, key, before, grant, after)
              && GrantStands(hash, s, steps, key, before, grant)
    ensures !found ==> StandsApproved(s, key) && Unsuperseded(hash, s, steps, key)
    decreases |steps|
  {
    var s' := Next(hash, s, steps[0]);
    StepKeepsInv(hash, s, steps[0]);
    found, before, grant, after := false, [], steps[0], steps[1..];
    if |steps| > 1 {
      found, before, grant, after := FindGrant(hash, s', steps[1..], key);
    } else {
      assert steps[1..] == [] && Run(hash, s', []) == s';
    }
    if found {
      GrantedLater(hash, s, steps, key, before, grant, after);
      before := [steps[0]] + before;
    } else {
      ApprovalComesFromGrant(hash, s, steps[0], key);
      if Grants(hash, s, steps[0], key) {
        found, before, grant, after := true, [], steps[0], steps[1..];
        assert steps == [] + [grant] + after;
        ApprovalStandsWhileUnsuperseded(hash, s', after, key);
      }
    }
  }

  // Every submission is prepared behind an approval of the case's current decision: some earlier step
  // granted it, no create or freeze of that case succeeded since, and the decision it approved is the
  // very one that stands now.
  lemma SubmissionFollowsApproval(hash: Hash, steps: seq<Step>, key: Key, user: string, newId: string)
    returns (before: seq<Step>, grant: Step, after: seq<Step>)
    requires Legal(hash, EmptyStore(), steps)
    requires Outcome(hash, Run(hash, EmptyStore(), steps), Prepare(key, user, newId)).Ok?
    ensures GrantedWithin(hash, EmptyStore(), steps, key, before, grant, after)
    ensures GrantStands(hash, EmptyStore(), steps, key, before, grant)
  {
    var found;
    found, before, grant, after := FindGrant(hash, EmptyStore(), steps, key);
  }

  /// When each operation succeeds, and what it leaves behind

  // A decision can be made about every case, for any reason that says something.
  lemma CreateSucceedsIff(hash: Hash, s: Store, key: Key, user: string, kind: string, rationale: string, newId: string)
    ensures Outcome(hash, s, Create(key, user, kind, rationale, newId)).Ok?
       <==> key in s.cases && SaysSomething(rationale)
  {
    SaysSomethingIffNotBlank(rationale);
  }

  predicate SameText(a: Decision, b: Decision) {
    && a.id == b.id && a.caseId == b.caseId && a.organization == b.organization
    && a.kind == b.kind && a.rationale == b.rationale && a.createdBy == b.createdBy
  }

  lemma StepKeepsText(hash: Hash, s: Store, step: Step, k: Key)
    requires FreshId(s, step) && k in s.decisions
    ensures k in Next(hash, s, step).decisions && SameText(Next(hash, s, step).decisions[k], s.decisions[k])
  {
  }

  // Its words are, for ever, those of its creation.
  lemma {:induction false} RunKeepsText(hash: Hash, s: Store, steps: seq<Step>, k: Key)
    requires Legal(hash, s, steps) && k in s.decisions
    ensures k in Run(hash, s, steps).decisions && SameText(Run(hash, s, steps).decisions[k], s.decisions[k])
    decreases |steps|
  {
    if steps != [] {
      StepKeepsText(hash, s, steps[0], k);
      RunKeepsText(hash, Next(hash, s, steps[0]), steps[1..], k);
    }
  }

  lemma {:induction false} DecisionSaysWhatWasCreated(hash: Hash, s: Store, key: Key, user: string, kind: string,
                                                      rationale: string, newId: string, steps: seq<Step>)
    requires Inv(hash, s) && FreshId(s, Create(key, user, kind, rationale, newId))
    requires Outcome(hash, s, Create(key, user, kind, rationale, newId)).Ok?
    requires Legal(hash, Next(hash, s, Create(key, user, kind, rationale, newId)), steps)
    ensures var created := Next(hash, s, Create(key, user, kind, rationale, newId));
      var k, end := Key(key.organization, newId), Run(hash, created, steps);
      && created.cases[key].decisionId == Some(newId) && created.cases[key].status == Analyzed
      && k in created.decisions && created.decisions[k].status == DecisionStatus.Draft
      && k in end.decisions && end.decisions[k].id == newId && end.decisions[k].caseId == key.id
      && end.decisions[k].kind == kind && end.decisions[k].rationale == rationale && end.decisions[k].createdBy == user
  {
    assert CaseOk(hash, s, key);
    RunKeepsText(hash, Next(hash, s, Create(key, user, kind, rationale, newId)), steps, Key(key.organization, newId));
  }

  // Freezing needs a current decision, the review and a person, and puts the case, the review and the
  // decision of that moment on record, all three.
  lemma FreezeSucceedsIff(hash: Hash, s: Store, key: Key, user: string, now: int)
    requires Inv(hash, s) && forall d :: hash(d) != ""
    ensures var outcome := Outcome(hash, s, Freeze(key, user, now));
      && (outcome.Ok? <==>
            && key in s.cases && s.cases[key].decisionId.Some?
            && Key(key.organization, s.cases[key].reviewId) in s.reviews
            && key.id != "" && key.organization != "" && user != "")
      && (outcome.Ok? ==>
            && key in outcome.value.snapshots
            && var snapshot := outcome.value.snapshots[key];
               && snapshot.payload.theCase == s.cases[key]
               && snapshot.payload.review == s.reviews[Key(key.organization, s.cases[key].reviewId)]
               && snapshot.payload.decision == s.decisions[Key(key.organization, s.cases[key].decisionId.value)]
               && snapshot.sha == hash(snapshot.payload) && snapshot.frozenAt == now && snapshot.frozenBy == user
               && outcome.value.cases[key].sha == Some(snapshot.sha))
  {
    if key in s.cases {
      assert CaseOk(hash, s, key);
    }
  }

  // Approval is open exactly while the case is in human review, to exactly three roles, and names the person
  // on the decision and on the record: between the freeze and the approval nothing can go wrong.
  lemma ApproveSucceedsIff(hash: Hash, s: Store, key: Key, user: string, role: string, newId: string, now: int)
    requires Inv(hash, s)
    ensures var outcome := Outcome(hash, s, Approve(key, user, role, newId, now));
      && (outcome.Ok? <==>
            key in s.cases && s.cases[key].status == HumanReview && role in {"OWNER", "ADMIN", "ANALYST"})
      && (outcome.Ok? ==>
            && StandsApproved(outcome.value, key)
            && Current(outcome.value, key).approvedBy == Some(user)
            && Current(outcome.value, key).approvedAt == Some(now)
            && |outcome.value.approvals| == |s.approvals| + 1
            && var event := outcome.value.approvals[|s.approvals|];
               event.id == newId && event.actor == user && event.role == role && event.at == now)
  {
    if key in s.cases {
      assert CaseOk(hash, s, key);
    }
  }

  // Preparation succeeds exactly on a case that is ready, and the store then holds its submission.
  lemma PrepareSucceedsIff(hash: Hash, s: Store, key: Key, user: string, newId: string)
    requires Inv(hash, s)
    ensures var outcome := Outcome(hash, s, Prepare(key, user, newId));
      && (outcome.Ok? <==> key in s.cases && s.cases[key].status == ReadyToSubmit)
      && (outcome.Ok? ==> Key(key.organization, newId) in outcome.value.submissions
                          && outcome.value.submissions[Key(key.organization, newId)]
                             == Submission(newId, key.id, key.organization))
  {
    if key in s.cases {
      assert CaseOk(hash, s, key);
    }
  }

  // A successful preparation of this very submission is among the steps.
  predicate Prepared(hash: Hash, s: Store, steps: seq<Step>, k: Key)
    decreases |steps|
  {
    steps != [] && (
      || (steps[0].Prepare? && Key(steps[0].key.organization, steps[0].newId) == k && Outcome(hash, s, steps[0]).Ok?)
      || Prepared(hash, Next(hash, s, steps[0]), steps[1..], k))
  }

  // The store holds exactly the submissions that were prepared: none is lost and none comes from elsewhere.
  lemma {:induction false} SubmissionsAreThePrepared(hash: Hash, s: Store, steps: seq<Step>, k: Key)
    ensures k in Run(hash, s, steps).submissions <==> k in s.submissions || Prepared(hash, s, steps, k)
    decreases |steps|
  {
    if steps != [] {
      SubmissionsAreThePrepared(hash, Next(hash, s, steps[0]), steps[1..], k);
    }
  }

  /// Freezing again

  predicate NamesApprover(s: Store, key: Key) {
    HasDecision(s, key) && Current(s, key).approvedBy.Some?
  }

  // Whether the case's current decision was granted since it was created; `granted` tells it of the steps
  // before the run.
  predicate GrantedSinceCreation(hash: Hash, s: Store, steps: seq<Step>, key: Key, granted: bool)
    decreases |steps|
  {
    if steps == [] then granted
    else
      var since := GrantedAfter(hash, s, steps[0], key, granted);
      GrantedSinceCreation(hash, Next(hash, s, steps[0]), steps[1..], key, since)
  }

  predicate GrantedAfter(hash: Hash, s: Store, step: Step, key: Key, granted: bool) {
    if step.Create? && step.key == key && Outcome(hash, s, step).Ok? then false
    else granted || Grants(hash, s, step, key)
  }

  lemma OwnStepNamesApprover(hash: Hash, s: Store, step: Step)
    requires Inv(hash, s) && FreshId(s, step)
    ensures NamesApprover(Next(hash, s, step), step.key) <==>
              GrantedAfter(hash, s, step, step.key, NamesApprover(s, step.key))
  {
    if step.key in s.cases {
      assert CaseOk(hash, s, step.key);
    }
  }

  lemma OtherStepNamesApprover(hash: Hash, s: Store, step: Step, key: Key)
    requires Inv(hash, s) && FreshId(s, step) && step.key != key
    ensures NamesApprover(Next(hash, s, step), key) <==> NamesApprover(s, key)
  {
    if Outcome(hash, s, step).Ok? && key in s.cases {
      assert CaseOk(hash, s, key);
      StepLeavesOtherCase(hash, s, step, key);
    }
  }

  // A freeze withdraws an approval but not the approver's name: whatever its status, a current decision
  // names an approver exactly when it was granted at some time since it was created. So a pending
  // decision names one exactly when it was approved and frozen again.
  lemma {:induction false} NamesApproverIffGranted(hash: Hash, s: Store, steps: seq<Step>, key: Key)
    requires Inv(hash, s) && Legal(hash, s, steps)
    ensures NamesApprover(Run(hash, s, steps), key) <==>
              GrantedSinceCreation(hash, s, steps, key, NamesApprover(s, key))
    decreases |steps|
  {
    if steps != [] {
      if steps[0].key == key {
        OwnStepNamesApprover(hash, s, steps[0]);
      } else {
        OtherStepNamesApprover(hash, s, steps[0], key);
      }
      StepKeepsInv(hash, s, steps[0]);
      NamesApproverIffGranted(hash, Next(hash, s, steps[0]), steps[1..], key);
    }
  }

  // Freezing an approved standing again withdraws the approval and keeps the approver's name.
  lemma FreezingAgainKeepsTheName(hash: Hash, s: Store, key: Key, user: string, now: int)
    requires Inv(hash, s) && StandsApproved(s, key) && user != "" && key.id != "" && key.organization != ""
    requires Key(key.organization, s.cases[key].reviewId) in s.reviews && forall d :: hash(d) != ""
    ensures var frozen := Next(hash, s, Freeze(key, user, now));
      && Outcome(hash, s, Freeze(key, user, now)).Ok?
      && HasDecision(frozen, key) && Current(frozen, key).status == PendingApproval
      && Current(frozen, key).approvedBy == Current(s, key).approvedBy && Current(frozen, key).approvedBy.Some?
  {
    assert CaseOk(hash, s, key);
    assert ApprovalOnRecord(s, Current(s, key));
  }

  /// The services over the store, as they mutate it

  class CaseStore {
    // The hash of a dossier's canonical form.
    const hash: Hash
    var cases: map<Key, Case>
    var reviews: map<Key, string>
    var decisions: map<Key, Decision>
    var snapshots: map<Key, Snapshot>
    var approvals: seq<Approval>
    var submissions: map<Key, Submission>

    function Abstract(): Store
      reads this
    {
      Store(cases, reviews, decisions, snapshots, approvals, submissions)
    }

    constructor (hash: Hash)
      ensures this.hash == hash && Abstract() == EmptyStore()
    {
      this.hash := hash;
      cases, reviews, decisions, snapshots, approvals, submissions := map[], map[], map[], map[], [], map[];
    }

    method CreateDecision(key: Key, user: string, kind: string, rationale: string, newId: string)
      returns (r: Result<Decision, Error>)
      requires key in cases
      modifies this
      ensures Abstract() == Next(hash, old(Abstract()), Create(key, user, kind, rationale, newId))
      ensures r.Ok? <==> Outcome(hash, old(Abstract()), Create(key, user, kind, rationale, newId)).Ok?
      ensures r.Ok? ==> HasDecision(Abstract(), key) && Current(Abstract(), key) == r.value
    {
      if Blank(rationale) {
        return Err(Invalid);
      }
      var decision := Decision(newId, cases[key].caseId, cases[key].organization, kind, rationale, user,
                               Draft, None, None, None, None, None);
      decisions := decisions[Key(key.organization, newId) := decision];
      cases := cases[key := cases[key].(decisionId := Some(newId))];
      cases := cases[key := cases[key].(status := Analyzed)];
      return Ok(decision);
    }

    method FreezeCase(key: Key, user: string, now: int) returns (r: Result<Snapshot, Error>)
      requires key in cases
      modifies this
      ensures Abstract() == Next(hash, old(Abstract()), Freeze(key, user, now))
      ensures r.Ok? <==> Outcome(hash, old(Abstract()), Freeze(key, user, now)).Ok?
      ensures r.Ok? ==> key in snapshots && snapshots[key] == r.value
    {
      if !HasDecision(Abstract(), key) {
        return Err(NotFound);
      }
      var reviewKey := Key(key.organization, cases[key].reviewId);
      if reviewKey !in reviews {
        return Err(NotFound);
      }
      var decisionKey := CurrentKey(Abstract(), key);
      var decision := decisions[decisionKey];
      var snapshot := FreezeDossier(hash, cases[key], Dossier(cases[key], reviews[reviewKey], decision), now, user);
      if snapshot.Err? {
        return snapshot;
      }
      var attached := AttachSnapshot(decision, snapshot.value);
      if attached.Err? {
        return Err(attached.error);
      }
      var requested := RequestApproval(attached.value);
      if requested.Err? {
        return Err(requested.error);
      }
      snapshots := snapshots[key := snapshot.value];
      decisions := decisions[decisionKey := requested.value];
      cases := cases[key := cases[key].(sha := Some(snapshot.value.sha))];
      cases := cases[key := cases[key].(status := HumanReview)];
      return snapshot;
    }

    method ApproveCase(key: Key, user: string, role: string, newId: string, now: int)
      returns (r: Result<Decision, Error>)
      requires key in cases
      modifies this
      ensures Abstract() == Next(hash, old(Abstract()), Approve(key, user, role, newId, now))
      ensures r.Ok? <==> Outcome(hash, old(Abstract()), Approve(key, user, role, newId, now)).Ok?
    {
      if !HasDecision(Abstract(), key) || key !in snapshots {
        return Err(NotFound);
      }
      var decisionKey := CurrentKey(Abstract(), key);
      var decision := decisions[decisionKey];
      r := ApproveDecision(hash, decision, snapshots[key], user, role, now);
      if r.Ok? {
        decisions := decisions[decisionKey := r.value];
        cases := cases[key := cases[key].(status := ReadyToSubmit)];
        var sha := snapshots[key].sha;
        var event := Approval(newId, decision.id, decision.caseId, decision.organization, user, role, now, sha);
        approvals := approvals + [event];
      }
    }

    method PrepareSubmission(key: Key, user: string, newId: string) returns (r: Result<Submission, Error>)
      requires key in cases
      modifies this
      ensures Abstract() == Next(hash, old(Abstract()), Prepare(key, user, newId))
      ensures r.Ok? <==> Outcome(hash, old(Abstract()), Prepare(key, user, newId)).Ok?
      ensures r.Ok? ==> StandsApproved(old(Abstract()), key)
    {
      if cases[key].decisionId.None? {
        return Err(Invalid);
      }
      var decisionKey := CurrentKey(Abstract(), key);
      if decisionKey !in decisions {
        return Err(NotFound);
      }
      if decisions[decisionKey].status != Approved {
        return Err(Invalid);
      }
      var row := Submission(newId, cases[key].caseId, cases[key].organization);
      submissions := submissions[Key(key.organization, newId) := row];
      return Ok(row);
    }
  }
}
