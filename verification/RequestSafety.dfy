/**
  What holds of a request in every run, with no assumption on who does what
  when: only approved content executes, and a cancellation is final.
*/
module RequestSafety {
  import opened Base
  import opened RequestLifecycle

  // ---------------------------------------------------------------------
  // Approval

  /** Somebody answers for a revision: by an approving review of exactly that
      revision, or by having written it as an admin. */
  predicate Vouched(log: Log, revision: nat, user: User) {
    || Review(revision, user, true) in log.reviews
    || (revision in log.authors && log.authors[revision] == Author(user, true))
  }

  ghost predicate VouchedByAnother(log: Log, requester: User, revision: nat, approver: Option<User>) {
    approver.Some? && approver.value != requester ==> Vouched(log, revision, approver.value)
  }

  ghost predicate RowInv(row: Row, log: Log) {
    && row.revision in log.contents && log.contents[row.revision] == row.statements
    && VouchedByAnother(log, row.requester, row.revision, row.approvedBy)
    && (forall revision | revision in log.contents || revision in log.authors :: revision <= row.revision)
  }

  /** A batch claimed while approval was required is the content of a revision
      somebody else answers for. */
  ghost predicate ClaimOk(log: Log, requester: User, claim: Claim) {
    && claim.revision in log.contents
    && claim.items == ToRun(log.contents[claim.revision], claim.kind, claim.from)
    && VouchedByAnother(log, requester, claim.revision, claim.approvedBy)
    && (claim.approvalRequired ==> claim.approvedBy.Some? && claim.approvedBy.value != requester)
  }

  ghost predicate ClaimsInv(row: Row, log: Log) {
    forall claim | claim in log.claims :: claim.revision <= row.revision && ClaimOk(log, row.requester, claim)
  }

  /** What is executed is what was claimed. */
  ghost predicate ExecutionsInv(log: Log) {
    forall e | e in log.executions ::
      e.claim < |log.claims| && e.index < |log.claims[e.claim].items| && e.item == log.claims[e.claim].items[e.index]
  }

  ghost predicate WorkerInv(log: Log, worker: Worker) {
    worker.Executing? ==> log.claims != [] && worker.items == log.claims[|log.claims| - 1].items
                          && worker.next <= |worker.items|
                          && (worker.phase != Ready ==> worker.next < |worker.items|)
  }

  ghost predicate Inv(s: State) {
    && RowInv(s.row, s.log) && ClaimsInv(s.row, s.log) && ExecutionsInv(s.log) && WorkerInv(s.log, s.worker)
  }

  /** A request just created, in any of the three ways. */
  ghost predicate Opened(s: State) {
    && s.row.revision == 1 && !s.row.dispatched
    && s.row.status in {Draft, PendingReview, Approved, Scheduled}
    && (s.row.approvedBy == None || s.row.approvedBy == Some(s.row.requester))
    && s.log.contents == map[1 := s.row.statements] && s.log.authors.Keys == {1}
    && s.log.reviews == [] && s.log.executions == [] && s.log.claims == []
    && s.jobs == [] && s.worker == Free && s.failing == 0
  }

  lemma CreatedIsOpened(requester: User, admin: bool, needsApproval: bool, later: bool, batch: seq<Text>, s: State)
    ensures Opened(Created(requester, admin, needsApproval, later, batch))
    ensures Opened(CreatedDraft(requester, admin, batch))
    ensures Opened(RetryRequest(s, admin, needsApproval))
  {
  }

  lemma OpenedInv(s: State)
    requires Opened(s)
    ensures Inv(s)
  {
  }

  /** The log only grows, and what it says of a past revision stays. */
  ghost predicate LogGrows(earlier: Log, later: Log, revision: nat) {
    && (forall r | r in earlier.reviews :: r in later.reviews)
    && (forall k | k in earlier.contents && k <= revision ::
          k in later.contents && later.contents[k] == earlier.contents[k])
    && (forall k | k in earlier.authors && k <= revision ::
          k in later.authors && later.authors[k] == earlier.authors[k])
  }

  lemma ClaimsStayOk(earlier: Row, before: Log, later: Row, after: Log)
    requires ClaimsInv(earlier, before) && LogGrows(before, after, earlier.revision)
    requires later.requester == earlier.requester && later.revision >= earlier.revision && after.claims == before.claims
    ensures ClaimsInv(later, after)
  {
    forall claim | claim in after.claims
      ensures claim.revision <= later.revision && ClaimOk(after, later.requester, claim)
    {
      assert ClaimOk(before, earlier.requester, claim);
    }
  }

  lemma RewrittenKeepsInv(s: State, status: RequestStatus, approvedBy: Option<User>, kind: Kind, batch: seq<Text>,
                          author: Author)
    requires Inv(s)
    requires approvedBy.Some? && approvedBy.value != s.row.requester ==> author == Author(approvedBy.value, true)
    ensures Inv(Rewritten(s, status, approvedBy, kind, batch, author))
  {
    var t := Rewritten(s, status, approvedBy, kind, batch, author);
    ClaimsStayOk(s.row, s.log, t.row, t.log);
  }

  lemma ReopenedKeepsInv(s: State, status: RequestStatus)
    requires Inv(s)
    ensures Inv(Reopened(s, status))
  {
    var t := Reopened(s, status);
    ClaimsStayOk(s.row, s.log, t.row, t.log);
  }

  lemma DecideKeepsInv(s: State, reviewer: User, approve: bool, expected: nat, blocked: bool, later: bool)
    requires Inv(s)
    ensures Inv(DecideStep(s, reviewer, approve, expected, blocked, later))
  {
    var t := DecideStep(s, reviewer, approve, expected, blocked, later);
    ClaimsStayOk(s.row, s.log, t.row, t.log);
    if t != s {
      assert Review(s.row.revision, reviewer, approve) in t.log.reviews;
    }
  }

  lemma ClaimKeepsInv(s: State, disabled: bool, needsApproval: bool)
    requires Inv(s)
    ensures Inv(ClaimBatchStep(s, disabled, needsApproval))
  {
    ReopenedKeepsInv(s, PendingReview);
    var t := ClaimBatchStep(s, disabled, needsApproval);
    if |t.log.claims| > |s.log.claims| {
      forall claim | claim in t.log.claims
        ensures claim.revision <= t.row.revision && ClaimOk(t.log, t.row.requester, claim)
      {
        if claim in s.log.claims {
          assert ClaimOk(s.log, s.row.requester, claim);
        }
      }
    }
  }

  lemma StartKeepsInv(s: State)
    requires Inv(s)
    ensures Inv(StartStep(s))
  {
    var t := StartStep(s);
    ClaimsStayOk(s.row, s.log, t.row, t.log);
  }

  lemma MarkedKeepsItems(executions: seq<Execution>, outcome: Outcome)
    ensures forall e | e in Marked(executions, outcome) ::
              exists e' | e' in executions :: e == e'.(outcome := e.outcome)
  {
  }

  lemma OutcomeKeepsInv(s: State, outcome: Outcome, worker: Worker)
    requires Inv(s) && WorkerInv(s.log, worker)
    ensures Inv(s.(log := s.log.(executions := Marked(s.log.executions, outcome)), worker := worker))
  {
    var log := s.log.(executions := Marked(s.log.executions, outcome));
    ClaimsStayOk(s.row, s.log, s.row, log);
    MarkedKeepsItems(s.log.executions, outcome);
  }

  /** Only the status, the dispatch mark and the queue change. */
  lemma BookkeepingKeepsInv(s: State, t: State)
    requires Inv(s) && t.log == s.log
    requires t.row == s.row.(status := t.row.status, dispatched := t.row.dispatched)
    requires WorkerInv(s.log, t.worker)
    ensures Inv(t)
  {
    ClaimsStayOk(s.row, s.log, t.row, t.log);
  }

  lemma UpdateKeepsInv(s: State, actor: User, admin: bool, needsApproval: bool, later: bool, blocked: bool,
                       batch: seq<Text>)
    requires Inv(s)
    ensures Inv(UpdateStep(s, actor, admin, needsApproval, later, blocked, batch))
  {
    if admin || actor == s.row.requester {
      RewrittenKeepsInv(s, if needsApproval then PendingReview else ReadyStatus(later),
                        if needsApproval then None else Some(actor), BatchKind(batch), batch, Author(actor, admin));
    }
  }

  lemma DispatchKeepsInv(s: State, blocked: bool, needsApproval: bool)
    requires Inv(s)
    ensures Inv(DispatchStep(s, blocked, needsApproval))
  {
    if !s.row.dispatched && s.row.status in {Approved, Scheduled} && !blocked
       && NeedsFreshApproval(s.row, needsApproval)
    {
      ReopenedKeepsInv(s, PendingReview);
    } else {
      BookkeepingKeepsInv(s, DispatchStep(s, blocked, needsApproval));
    }
  }

  lemma SucceedKeepsInv(s: State)
    requires Inv(s)
    ensures Inv(SucceedStep(s)) && Inv(BreakStep(s))
  {
    if s.worker.Executing? && s.worker.phase == InFlight {
      OutcomeKeepsInv(s, Succeeded, Executing(s.worker.items, s.worker.next + 1, Ready));
      OutcomeKeepsInv(s, Broken, Executing(s.worker.items, s.worker.next, Caught));
    }
  }

  lemma StepKeepsInv(s: State, step: Step)
    requires Inv(s)
    ensures Inv(Next(s, step)) && Next(s, step).row.requester == s.row.requester
  {
    match step
    case Update(actor, admin, needsApproval, later, blocked, batch) =>
      UpdateKeepsInv(s, actor, admin, needsApproval, later, blocked, batch);
    case SaveDraft(batch) =>
      RewrittenKeepsInv(s, Draft, None, Write, AsDraft(batch), Author(s.row.requester, false));
    case Decide(reviewer, approve, expected, blocked, later) =>
      DecideKeepsInv(s, reviewer, approve, expected, blocked, later);
    case Withdraw => ReopenedKeepsInv(s, Draft);
    case Dispatch(blocked, needsApproval) => DispatchKeepsInv(s, blocked, needsApproval);
    case ClaimBatch(disabled, needsApproval) => ClaimKeepsInv(s, disabled, needsApproval);
    case Start => StartKeepsInv(s);
    case Succeed => SucceedKeepsInv(s);
    case Break => SucceedKeepsInv(s);
    case _ => BookkeepingKeepsInv(s, Next(s, step));
  }

  lemma {:induction false} RunKeepsInv(s: State, steps: seq<Step>)
    requires Inv(s)
    ensures Inv(Run(s, steps)) && Run(s, steps).row.requester == s.row.requester
    decreases |steps|
  {
    if steps == [] {
    } else {
      StepKeepsInv(s, steps[0]);
      RunKeepsInv(Next(s, steps[0]), steps[1..]);
    }
  }

  /** What executes is what was approved. In every run, whatever was started
      while the requester's policy asked for approval is a statement of a
      revision that someone other than the requester approved in a review of
      exactly that revision, or wrote as an admin. */
  lemma ExecutedIsApproved(s: State, steps: seq<Step>, e: Execution)
    requires Opened(s) && e in Run(s, steps).log.executions
    ensures var log := Run(s, steps).log;
            && e.claim < |log.claims|
            && var claim := log.claims[e.claim];
            && claim.revision in log.contents
            && e.item in ToRun(log.contents[claim.revision], claim.kind, claim.from)
            && (claim.approvalRequired ==> exists user: User | user != s.row.requester ::
                                             Vouched(log, claim.revision, user))
  {
    OpenedInv(s);
    RunKeepsInv(s, steps);
    var log := Run(s, steps).log;
    var claim := log.claims[e.claim];
    assert ClaimOk(log, s.row.requester, claim);
    if claim.approvalRequired {
      assert Vouched(log, claim.revision, claim.approvedBy.value);
    }
  }

  /** The guard at the claim is what does it: a batch is claimed exactly when
      it is still runnable, its requester is enabled, and approval is either
      not required or was given by somebody else. */
  lemma ClaimedExactlyWhen(s: State, disabled: bool, needsApproval: bool)
    requires s.worker.Checked?
    ensures |ClaimBatchStep(s, disabled, needsApproval).log.claims| > |s.log.claims| <==>
            && s.row.status in {Approved, Running} && !disabled
            && (needsApproval ==> s.row.approvedBy.Some? && s.row.approvedBy.value != s.row.requester)
  {
  }

  // ---------------------------------------------------------------------
  // Cancellation

  predicate AboutToStart(worker: Worker) {
    worker.Executing? && worker.phase == Cleared
  }

  lemma CancelledStep(s: State, step: Step)
    requires s.row.status == Cancelled
    ensures var t := Next(s, step);
            && t.row.status == Cancelled && t.log.claims == s.log.claims
            && |t.log.executions| + (if AboutToStart(t.worker) then 1 else 0)
               <= |s.log.executions| + (if AboutToStart(s.worker) then 1 else 0)
  {
  }

  /** Cancellation is final: nothing overwrites it, no batch is claimed after
      it, and at most the one statement the worker had already cleared still
      starts. */
  lemma {:induction false} CancellationIsFinal(s: State, steps: seq<Step>)
    requires s.row.status == Cancelled
    ensures var t := Run(s, steps);
            && t.row.status == Cancelled && t.log.claims == s.log.claims
            && |t.log.executions| <= |s.log.executions| + (if AboutToStart(s.worker) then 1 else 0)
    decreases |steps|
  {
    if steps == [] {
    } else {
      CancelledStep(s, steps[0]);
      CancellationIsFinal(Next(s, steps[0]), steps[1..]);
    }
  }

  /** The one further statement does happen: the status is read before the
      execution is written, without a lock. */
  lemma OneStatementMayStillStart(s: State)
    requires s.row.status == Running && s.log.claims != []
    requires s.worker.Executing? && s.worker.phase == Ready && s.worker.next < |s.worker.items|
    ensures |Run(s, [Look, Cancel, Start]).log.executions| == |s.log.executions| + 1
    ensures Run(s, [Cancel, Look, Start]).log.executions == s.log.executions
  {
    RunThree(s, Look, Cancel, Start);
    RunThree(s, Cancel, Look, Start);
  }
}
