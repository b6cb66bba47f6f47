/**
  The operations on a request's row, and the job that executes its batch.
  Every method is one transition of the request's state machine, or a run of
  them.
*/
module RequestWorkflow {
  import opened Base
  import opened RequestLifecycle
  import opened RequestRuns

  datatype RequestError =
    | NotAuthorized
    | NoStatements
    | NotEditable
    | NotADraft
    | BlockedByPreflight
    | NotPending
    | RevisionChanged
    | NotCancellable
    | NotFailed

  /** A retry resumes in place, or opens a linked request. */
  datatype Retried = Resumed(from: nat) | Linked(request: State)

  lemma RunSnoc(s: State, steps: seq<Step>, step: Step)
    ensures Run(s, steps + [step]) == Next(Run(s, steps), step)
  {
    RunConcat(s, steps, [step]);
    RunCons(Run(s, steps), step, []);
    assert [step] + [] == [step];
  }

  // ---------------------------------------------------------------------
  // What is stored, and what is run again

  /** The rows hold the batch, in its order, under fresh ids. */
  ghost predicate Stores(statements: seq<Statement>, batch: seq<Text>, firstId: nat) {
    && |statements| == |batch|
    && forall i | 0 <= i < |batch| ::
         statements[i].id == firstId + i && statements[i].position == i + 1 && statements[i].text == batch[i]
  }

  /** The same, but every statement counts as a write. */
  ghost predicate StoresAsWrites(statements: seq<Statement>, batch: seq<Text>, firstId: nat) {
    && |statements| == |batch|
    && forall i | 0 <= i < |batch| ::
         && statements[i].id == firstId + i && statements[i].position == i + 1
         && statements[i].text == Text(batch[i].connection, batch[i].sql, Write)
  }

  ghost predicate AllReads(batch: seq<Text>) {
    forall i | 0 <= i < |batch| :: batch[i].kind == Read
  }

  lemma BatchKindIs(batch: seq<Text>)
    ensures BatchKind(batch) == Read <==> AllReads(batch)
  {
    if AllReads(batch) {
      forall text | text in batch ensures text.kind == Read {
        var i :| 0 <= i < |batch| && batch[i] == text;
        assert batch[i].kind == Read;
      }
    }
  }

  /** The execution that failed last. */
  ghost predicate FailedLast(executions: seq<Execution>, k: int) {
    && 0 <= k < |executions| && executions[k].outcome == Broken
    && forall j | k < j < |executions| :: executions[j].outcome != Broken
  }

  /** The first statement with an id. */
  ghost predicate IsPresentAt(statements: seq<Statement>, id: Option<nat>, i: int) {
    && 0 <= i < |statements| && Some(statements[i].id) == id
    && forall j | 0 <= j < i :: Some(statements[j].id) != id
  }

  /** The position of the statement whose execution failed last, if it is still
      there, and the first position otherwise. */
  ghost predicate ResumesFrom(statements: seq<Statement>, executions: seq<Execution>, from: nat) {
    && (forall k, i | FailedLast(executions, k) && IsPresentAt(statements, executions[k].item.statement, i) ::
          from == statements[i].position)
    && ((forall k, i | FailedLast(executions, k) && 0 <= i < |statements| ::
           Some(statements[i].id) != executions[k].item.statement) ==> from == 1)
  }

  lemma {:induction false} PositionIs(statements: seq<Statement>, id: Option<nat>)
    ensures forall i | IsPresentAt(statements, id, i) :: PositionOf(statements, id) == Some(statements[i].position)
    ensures PositionOf(statements, id).Some? ==> exists i :: IsPresentAt(statements, id, i)
    decreases |statements|
  {
    if statements == [] {
    } else if id == Some(statements[0].id) {
      assert IsPresentAt(statements, id, 0);
    } else {
      var rest := statements[1..];
      PositionIs(rest, id);
      assert forall i | 0 < i < |statements| :: statements[i] == rest[i - 1];
      forall i ensures IsPresentAt(statements, id, i) <==> IsPresentAt(rest, id, i - 1) {
        if IsPresentAt(statements, id, i) {
          assert forall j | 0 <= j < i - 1 :: rest[j] == statements[j + 1];
        }
      }
      if i :| IsPresentAt(rest, id, i) {
        assert IsPresentAt(statements, id, i + 1);
      }
    }
  }

  lemma FailedEarlier(executions: seq<Execution>, k: int)
    requires executions != [] && executions[|executions| - 1].outcome != Broken
    ensures FailedLast(executions, k) <==> FailedLast(executions[..|executions| - 1], k)
  {
    var before := executions[..|executions| - 1];
    if FailedLast(before, k) {
      forall j | k < j < |executions| ensures executions[j].outcome != Broken {
        assert j < |before| ==> before[j].outcome != Broken;
      }
    }
  }

  lemma {:induction false} RetryFromIs(statements: seq<Statement>, executions: seq<Execution>)
    ensures ResumesFrom(statements, executions, RetryFrom(statements, executions))
    decreases |executions|
  {
    if executions != [] {
      var n := |executions| - 1;
      if executions[n].outcome == Broken {
        assert FailedLast(executions, n);
        assert forall k | FailedLast(executions, k) :: k == n;
        PositionIs(statements, executions[n].item.statement);
      } else {
        RetryFromIs(statements, executions[..n]);
        forall k: int ensures FailedLast(executions, k) <==> FailedLast(executions[..n], k) {
          FailedEarlier(executions, k);
        }
      }
    }
  }

  /** The items are the statements from a position on; when none is left, the
      request's own SQL, which is that of the first, under the request's kind. */
  ghost predicate IsRest(statements: seq<Statement>, kind: Kind, from: nat, items: seq<Item>) {
    var skipped := if from == 0 then 0 else from - 1;
    if skipped < |statements| then
      && |items| == |statements| - skipped
      && forall k | 0 <= k < |items| ::
           var statement := statements[skipped + k];
           items[k] == Item(Some(statement.id), statement.position, statement.text)
    else if statements == [] then items == [Item(None, 1, Text(0, "", kind))]
    else items == [Item(None, 1, Text(statements[0].text.connection, statements[0].text.sql, kind))]
  }

  ghost predicate NumberedFromOne(statements: seq<Statement>) {
    forall i | 0 <= i < |statements| :: statements[i].position == i + 1
  }

  lemma ToRunIs(statements: seq<Statement>, kind: Kind, from: nat)
    requires NumberedFromOne(statements)
    ensures IsRest(statements, kind, from, ToRun(statements, kind, from))
  {
    FromNumbered(statements, 1, from);
  }

  /** A request of its own for what is left of a batch, under the failed request's
      kind and for its requester. */
  ghost predicate IsRetryOf(row: Row, executions: seq<Execution>, request: State, needsApproval: bool,
                            items: seq<Item>, from: nat)
  {
    && ResumesFrom(row.statements, executions, from)
    && (NumberedFromOne(row.statements) ==> IsRest(row.statements, row.kind, from, items))
    && IsNew(request, row, needsApproval, seq(|items|, i requires 0 <= i < |items| => items[i].text))
  }

  /** Nothing has happened to it yet. */
  ghost predicate IsNew(request: State, row: Row, needsApproval: bool, batch: seq<Text>) {
    && Stores(request.row.statements, batch, 0)
    && request.row.requester == row.requester && request.row.kind == row.kind
    && request.row.status == (if needsApproval then PendingReview else Approved)
    && request.row.approvedBy == (if needsApproval then None else Some(row.requester))
    && request.row.revision == 1 && !request.row.dispatched
    && request.jobs == [] && request.log.reviews == [] && request.log.executions == [] && request.log.claims == []
  }

  lemma CreatedIsNew(row: Row, admin: bool, needsApproval: bool, batch: seq<Text>)
    ensures var created := Created(row.requester, admin, needsApproval, false, batch);
            IsNew(created.(row := created.row.(kind := row.kind)), row, needsApproval, batch)
  {
  }

  lemma RetryRequestIs(s: State, admin: bool, needsApproval: bool) returns (items: seq<Item>, from: nat)
    ensures IsRetryOf(s.row, s.log.executions, RetryRequest(s, admin, needsApproval), needsApproval, items, from)
  {
    var row := s.row;
    from := RetryFrom(row.statements, s.log.executions);
    items := ToRun(row.statements, row.kind, from);
    RetryFromIs(row.statements, s.log.executions);
    CreatedIsNew(row, admin, needsApproval, Texts(items));
    if NumberedFromOne(row.statements) {
      ToRunIs(row.statements, row.kind, from);
    }
  }

  function OutcomeOf(works: bool): Outcome {
    if works then Succeeded else Broken
  }

  /** The executions of the first k items of a claim, all succeeded. */
  function Ran(items: seq<Item>, claim: nat, k: nat): (r: seq<Execution>)
    requires k <= |items|
    ensures |r| == k
  {
    if k == 0 then [] else Ran(items, claim, k - 1) + [Execution(items[k - 1], claim, k - 1, Succeeded)]
  }

  /** The executions after the first k items have run and, if it broke, the
      next. */
  function RanUntil(before: seq<Execution>, items: seq<Item>, claim: nat, k: nat, broke: bool): seq<Execution>
    requires k <= |items| && (broke ==> k < |items|)
  {
    var ran := before + Ran(items, claim, k);
    if broke then ran + [Execution(items[k], claim, k, Broken)] else ran
  }

  lemma RanNothing(before: seq<Execution>, items: seq<Item>, claim: nat)
    ensures RanUntil(before, items, claim, 0, false) == before
  {
  }

  lemma RanOneMore(before: seq<Execution>, items: seq<Item>, claim: nat, k: nat)
    requires k < |items|
    ensures RanUntil(before, items, claim, k + 1, false)
         == RanUntil(before, items, claim, k, false) + [Execution(items[k], claim, k, Succeeded)]
  {
  }

  ghost predicate AllPass(cancels: seq<bool>, works: seq<bool>, k: nat)
    requires k <= |cancels| && k <= |works|
  {
    forall j | 0 <= j < k :: !cancels[j] && works[j]
  }

  class QueryRequest {
    const requester: User
    var status: RequestStatus
    var revision: nat
    var statements: seq<Statement>
    var kind: Kind
    var approvedBy: Option<User>
    var dispatched: bool
    var nextId: nat
    var reviews: seq<Review>
    var executions: seq<Execution>
    var jobs: seq<nat>
    var claims: seq<Claim>
    /** History, and where the worker stands. */
    ghost var authors: map<nat, Author>
    ghost var contents: map<nat, seq<Statement>>
    ghost var worker: Worker
    ghost var failing: nat

    function CurrentRow(): Row
      reads this
    {
      Row(requester, status, revision, statements, kind, approvedBy, dispatched)
    }

    ghost function View(): State
      reads this
    {
      State(CurrentRow(), nextId, Log(reviews, authors, contents, executions, claims), jobs, worker, failing)
    }

    /** `create`. */
    constructor (requester: User, admin: bool, needsApproval: bool, later: bool, batch: seq<Text>)
      requires batch != []
      ensures View() == Created(requester, admin, needsApproval, later, batch)
      ensures fresh(this)
      ensures status == if needsApproval then PendingReview else if later then Scheduled else Approved
      ensures approvedBy == if needsApproval then None else Some(requester)
      ensures this.requester == requester && revision == 1 && !dispatched
      ensures Stores(statements, batch, 0) && nextId == |batch| && (kind == Read <==> AllReads(batch))
      ensures reviews == [] && executions == [] && jobs == [] && claims == []
    {
      this.requester := requester;
      status := if needsApproval then PendingReview else ReadyStatus(later);
      approvedBy := if needsApproval then None else Some(requester);
      revision, kind, dispatched := 1, BatchKind(batch), false;
      statements, nextId := Numbered(batch, 0), |batch|;
      reviews, executions, jobs := [], [], [];
      authors, contents, claims := map[1 := Author(requester, admin)], map[1 := Numbered(batch, 0)], [];
      worker, failing := Free, 0;
      BatchKindIs(batch);
    }

    /** `forceFill(...)->save()`: the next revision, not dispatched. */
    method SaveRevision(to: RequestStatus, approver: Option<User>, batchKind: Kind)
      modifies `status, `approvedBy, `dispatched, `kind, `revision
      ensures CurrentRow() == Row(requester, to, old(revision) + 1, old(statements), batchKind, approver, false)
    {
      status, approvedBy, dispatched, kind, revision := to, approver, false, batchKind, revision + 1;
    }

    /** `replaceStatements`: the rows are deleted and created anew. */
    method ReplaceStatements(created: seq<Statement>, ghost author: Author)
      modifies `statements, `nextId, `contents, `authors
      ensures statements == created && nextId == old(nextId) + |created|
      ensures contents == old(contents)[revision := created] && authors == old(authors)[revision := author]
    {
      statements, nextId := created, nextId + |created|;
      contents, authors := contents[revision := created], authors[revision := author];
    }

    /** A new revision with new content. */
    method Rewrite(to: RequestStatus, approver: Option<User>, batchKind: Kind, batch: seq<Text>, ghost author: Author)
      modifies this
      ensures View() == Rewritten(old(View()), to, approver, batchKind, batch, author)
    {
      SaveRevision(to, approver, batchKind);
      ReplaceStatements(Numbered(batch, nextId), author);
    }

    /** No edit touches what has been decided and what has run. */
    predicate Untouched(wereReviews: seq<Review>, wereExecutions: seq<Execution>, wereJobs: seq<nat>,
                        wereClaims: seq<Claim>)
      reads this
    {
      reviews == wereReviews && executions == wereExecutions && jobs == wereJobs && claims == wereClaims
    }

    /** `update`: it stores the statements it is given, in their order. */
    method Update(actor: User, admin: bool, needsApproval: bool, later: bool, blocked: bool, batch: seq<Text>)
      returns (r: Result<nat, RequestError>)
      requires needsApproval ==> !admin
      modifies this
      ensures View() == Next(old(View()), Step.Update(actor, admin, needsApproval, later, blocked, batch))
      ensures r.Err? ==> View() == old(View())
      ensures r.Ok? <==> && (admin || actor == requester) && batch != [] && !old(dispatched)
                         && old(status) in {Draft, PendingReview, Approved, Rejected, Scheduled}
                         && !(old(status) == Draft && blocked)
      ensures r.Ok? ==>
                && r.value == revision == old(revision) + 1 && !dispatched
                && Stores(statements, batch, old(nextId)) && nextId == old(nextId) + |batch|
                && (kind == Read <==> AllReads(batch))
                && status == (if needsApproval then PendingReview else if later then Scheduled else Approved)
                && approvedBy == (if needsApproval then None else Some(actor))
                && Untouched(old(reviews), old(executions), old(jobs), old(claims))
    {
      if !(admin || actor == requester) {
        return Err(NotAuthorized);
      }
      if batch == [] {
        return Err(NoStatements);
      }
      if !Editable(CurrentRow()) {
        return Err(NotEditable);
      }
      if status == Draft && blocked {
        return Err(BlockedByPreflight);
      }
      var to := if needsApproval then PendingReview else ReadyStatus(later);
      Rewrite(to, if needsApproval then None else Some(actor), BatchKind(batch), batch, Author(actor, admin));
      BatchKindIs(batch);
      r := Ok(revision);
    }

    method UpdateDraft(batch: seq<Text>) returns (r: Result<nat, RequestError>)
      modifies this
      ensures View() == Next(old(View()), SaveDraft(batch))
      ensures r.Err? ==> View() == old(View())
      ensures r.Ok? <==> old(status) == Draft && batch != []
      ensures r.Ok? ==>
                && r.value == revision == old(revision) + 1 && !dispatched
                && StoresAsWrites(statements, batch, old(nextId)) && nextId == old(nextId) + |batch|
                && kind == Write && status == Draft && approvedBy == None
                && Untouched(old(reviews), old(executions), old(jobs), old(claims))
    {
      if batch == [] {
        return Err(NoStatements);
      }
      if status != Draft {
        return Err(NotADraft);
      }
      Rewrite(Draft, None, Write, AsDraft(batch), Author(requester, false));
      r := Ok(revision);
    }

    /** The statements and their kind are what they were. */
    predicate SameContent(before: Row)
      reads this
    {
      statements == before.statements && kind == before.kind
    }

    method Review(reviewer: User, approve: bool, expected: nat, blocked: bool, later: bool)
      returns (r: Result<Review, RequestError>)
      modifies this
      ensures View() == Next(old(View()), Decide(reviewer, approve, expected, blocked, later))
      ensures r.Err? ==> View() == old(View())
      ensures r.Ok? <==> && old(status) == PendingReview && reviewer != requester && old(revision) == expected
                         && !(approve && blocked)
      ensures r.Ok? ==>
                && status == (if approve then (if later then Scheduled else Approved) else Rejected)
                && approvedBy == (if approve then Some(reviewer) else old(approvedBy))
                && r.value == RequestLifecycle.Review(revision, reviewer, approve)
                && Untouched(old(reviews) + [r.value], old(executions), old(jobs), old(claims))
                && SameContent(old(CurrentRow())) && revision == old(revision) && dispatched == old(dispatched)
    {
      if reviewer == requester {
        return Err(NotAuthorized);
      }
      if status != PendingReview {
        return Err(NotPending);
      }
      if revision != expected {
        return Err(RevisionChanged);
      }
      if approve && blocked {
        return Err(BlockedByPreflight);
      }
      var review := RequestLifecycle.Review(revision, reviewer, approve);
      reviews := reviews + [review];
      if approve {
        status, approvedBy := ReadyStatus(later), Some(reviewer);
      } else {
        status := Rejected;
      }
      r := Ok(review);
    }

    /** A new revision, unapproved, with the old content. */
    method Reopen(to: RequestStatus)
      modifies `status, `approvedBy, `dispatched, `kind, `revision, `contents
      ensures View() == Reopened(old(View()), to)
    {
      SaveRevision(to, None, kind);
      contents := contents[revision := statements];
    }

    /** The next revision, without an approval and not dispatched. */
    predicate IsReopened(before: Row)
      reads this
    {
      SameContent(before) && revision == before.revision + 1 && approvedBy == None && !dispatched
    }

    method WithdrawFromReview() returns (ok: bool)
      modifies this
      ensures View() == Next(old(View()), Withdraw)
      ensures ok <==> old(status) == PendingReview && !old(dispatched)
      ensures ok ==> status == Draft && IsReopened(old(CurrentRow()))
      ensures Untouched(old(reviews), old(executions), old(jobs), old(claims))
      ensures !ok ==> CurrentRow() == old(CurrentRow())
    {
      ok := status == PendingReview && !dispatched;
      if ok {
        Reopen(Draft);
      }
    }

    method Dispatch(blocked: bool, needsApproval: bool) returns (wasDispatched: bool)
      modifies this
      ensures View() == Next(old(View()), Step.Dispatch(blocked, needsApproval))
      ensures var before := old(CurrentRow());
              var stale := needsApproval && (before.approvedBy.None? || before.approvedBy == Some(requester));
              var due := !before.dispatched && before.status in {Approved, Scheduled};
              && (wasDispatched <==> due && !blocked && !stale)
              && (wasDispatched ==>
                    jobs == old(jobs) + [1] && CurrentRow() == before.(status := Approved, dispatched := true))
              && (!wasDispatched ==> jobs == old(jobs))
              && (due && blocked ==> CurrentRow() == before.(status := Approved))
              && (due && !blocked && stale ==> status == PendingReview && IsReopened(before))
              && (!due ==> CurrentRow() == before)
      ensures Untouched(old(reviews), old(executions), jobs, old(claims))
    {
      if dispatched || status !in {Approved, Scheduled} {
        return false;
      }
      if blocked {
        status := Approved;
        return false;
      }
      if NeedsFreshApproval(CurrentRow(), needsApproval) {
        Reopen(PendingReview);
        return false;
      }
      status, dispatched := Approved, true;
      jobs := jobs + [1];
      wasDispatched := true;
    }

    method Cancel() returns (r: Result<(), RequestError>)
      modifies `status
      ensures View() == Next(old(View()), Step.Cancel)
      ensures r.Ok? <==> old(status) in {Draft, PendingReview, Approved, Scheduled, Running}
      ensures status == if r.Ok? then Cancelled else old(status)
    {
      if status !in {Draft, PendingReview, Approved, Scheduled, Running} {
        return Err(NotCancellable);
      }
      status := Cancelled;
      r := Ok(());
    }

    /** `createRetryRequest`. */
    method CreateRetryRequest(from: nat, admin: bool, needsApproval: bool) returns (request: State)
      requires from == RetryFrom(statements, executions)
      ensures request == RetryRequest(View(), admin, needsApproval)
    {
      var linked := new QueryRequest(requester, admin, needsApproval, false, Texts(ToRun(statements, kind, from)));
      linked.kind := kind;
      request := State(
        linked.CurrentRow(), linked.nextId,
        Log([], map[1 := Author(requester, admin)], map[1 := linked.statements], [], []), [], Free, 0);
    }

    /** `needsApproval` is the policy's answer for this request, and
        `linkedNeedsApproval` the one for what is left of it. */
    method Retry(needsApproval: bool, admin: bool, linkedNeedsApproval: bool)
      returns (r: Result<Retried, RequestError>)
      modifies this
      ensures View() == Next(old(View()), Step.Retry(needsApproval))
      ensures r.Ok? <==> old(status) == Failed
      ensures var before := old(CurrentRow());
              var stale := needsApproval && (before.approvedBy.None? || before.approvedBy == Some(requester));
              r.Ok? ==> (r.value.Resumed? <==> kind == Read && !stale)
      ensures r.Ok? && r.value.Resumed? ==>
                && ResumesFrom(statements, executions, r.value.from) && jobs == old(jobs) + [r.value.from]
                && CurrentRow() == old(CurrentRow()).(status := Approved, dispatched := true)
                && Untouched(old(reviews), old(executions), jobs, old(claims))
      ensures r.Ok? && r.value.Linked? ==>
                && View() == old(View()) && r.value.request == RetryRequest(View(), admin, linkedNeedsApproval)
                && exists items, from ::
                     IsRetryOf(CurrentRow(), executions, r.value.request, linkedNeedsApproval, items, from)
      ensures r.Err? ==> View() == old(View())
    {
      if status != Failed {
        return Err(NotFailed);
      }
      var from := RetryFrom(statements, executions);
      RetryFromIs(statements, executions);
      if kind == Read && !NeedsFreshApproval(CurrentRow(), needsApproval) {
        status, dispatched := Approved, true;
        jobs := jobs + [from];
        return Ok(Resumed(from));
      }
      var request := CreateRetryRequest(from, admin, linkedNeedsApproval);
      ghost var left, start := RetryRequestIs(View(), admin, linkedNeedsApproval);
      r := Ok(Linked(request));
    }

    // -------------------------------------------------------------------
    // The job

    /** The worker takes a job and looks at the status, unlocked. */
    method Begin(job: nat) returns (goOn: bool)
      requires job < |jobs| && worker.Free?
      modifies `jobs, `worker
      ensures View() == Next(old(View()), Pick(job))
      ensures goOn <==> status in {Approved, Running}
      ensures worker == if goOn then Checked(old(jobs)[job]) else Free
      ensures jobs == old(jobs)[..job] + old(jobs)[job + 1..]
    {
      goOn := Runnable(CurrentRow());
      worker := if goOn then Checked(jobs[job]) else Free;
      jobs := Without(jobs, job);
    }

    /** The preflight blocks the job: the request goes back, undispatched. */
    method ReturnBlocked() returns (returned: bool)
      requires worker.Checked?
      modifies `status, `dispatched, `worker
      ensures View() == Next(old(View()), TurnBack)
      ensures returned <==> old(status) in {Approved, Running}
      ensures worker == Free
      ensures CurrentRow() == if returned then old(CurrentRow()).(status := Approved, dispatched := false)
                              else old(CurrentRow())
    {
      worker := Free;
      returned := Runnable(CurrentRow());
      if returned {
        status, dispatched := Approved, false;
      }
    }

    /** The claiming transaction; what it hands to the loop is what is left of
        the batch from the position resumed from. */
    method Claim(from: nat, disabled: bool, needsApproval: bool) returns (items: seq<Item>)
      requires worker == Checked(from)
      modifies this
      ensures View() == Next(old(View()), ClaimBatch(disabled, needsApproval))
      ensures items != [] <==> worker.Executing?
      ensures items != [] ==> worker == Executing(items, 0, Ready) && status == Running && claims != []
      ensures var before := old(CurrentRow());
              var stale := needsApproval && (before.approvedBy.None? || before.approvedBy == Some(requester));
              var runs := before.status in {Approved, Running};
              && (items != [] <==> runs && !disabled && !stale)
              && (items != [] ==>
                    && CurrentRow() == before.(status := Running)
                    && claims == old(claims)
                                 + [RequestLifecycle.Claim(revision, from, items, kind, needsApproval, approvedBy)])
              && (items == [] ==> worker == Free && claims == old(claims))
              && (!runs ==> CurrentRow() == before)
              && (runs && disabled ==> CurrentRow() == before.(status := Approved, dispatched := false))
              && (runs && !disabled && stale ==> status == PendingReview && IsReopened(before))
      ensures items != [] && old(NumberedFromOne(statements)) ==> old(IsRest(statements, kind, from, items))
      ensures Untouched(old(reviews), old(executions), old(jobs), claims)
    {
      if !Runnable(CurrentRow()) {
        worker := Free;
        return [];
      }
      if disabled {
        status, dispatched, worker := Approved, false, Free;
        return [];
      }
      if NeedsFreshApproval(CurrentRow(), needsApproval) {
        Reopen(PendingReview);
        worker := Free;
        return [];
      }
      items := StartBatch(from, needsApproval);
    }

    /** The claim is written and the request runs. */
    method StartBatch(from: nat, needsApproval: bool) returns (items: seq<Item>)
      modifies `status, `claims, `worker
      ensures items == ToRun(statements, kind, from)
      ensures NumberedFromOne(statements) ==> IsRest(statements, kind, from, items)
      ensures claims == old(claims)
                        + [RequestLifecycle.Claim(revision, from, items, kind, needsApproval, approvedBy)]
      ensures worker == Executing(items, 0, Ready) && status == Running
    {
      items := ToRun(statements, kind, from);
      if NumberedFromOne(statements) {
        ToRunIs(statements, kind, from);
      }
      claims := claims + [RequestLifecycle.Claim(revision, from, items, kind, needsApproval, approvedBy)];
      status, worker := Running, Executing(items, 0, Ready);
    }

    /** `hasBeenCancelled`, before a statement. */
    method LookForCancellation() returns (cancelled: bool)
      requires worker.Executing? && worker.phase == Ready && worker.next < |worker.items|
      modifies `worker
      ensures View() == Next(old(View()), Look)
      ensures cancelled == (status == Cancelled)
    {
      cancelled := status == Cancelled;
      worker := if cancelled then Free else Executing(worker.items, worker.next, Cleared);
    }

    method StartExecution(item: Item, i: nat)
      requires worker.Executing? && worker.phase == Cleared && worker.next == i < |worker.items|
      requires item == worker.items[i] && claims != []
      modifies `executions, `worker
      ensures View() == Next(old(View()), Start)
    {
      executions := executions + [Execution(item, |claims| - 1, i, Started)];
      worker := Executing(worker.items, i, InFlight);
    }

    method FinishExecution(succeeded: bool)
      requires worker.Executing? && worker.phase == InFlight
      modifies `executions, `worker
      ensures View() == Next(old(View()), if succeeded then Succeed else Break)
    {
      executions := Marked(executions, if succeeded then Succeeded else Broken);
      worker := if succeeded then Executing(worker.items, worker.next + 1, Ready)
                else Executing(worker.items, worker.next, Caught);
    }

    /** The catch block's transaction. */
    method FailBatch()
      requires worker.Executing? && worker.phase == Caught
      modifies `status, `worker, `failing
      ensures View() == Next(old(View()), RecordFailure)
    {
      worker := Free;
      if status != Cancelled {
        status := Failed;
        failing := failing + 1;
      }
    }

    method CompleteBatch()
      requires worker.Executing? && worker.phase == Ready && worker.next >= |worker.items|
      modifies `status, `worker
      ensures View() == Next(old(View()), Complete)
    {
      worker := Free;
      if status != Cancelled {
        status := Completed;
      }
    }

    /** Somebody may have cancelled since the last look. */
    method LookAfter(cancelled: bool) returns (ghost steps: seq<Step>)
      requires worker.Executing? && worker.phase == Ready && worker.next < |worker.items| && status == Running
      modifies `status, `worker
      ensures View() == Run(old(View()), steps)
      ensures worker == if cancelled then Free else Executing(old(worker.items), old(worker.next), Cleared)
      ensures status == if cancelled then Cancelled else Running
    {
      steps := [];
      if cancelled {
        var _ := Cancel();
        RunSnoc(old(View()), steps, Step.Cancel);
        steps := steps + [Step.Cancel];
      }
      RunSnoc(old(View()), steps, Look);
      var _ := LookForCancellation();
      steps := steps + [Look];
    }

    method StartAndFinish(item: Item, i: nat, works: bool) returns (ghost steps: seq<Step>)
      requires worker.Executing? && worker.phase == Cleared && worker.next == i < |worker.items|
      requires item == worker.items[i] && claims != []
      modifies `executions, `worker
      ensures View() == Run(old(View()), steps)
      ensures worker == if works then Executing(old(worker.items), i + 1, Ready)
                        else Executing(old(worker.items), i, Caught)
      ensures executions == old(executions)
                            + [Execution(item, |claims| - 1, i, OutcomeOf(works))]
    {
      StartExecution(item, i);
      ghost var started := View();
      FinishExecution(works);
      ghost var finish := if works then Succeed else Break;
      RunSnoc(old(View()), [], Start);
      RunSnoc(old(View()), [] + [Start], finish);
      steps := [] + [Start] + [finish];
    }

    /** One statement, with an execution of its own. */
    method RunStatement(item: Item, i: nat, works: bool) returns (ghost steps: seq<Step>)
      requires worker.Executing? && worker.phase == Cleared && worker.next == i < |worker.items|
      requires item == worker.items[i] && status == Running && claims != []
      modifies `status, `executions, `worker, `failing
      ensures View() == Run(old(View()), steps)
      ensures worker == if works then Executing(old(worker.items), i + 1, Ready) else Free
      ensures status == if works then Running else Failed
      ensures executions == old(executions)
                            + [Execution(item, |claims| - 1, i, OutcomeOf(works))]
    {
      steps := StartAndFinish(item, i, works);
      if !works {
        RunSnoc(old(View()), steps, RecordFailure);
        FailBatch();
        steps := steps + [RecordFailure];
      }
    }

    /** One turn of the loop. */
    method ExecuteNext(items: seq<Item>, i: nat, cancelled: bool, works: bool)
      returns (goOn: bool, ghost steps: seq<Step>)
      requires worker == Executing(items, i, Ready) && i < |items| && status == Running && claims != []
      modifies `status, `executions, `worker, `failing
      ensures View() == Run(old(View()), steps)
      ensures goOn <==> !cancelled && works
      ensures worker == if goOn then Executing(items, i + 1, Ready) else Free
      ensures status == if cancelled then Cancelled else if works then Running else Failed
      ensures cancelled ==> executions == old(executions)
      ensures !cancelled ==> executions == old(executions) + [Execution(items[i], |claims| - 1, i, OutcomeOf(works))]
    {
      steps := LookAfter(cancelled);
      if status == Cancelled {
        return false, steps;
      }
      ghost var rest := RunStatement(items[i], i, works);
      RunConcat(old(View()), steps, rest);
      steps := steps + rest;
      goOn := works;
    }

    /** The turn behind k statements that have run. */
    method ExecuteAfter(items: seq<Item>, k: nat, cancelled: bool, works: bool,
                        ghost start: State, ghost before: seq<Step>, ghost ran: seq<Execution>)
      returns (goOn: bool, ghost steps: seq<Step>)
      requires worker == Executing(items, k, Ready) && k < |items| && status == Running && claims != []
      requires View() == Run(start, before) && executions == RanUntil(ran, items, |claims| - 1, k, false)
      modifies `status, `executions, `worker, `failing
      ensures View() == Run(start, steps)
      ensures goOn <==> !cancelled && works
      ensures worker == if goOn then Executing(items, k + 1, Ready) else Free
      ensures status == if cancelled then Cancelled else if works then Running else Failed
      ensures executions == if goOn then RanUntil(ran, items, |claims| - 1, k + 1, false)
                            else RanUntil(ran, items, |claims| - 1, k, !cancelled)
    {
      ghost var turn;
      goOn, turn := ExecuteNext(items, k, cancelled, works);
      RunConcat(start, before, turn);
      RanOneMore(ran, items, |claims| - 1, k);
      steps := before + turn;
    }

    /** After the last statement. */
    method EndBatch(cancelled: bool) returns (ghost steps: seq<Step>)
      requires worker.Executing? && worker.phase == Ready && worker.next >= |worker.items| && status == Running
      modifies `status, `worker
      ensures View() == Run(old(View()), steps) && worker == Free
      ensures status == if cancelled then Cancelled else Completed
    {
      steps := [];
      if cancelled {
        var _ := Cancel();
        RunSnoc(old(View()), steps, Step.Cancel);
        steps := steps + [Step.Cancel];
      }
      RunSnoc(old(View()), steps, Complete);
      CompleteBatch();
      steps := steps + [Complete];
    }

    /** The loop over the statements of a claim, up to the first failure or
        cancellation. */
    method ExecuteItems(items: seq<Item>, cancels: seq<bool>, works: seq<bool>)
      returns (k: nat, ghost steps: seq<Step>)
      requires worker == Executing(items, 0, Ready) && status == Running && claims != []
      requires |cancels| == |items| + 1 && |works| == |items|
      modifies `status, `executions, `worker, `failing
      ensures View() == Run(old(View()), steps)
      ensures k <= |items| && AllPass(cancels, works, k)
      ensures k < |items| ==> worker == Free && (cancels[k] || !works[k])
                              && status == if cancels[k] then Cancelled else Failed
      ensures k == |items| ==> worker == Executing(items, k, Ready) && status == Running
      ensures executions == RanUntil(old(executions), items, |claims| - 1, k, k < |items| && !cancels[k])
    {
      k, steps := 0, [];
      ghost var start, before, claim := View(), executions, |claims| - 1;
      RanNothing(before, items, claim);
      while k < |items|
        invariant k <= |items| && AllPass(cancels, works, k)
        invariant worker == Executing(items, k, Ready) && status == Running
        invariant View() == Run(start, steps) && |claims| - 1 == claim
        invariant executions == RanUntil(before, items, claim, k, false)
      {
        var goOn;
        goOn, steps := ExecuteAfter(items, k, cancels[k], works[k], start, steps, before);
        if !goOn {
          return;
        }
        k := k + 1;
      }
    }

    /** A claimed batch. `cancels[i]` says whether the request is cancelled
        before statement i is looked at, and `works[i]` whether the statement
        works. What has run is a prefix of the claim, each statement once and in
        order; the first failure or cancellation ends it, and the request's
        status says which. */
    method ExecuteBatch(items: seq<Item>, cancels: seq<bool>, works: seq<bool>)
      returns (k: nat, ghost steps: seq<Step>)
      requires worker == Executing(items, 0, Ready) && status == Running && claims != []
      requires |cancels| == |items| + 1 && |works| == |items|
      modifies `status, `executions, `worker, `failing
      ensures View() == Run(old(View()), steps) && worker == Free
      ensures k <= |items| && forall j | 0 <= j < k :: !cancels[j] && works[j]
      ensures k < |items| ==> cancels[k] || !works[k]
      ensures status == if cancels[k] then Cancelled else if k == |items| then Completed else Failed
      ensures executions == RanUntil(old(executions), items, |claims| - 1, k, k < |items| && !cancels[k])
    {
      k, steps := ExecuteItems(items, cancels, works);
      if k == |items| {
        ghost var last := EndBatch(cancels[k]);
        RunConcat(old(View()), steps, last);
        steps := steps + last;
      }
    }

    /** `failed`, run by the queue. */
    method HandleFailure()
      requires failing > 0
      modifies `status, `failing
      ensures View() == Next(old(View()), Step.HandleFailure)
      ensures failing == old(failing) - 1
      ensures status == if old(status) in {Completed, Failed, Rejected, Cancelled} then old(status) else Failed
    {
      failing := failing - 1;
      if !Terminal(status) {
        status := Failed;
      }
    }
  }
}
