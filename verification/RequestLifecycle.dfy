/**
  One governed query request as a state machine.

  A step is one locked transaction on the request's row, one unlocked read of
  the queue worker, or one write to the executions of a statement. Requesters,
  editors, reviewers, dispatchers, cancellers, retriers, the worker and the
  queue's failure handler take steps in any order; who may take one, what the
  policy answers at that moment and whether the preflight blocks are parameters
  of the step.

  Next is total: a step that is refused leaves the state as it is.
*/
module RequestLifecycle {
  import opened Base

  type User = nat

  datatype Kind = Read | Write

  /** What is run: some SQL of some kind against some connection. */
  datatype Text = Text(connection: nat, sql: string, kind: Kind)

  /** A row of the batch. Ids are never reused. */
  datatype Statement = Statement(id: nat, position: nat, text: Text)

  datatype RequestStatus =
    | Draft
    | PendingReview
    | Approved
    | Scheduled
    | Rejected
    | Running
    | Completed
    | Failed
    | Cancelled

  datatype Row = Row(
    requester: User,
    status: RequestStatus,
    revision: nat,
    statements: seq<Statement>,
    kind: Kind,
    approvedBy: Option<User>,
    dispatched: bool)

  /** What a worker runs; without a statement row it is the request's own SQL. */
  datatype Item = Item(statement: Option<nat>, position: nat, text: Text)

  datatype Outcome = Started | Succeeded | Broken

  datatype Execution = Execution(item: Item, claim: nat, index: nat, outcome: Outcome)

  datatype Review = Review(revision: nat, reviewer: User, approved: bool)

  /** The user who wrote a revision's content, and whether as an admin. */
  datatype Author = Author(user: User, admin: bool)

  /** `approvalRequired` is what the requester's policy said about approval. */
  datatype Claim = Claim(
    revision: nat,
    from: nat,
    items: seq<Item>,
    kind: Kind,
    approvalRequired: bool,
    approvedBy: Option<User>)

  /** Everything that ever happened; only executions and reviews are rows. */
  datatype Log = Log(
    reviews: seq<Review>,
    authors: map<nat, Author>,
    contents: map<nat, seq<Statement>>,
    executions: seq<Execution>,
    claims: seq<Claim>)

  datatype Phase = Ready | Cleared | InFlight | Caught

  datatype Worker =
    | Free
    | Checked(from: nat)
    | Executing(items: seq<Item>, next: nat, phase: Phase)

  /** `jobs` are queued jobs with the position each resumes from; `failing`
      counts jobs whose failure handler has not run yet. */
  datatype State = State(
    row: Row,
    nextId: nat,
    log: Log,
    jobs: seq<nat>,
    worker: Worker,
    failing: nat)

  datatype Step =
    | Update(actor: User, admin: bool, needsApproval: bool, later: bool, blocked: bool, batch: seq<Text>)
    | SaveDraft(batch: seq<Text>)
    | Decide(reviewer: User, approve: bool, expected: nat, blocked: bool, later: bool)
    | Withdraw
    | Dispatch(blocked: bool, needsApproval: bool)
    | Cancel
    | Retry(needsApproval: bool)
    // The queue and its worker
    | Pick(job: nat)
    | Lose(job: nat)
    | TurnBack
    | ClaimBatch(disabled: bool, needsApproval: bool)
    | Look
    | Start
    | Succeed
    | Break
    | RecordFailure
    | Complete
    | Die
    | HandleFailure

  // ---------------------------------------------------------------------
  // Batches

  function Numbered(batch: seq<Text>, firstId: nat): (r: seq<Statement>)
    ensures |r| == |batch|
  {
    seq(|batch|, i requires 0 <= i < |batch| => Statement(firstId + i, i + 1, batch[i]))
  }

  function BatchKind(batch: seq<Text>): (r: Kind)
    ensures r == Read <==> forall text | text in batch :: text.kind == Read
  {
    if exists text | text in batch :: text.kind == Write then Write else Read
  }

  /** Until a draft is submitted its statements count as writes. */
  function AsDraft(batch: seq<Text>): (r: seq<Text>)
    ensures |r| == |batch| && forall text | text in r :: text.kind == Write
  {
    seq(|batch|, i requires 0 <= i < |batch| => batch[i].(kind := Write))
  }

  /** The statements from a position on, as the worker filters them. */
  function From(statements: seq<Statement>, position: nat): seq<Item> {
    if statements == [] then []
    else if statements[0].position >= position
    then [Item(Some(statements[0].id), statements[0].position, statements[0].text)] + From(statements[1..], position)
    else From(statements[1..], position)
  }

  /** A batch with nothing left falls back on the request's own SQL, that of
      its first statement, under the request's own kind. */
  function ToRun(statements: seq<Statement>, kind: Kind, position: nat): (r: seq<Item>)
    ensures r != []
  {
    var items := From(statements, position);
    if items != [] then items
    else if statements == [] then [Item(None, 1, Text(0, "", kind))]
    else [Item(None, 1, statements[0].text.(kind := kind))]
  }

  function PositionOf(statements: seq<Statement>, id: Option<nat>): Option<nat> {
    if statements == [] then None
    else if id == Some(statements[0].id) then Some(statements[0].position)
    else PositionOf(statements[1..], id)
  }

  /** The position of the last failed execution's statement; the first position
      when nothing failed or the statement has been replaced since. */
  function RetryFrom(statements: seq<Statement>, executions: seq<Execution>): nat
    decreases |executions|
  {
    if executions == [] then 1
    else
      var last := executions[|executions| - 1];
      if last.outcome != Broken then RetryFrom(statements, executions[..|executions| - 1])
      else
        match PositionOf(statements, last.item.statement)
        case Some(position) => position
        case None => 1
  }

  // ---------------------------------------------------------------------
  // Rows

  predicate Editable(row: Row) {
    !row.dispatched && row.status in {Draft, PendingReview, Approved, Rejected, Scheduled}
  }

  predicate Terminal(status: RequestStatus) {
    status in {Completed, Failed, Rejected, Cancelled}
  }

  predicate Runnable(row: Row) {
    row.status in {Approved, Running}
  }

  /** `requestRequiresFreshApproval`, given what the policy says. */
  predicate NeedsFreshApproval(row: Row, needsApproval: bool) {
    needsApproval && (row.approvedBy.None? || row.approvedBy == Some(row.requester))
  }

  function ReadyStatus(later: bool): RequestStatus {
    if later then Scheduled else Approved
  }

  /** A new revision with the old content. */
  function Reopened(s: State, status: RequestStatus): State {
    var revision := s.row.revision + 1;
    s.(row := s.row.(status := status, approvedBy := None, dispatched := false, revision := revision),
       log := s.log.(contents := s.log.contents[revision := s.row.statements]))
  }

  /** A new revision with new content. */
  function Rewritten(s: State, status: RequestStatus, approvedBy: Option<User>, kind: Kind, batch: seq<Text>,
                     author: Author): State
  {
    var revision := s.row.revision + 1;
    var statements := Numbered(batch, s.nextId);
    s.(row := Row(s.row.requester, status, revision, statements, kind, approvedBy, false),
       nextId := s.nextId + |batch|,
       log := s.log.(contents := s.log.contents[revision := statements],
                     authors := s.log.authors[revision := author]))
  }

  /** A new request, its author being its requester. */
  function Created(requester: User, admin: bool, needsApproval: bool, later: bool, batch: seq<Text>): State {
    var statements := Numbered(batch, 0);
    State(
      Row(requester, if needsApproval then PendingReview else ReadyStatus(later), 1, statements, BatchKind(batch),
          if needsApproval then None else Some(requester), false),
      |batch|,
      Log([], map[1 := Author(requester, admin)], map[1 := statements], [], []),
      [], Free, 0)
  }

  function CreatedDraft(requester: User, admin: bool, batch: seq<Text>): State {
    var statements := Numbered(AsDraft(batch), 0);
    State(
      Row(requester, Draft, 1, statements, Write, None, false),
      |batch|,
      Log([], map[1 := Author(requester, admin)], map[1 := statements], [], []),
      [], Free, 0)
  }

  function Texts(items: seq<Item>): (r: seq<Text>)
    ensures |r| == |items|
  {
    seq(|items|, i requires 0 <= i < |items| => items[i].text)
  }

  /** A linked retry: what is left of the failed batch, renumbered, under the
      failed request's own kind and for its requester. */
  function RetryRequest(s: State, admin: bool, needsApproval: bool): State {
    var batch := Texts(ToRun(s.row.statements, s.row.kind, RetryFrom(s.row.statements, s.log.executions)));
    var created := Created(s.row.requester, admin, needsApproval, false, batch);
    created.(row := created.row.(kind := s.row.kind))
  }

  // ---------------------------------------------------------------------
  // Steps of people

  /** The actor is the requester or an admin, and an admin never needs
      approval. */
  function UpdateStep(s: State, actor: User, admin: bool, needsApproval: bool, later: bool, blocked: bool,
                      batch: seq<Text>): State
  {
    if (admin || actor == s.row.requester) && (needsApproval ==> !admin) && batch != []
       && Editable(s.row) && !(s.row.status == Draft && blocked)
    then Rewritten(s, if needsApproval then PendingReview else ReadyStatus(later),
                   if needsApproval then None else Some(actor), BatchKind(batch), batch, Author(actor, admin))
    else s
  }

  /** Saving a draft leaves no approval; who saves it does not matter. */
  function SaveDraftStep(s: State, batch: seq<Text>): State {
    if s.row.status == Draft && batch != []
    then Rewritten(s, Draft, None, Write, AsDraft(batch), Author(s.row.requester, false))
    else s
  }

  function DecideStep(s: State, reviewer: User, approve: bool, expected: nat, blocked: bool, later: bool): State {
    if s.row.status == PendingReview && reviewer != s.row.requester && s.row.revision == expected
       && !(approve && blocked)
    then
      s.(row := if approve then s.row.(status := ReadyStatus(later), approvedBy := Some(reviewer))
                else s.row.(status := Rejected),
         log := s.log.(reviews := s.log.reviews + [Review(s.row.revision, reviewer, approve)]))
    else s
  }

  function WithdrawStep(s: State): State {
    if s.row.status == PendingReview && !s.row.dispatched then Reopened(s, Draft) else s
  }

  function DispatchStep(s: State, blocked: bool, needsApproval: bool): State {
    if s.row.dispatched || s.row.status !in {Approved, Scheduled} then s
    else if blocked then s.(row := s.row.(status := Approved))
    else if NeedsFreshApproval(s.row, needsApproval) then Reopened(s, PendingReview)
    else s.(row := s.row.(status := Approved, dispatched := true), jobs := s.jobs + [1])
  }

  function CancelStep(s: State): State {
    if s.row.status in {Draft, PendingReview, Approved, Scheduled, Running}
    then s.(row := s.row.(status := Cancelled))
    else s
  }

  /** A failed read resumes in place; anything else gets a linked request of
      its own and leaves this one as it is. */
  function RetryStep(s: State, needsApproval: bool): State {
    if s.row.status == Failed && s.row.kind == Read && !NeedsFreshApproval(s.row, needsApproval)
    then s.(row := s.row.(status := Approved, dispatched := true),
            jobs := s.jobs + [RetryFrom(s.row.statements, s.log.executions)])
    else s
  }

  // ---------------------------------------------------------------------
  // Steps of the worker

  function Without(jobs: seq<nat>, i: nat): (r: seq<nat>)
    requires i < |jobs|
    ensures |r| == |jobs| - 1
  {
    jobs[..i] + jobs[i + 1..]
  }

  /** A free worker takes a job and reads the status without a lock. */
  function PickStep(s: State, job: nat): State {
    if job < |s.jobs| && s.worker.Free?
    then s.(jobs := Without(s.jobs, job), worker := if Runnable(s.row) then Checked(s.jobs[job]) else Free)
    else s
  }

  /** A job is dropped because another one runs, or lost before it is queued. */
  function LoseStep(s: State, job: nat): State {
    if job < |s.jobs| then s.(jobs := Without(s.jobs, job)) else s
  }

  function Returned(s: State): State {
    s.(row := s.row.(status := Approved, dispatched := false), worker := Free)
  }

  /** The preflight blocks. */
  function TurnBackStep(s: State): State {
    if !s.worker.Checked? then s
    else if Runnable(s.row) then Returned(s)
    else s.(worker := Free)
  }

  function ClaimBatchStep(s: State, disabled: bool, needsApproval: bool): State {
    if !s.worker.Checked? then s
    else if !Runnable(s.row) then s.(worker := Free)
    else if disabled then Returned(s)
    else if NeedsFreshApproval(s.row, needsApproval) then Reopened(s, PendingReview).(worker := Free)
    else
      var from := s.worker.from;
      var items := ToRun(s.row.statements, s.row.kind, from);
      s.(row := s.row.(status := Running),
         log := s.log.(claims := s.log.claims
                       + [Claim(s.row.revision, from, items, s.row.kind, needsApproval, s.row.approvedBy)]),
         worker := Executing(items, 0, Ready))
  }

  /** The unlocked look at the status before a statement. */
  function LookStep(s: State): State {
    if s.worker.Executing? && s.worker.phase == Ready && s.worker.next < |s.worker.items|
    then s.(worker := if s.row.status == Cancelled then Free else Executing(s.worker.items, s.worker.next, Cleared))
    else s
  }

  function StartStep(s: State): State {
    if s.worker.Executing? && s.worker.phase == Cleared && s.worker.next < |s.worker.items| && s.log.claims != []
    then s.(log := s.log.(executions := s.log.executions
                          + [Execution(s.worker.items[s.worker.next], |s.log.claims| - 1, s.worker.next, Started)]),
            worker := Executing(s.worker.items, s.worker.next, InFlight))
    else s
  }

  /** Writes the outcome of the execution that was started last. */
  function Marked(executions: seq<Execution>, outcome: Outcome): (r: seq<Execution>)
    ensures |r| == |executions|
  {
    if executions == [] then []
    else executions[|executions| - 1 := executions[|executions| - 1].(outcome := outcome)]
  }

  function SucceedStep(s: State): State {
    if s.worker.Executing? && s.worker.phase == InFlight
    then s.(log := s.log.(executions := Marked(s.log.executions, Succeeded)),
            worker := Executing(s.worker.items, s.worker.next + 1, Ready))
    else s
  }

  function BreakStep(s: State): State {
    if s.worker.Executing? && s.worker.phase == InFlight
    then s.(log := s.log.(executions := Marked(s.log.executions, Broken)),
            worker := Executing(s.worker.items, s.worker.next, Caught))
    else s
  }

  /** The catch block records the failure and throws, which sends the job to its
      failure handler; a cancelled request is left alone. */
  function RecordFailureStep(s: State): State {
    if !(s.worker.Executing? && s.worker.phase == Caught) then s
    else if s.row.status == Cancelled then s.(worker := Free)
    else s.(row := s.row.(status := Failed), worker := Free, failing := s.failing + 1)
  }

  function CompleteStep(s: State): State {
    if !(s.worker.Executing? && s.worker.phase == Ready && s.worker.next >= |s.worker.items|) then s
    else if s.row.status == Cancelled then s.(worker := Free)
    else s.(row := s.row.(status := Completed), worker := Free)
  }

  /** The job times out or throws anywhere. */
  function DieStep(s: State): State {
    if s.worker.Free? then s else s.(worker := Free, failing := s.failing + 1)
  }

  function HandleFailureStep(s: State): State {
    if s.failing == 0 then s
    else s.(failing := s.failing - 1, row := if Terminal(s.row.status) then s.row else s.row.(status := Failed))
  }

  function Next(s: State, step: Step): State {
    match step
    case Update(actor, admin, needsApproval, later, blocked, batch) =>
      UpdateStep(s, actor, admin, needsApproval, later, blocked, batch)
    case SaveDraft(batch) => SaveDraftStep(s, batch)
    case Decide(reviewer, approve, expected, blocked, later) =>
      DecideStep(s, reviewer, approve, expected, blocked, later)
    case Withdraw => WithdrawStep(s)
    case Dispatch(blocked, needsApproval) => DispatchStep(s, blocked, needsApproval)
    case Cancel => CancelStep(s)
    case Retry(needsApproval) => RetryStep(s, needsApproval)
    case Pick(job) => PickStep(s, job)
    case Lose(job) => LoseStep(s, job)
    case TurnBack => TurnBackStep(s)
    case ClaimBatch(disabled, needsApproval) => ClaimBatchStep(s, disabled, needsApproval)
    case Look => LookStep(s)
    case Start => StartStep(s)
    case Succeed => SucceedStep(s)
    case Break => BreakStep(s)
    case RecordFailure => RecordFailureStep(s)
    case Complete => CompleteStep(s)
    case Die => DieStep(s)
    case HandleFailure => HandleFailureStep(s)
  }

  function Run(s: State, steps: seq<Step>): State
    decreases |steps|
  {
    if steps == [] then s else Run(Next(s, steps[0]), steps[1..])
  }

  lemma {:induction false} RunConcat(s: State, a: seq<Step>, b: seq<Step>)
    ensures Run(s, a + b) == Run(Run(s, a), b)
    decreases |a|
  {
    if a == [] {
      assert a + b == b;
    } else {
      assert (a + b)[1..] == a[1..] + b;
      RunConcat(Next(s, a[0]), a[1..], b);
    }
  }

  lemma RunCons(s: State, step: Step, steps: seq<Step>)
    ensures Run(s, [step] + steps) == Run(Next(s, step), steps)
  {
    assert ([step] + steps)[1..] == steps;
  }

  lemma RunThree(s: State, a: Step, b: Step, c: Step)
    ensures Run(s, [a, b, c]) == Next(Next(Next(s, a), b), c)
  {
    RunCons(s, a, [b, c]);
    RunCons(Next(s, a), b, [c]);
    RunCons(Next(Next(s, a), b), c, []);
    assert [a, b, c] == [a] + [b, c];
    assert [b, c] == [b] + [c];
    assert [c] == [c] + [];
  }
}
