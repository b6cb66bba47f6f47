/**
  What holds of a request in every run in which a failed job's handler has run
  before the failure is retried: writes start at most once, and a resumed read
  skips nothing. Without that proviso neither holds, and no weaker one will do:
  a retry accepted too early can always be followed by a write started twice.
*/
module RequestRuns {
  import opened Base
  import opened RequestLifecycle
  import opened RequestSafety

  /** The proviso: a retry is accepted only once the failure handler of the job
      that failed has run. */
  predicate Prompt(s: State, step: Step) {
    step.Retry? ==> s.failing == 0
  }

  ghost predicate PromptRun(s: State, steps: seq<Step>)
    decreases |steps|
  {
    steps == [] || (Prompt(s, steps[0]) && PromptRun(Next(s, steps[0]), steps[1..]))
  }

  // ---------------------------------------------------------------------
  // The batch

  /** Statements are numbered from 1, with consecutive ids. */
  ghost predicate Consecutive(statements: seq<Statement>, nextId: nat) {
    forall i | 0 <= i < |statements| ::
      && statements[i].position == i + 1 && statements[i].id < nextId
      && statements[i].id == statements[0].id + i
  }

  ghost predicate BatchInv(row: Row, nextId: nat) {
    && Consecutive(row.statements, nextId)
    && (row.kind == Read ==> forall statement | statement in row.statements :: statement.text.kind == Read)
  }

  lemma NumberedIsConsecutive(batch: seq<Text>, firstId: nat)
    ensures Consecutive(Numbered(batch, firstId), firstId + |batch|)
    ensures BatchKind(batch) == Read ==>
              forall statement | statement in Numbered(batch, firstId) :: statement.text.kind == Read
  {
    forall statement | BatchKind(batch) == Read && statement in Numbered(batch, firstId)
      ensures statement.text.kind == Read
    {
      var i :| 0 <= i < |batch| && Numbered(batch, firstId)[i] == statement;
      assert batch[i] in batch;
    }
  }

  // ---------------------------------------------------------------------
  // One job at a time

  function Busy(jobs: seq<nat>, worker: Worker, failing: nat): nat {
    |jobs| + (if worker.Free? then 0 else 1) + failing
  }

  /** At most one job is queued, running or about to report its failure. */
  ghost predicate QueueInv(row: Row, jobs: seq<nat>, worker: Worker, failing: nat) {
    && Busy(jobs, worker, failing) <= 1
    && (Busy(jobs, worker, failing) == 1 ==> row.dispatched)
    && (row.dispatched ==> row.status in {Approved, Running, Failed, Completed, Cancelled})
    && (row.status in {Running, Failed, Completed} ==> row.dispatched && jobs == [])
    && (row.status in {Failed, Completed} ==> worker.Free?)
    && (worker.Executing? ==> row.status in {Running, Cancelled})
    && (worker.Checked? ==> row.status in {Approved, Cancelled})
  }

  lemma StepKeepsQueueInv(s: State, step: Step)
    requires QueueInv(s.row, s.jobs, s.worker, s.failing) && Prompt(s, step)
    ensures var t := Next(s, step); QueueInv(t.row, t.jobs, t.worker, t.failing)
  {
  }

  lemma StepKeepsBatchInv(s: State, step: Step)
    requires BatchInv(s.row, s.nextId)
    ensures BatchInv(Next(s, step).row, Next(s, step).nextId)
  {
    match step
    case Update(actor, admin, needsApproval, later, blocked, batch) => NumberedIsConsecutive(batch, s.nextId);
    case SaveDraft(batch) => NumberedIsConsecutive(AsDraft(batch), s.nextId);
    case _ =>
  }

  // ---------------------------------------------------------------------
  // What a claim runs

  function ItemOf(statement: Statement): Item {
    Item(Some(statement.id), statement.position, statement.text)
  }

  /** How many statements come before a position. */
  function Skipped(statements: seq<Statement>, position: nat): (n: nat)
    ensures n <= |statements|
  {
    if position == 0 then 0 else if position - 1 <= |statements| then position - 1 else |statements|
  }

  lemma {:induction false} FromNumbered(statements: seq<Statement>, first: nat, position: nat)
    requires forall i | 0 <= i < |statements| :: statements[i].position == first + i
    ensures var skipped := if position <= first then 0
                           else if position - first <= |statements| then position - first else |statements|;
            && |From(statements, position)| == |statements| - skipped
            && forall k | 0 <= k < |statements| - skipped ::
                 From(statements, position)[k] == ItemOf(statements[skipped + k])
    decreases |statements|
  {
    if statements != [] {
      var rest := statements[1..];
      assert forall i | 0 <= i < |rest| :: rest[i] == statements[i + 1];
      FromNumbered(rest, first + 1, position);
      if position <= first {
        assert From(statements, position) == [ItemOf(statements[0])] + From(rest, position);
      } else {
        assert From(statements, position) == From(rest, position);
      }
    }
  }

  /** The worker's filter takes a suffix of the batch. */
  lemma FromIsSuffix(statements: seq<Statement>, nextId: nat, position: nat)
    requires Consecutive(statements, nextId)
    ensures var skipped := Skipped(statements, position);
            && |From(statements, position)| == |statements| - skipped
            && forall k | 0 <= k < |statements| - skipped ::
                 From(statements, position)[k] == ItemOf(statements[skipped + k])
  {
    FromNumbered(statements, 1, position);
  }

  /** Items come in the order of their positions, and are reads when the
      request is one. */
  ghost predicate ItemsInv(items: seq<Item>, kind: Kind) {
    && (forall i, j | 0 <= i < j < |items| :: items[i].position < items[j].position)
    && (kind == Read ==> forall item | item in items :: item.text.kind == Read)
  }

  lemma ToRunInv(row: Row, nextId: nat, position: nat)
    requires BatchInv(row, nextId)
    ensures ItemsInv(ToRun(row.statements, row.kind, position), row.kind)
  {
    FromIsSuffix(row.statements, nextId, position);
  }

  // ---------------------------------------------------------------------
  // Writes are claimed at most once

  /** A claim of a write is the last, and nothing after it makes the request
      runnable again. */
  ghost predicate WriteInv(row: Row, claims: seq<Claim>) {
    && (forall claim | claim in claims :: ItemsInv(claim.items, claim.kind))
    && (forall i | 0 <= i < |claims| && claims[i].kind == Write ::
          i == |claims| - 1 && row.kind == Write && row.status in {Running, Completed, Failed, Cancelled})
  }

  lemma StepKeepsWriteInv(s: State, step: Step)
    requires QueueInv(s.row, s.jobs, s.worker, s.failing) && Prompt(s, step)
    requires BatchInv(s.row, s.nextId) && WriteInv(s.row, s.log.claims)
    ensures WriteInv(Next(s, step).row, Next(s, step).log.claims)
  {
    if step.ClaimBatch? && s.worker.Checked? {
      ToRunInv(s.row, s.nextId, s.worker.from);
    }
  }

  // ---------------------------------------------------------------------
  // Statements start in order

  predicate Precedes(a: Execution, b: Execution) {
    a.claim < b.claim || (a.claim == b.claim && a.index < b.index)
  }

  /** Executions follow the claims, and within a claim its items. */
  ghost predicate OrderInv(executions: seq<Execution>, claims: nat, worker: Worker) {
    && (forall i, j | 0 <= i < j < |executions| :: Precedes(executions[i], executions[j]))
    && (forall e | e in executions :: e.claim < claims)
    && (worker.Executing? ==>
          && claims > 0
          && (forall e | e in executions && e.claim == claims - 1 ::
                e.index < worker.next + (if worker.phase in {InFlight, Caught} then 1 else 0))
          && (worker.phase == InFlight ==>
                && executions != [] && worker.next < |worker.items|
                && executions[|executions| - 1].outcome == Started
                && executions[|executions| - 1].item == worker.items[worker.next]))
  }

  lemma StartKeepsOrder(executions: seq<Execution>, claims: nat, worker: Worker)
    requires OrderInv(executions, claims, worker) && AboutToStart(worker) && worker.next < |worker.items|
    ensures OrderInv(executions + [Execution(worker.items[worker.next], claims - 1, worker.next, Started)], claims,
                     Executing(worker.items, worker.next, InFlight))
  {
  }

  lemma OutcomeKeepsOrder(executions: seq<Execution>, claims: nat, worker: Worker, outcome: Outcome)
    requires OrderInv(executions, claims, worker) && worker.Executing? && worker.phase == InFlight
    ensures OrderInv(Marked(executions, outcome), claims, Executing(worker.items, worker.next + 1, Ready))
    ensures OrderInv(Marked(executions, outcome), claims, Executing(worker.items, worker.next, Caught))
  {
    var marked := Marked(executions, outcome);
    forall x | x in marked
      ensures x.claim < claims && (x.claim == claims - 1 ==> x.index < worker.next + 1)
    {
      var i :| 0 <= i < |marked| && marked[i] == x;
      assert executions[i] in executions;
    }
  }

  lemma StepKeepsOrderInv(s: State, step: Step)
    requires OrderInv(s.log.executions, |s.log.claims|, s.worker)
    ensures OrderInv(Next(s, step).log.executions, |Next(s, step).log.claims|, Next(s, step).worker)
  {
    if step.Start? && AboutToStart(s.worker) && s.worker.next < |s.worker.items| {
      StartKeepsOrder(s.log.executions, |s.log.claims|, s.worker);
    } else if (step.Succeed? || step.Break?) && s.worker.Executing? && s.worker.phase == InFlight {
      OutcomeKeepsOrder(s.log.executions, |s.log.claims|, s.worker, if step.Succeed? then Succeeded else Broken);
    } else {
      OtherStepKeepsOrder(s, step);
    }
  }

  lemma OtherStepKeepsOrder(s: State, step: Step)
    requires OrderInv(s.log.executions, |s.log.claims|, s.worker)
    requires step.Start? ==> !(AboutToStart(s.worker) && s.worker.next < |s.worker.items|)
    requires step.Succeed? || step.Break? ==> !(s.worker.Executing? && s.worker.phase == InFlight)
    ensures OrderInv(Next(s, step).log.executions, |Next(s, step).log.claims|, Next(s, step).worker)
  {
    assert Next(s, step).log.executions == s.log.executions;
  }

  // ---------------------------------------------------------------------
  // A resumed batch skips nothing

  ghost predicate HasSucceeded(executions: seq<Execution>, id: nat) {
    exists e :: e in executions && e.outcome == Succeeded && e.item.statement == Some(id)
  }

  /** Every statement before a position has a succeeded execution. */
  ghost predicate Covered(statements: seq<Statement>, executions: seq<Execution>, position: nat) {
    forall statement | statement in statements && statement.position < position ::
      HasSucceeded(executions, statement.id)
  }

  /** Executions point at statements that exist or existed, and whichever still
      exists has only succeeded ones before it. */
  ghost predicate LinksInv(statements: seq<Statement>, executions: seq<Execution>, nextId: nat) {
    && (forall e | e in executions && e.item.statement.Some? :: e.item.statement.value < nextId)
    && (forall e, statement |
          e in executions && statement in statements && e.item.statement == Some(statement.id) ::
          Covered(statements, executions, statement.position))
  }

  /** A job resumes after succeeded statements only, and so does the worker at
      each statement. */
  ghost predicate CoverInv(row: Row, executions: seq<Execution>, jobs: seq<nat>, worker: Worker) {
    && (forall from | from in jobs :: Covered(row.statements, executions, from))
    && (worker.Checked? ==> Covered(row.statements, executions, worker.from))
    && (worker.Executing? ==>
          && (exists from: nat :: worker.items == ToRun(row.statements, row.kind, from))
          && (worker.next < |worker.items| ==>
                Covered(row.statements, executions, worker.items[worker.next].position)))
  }

  ghost predicate Keeps(before: seq<Execution>, after: seq<Execution>) {
    forall e | e in before && e.outcome == Succeeded :: e in after
  }

  lemma CoveredStays(statements: seq<Statement>, before: seq<Execution>, after: seq<Execution>, position: nat)
    requires Covered(statements, before, position) && Keeps(before, after)
    ensures Covered(statements, after, position)
  {
    forall statement | statement in statements && statement.position < position
      ensures HasSucceeded(after, statement.id)
    {
      var e :| e in before && e.outcome == Succeeded && e.item.statement == Some(statement.id);
      assert e in after;
    }
  }

  lemma {:induction false} PositionOfStatement(statements: seq<Statement>, id: Option<nat>)
    ensures PositionOf(statements, id).Some? ==>
              exists statement :: statement in statements && id == Some(statement.id)
                                  && statement.position == PositionOf(statements, id).value
    decreases |statements|
  {
    if statements != [] && id != Some(statements[0].id) {
      PositionOfStatement(statements[1..], id);
    } else if statements != [] {
      assert statements[0] in statements;
    }
  }

  /** Where a retry resumes from, everything before has succeeded. */
  lemma {:induction false} RetrySkipsNothing(statements: seq<Statement>, all: seq<Execution>,
                                             executions: seq<Execution>, nextId: nat)
    requires Consecutive(statements, nextId) && LinksInv(statements, all, nextId)
    requires forall e | e in executions :: e in all
    ensures Covered(statements, all, RetryFrom(statements, executions))
    decreases |executions|
  {
    if executions == [] {
    } else {
      var last := executions[|executions| - 1];
      if last.outcome != Broken {
        RetrySkipsNothing(statements, all, executions[..|executions| - 1], nextId);
      } else {
        PositionOfStatement(statements, last.item.statement);
        assert last in all;
      }
    }
  }

  /** The items of a claim are consecutive statements, the first no later than
      where the claim resumes; or the request's own SQL alone. */
  lemma ItemAt(statements: seq<Statement>, kind: Kind, nextId: nat, from: nat, k: nat)
    requires Consecutive(statements, nextId) && k < |ToRun(statements, kind, from)|
    ensures var items := ToRun(statements, kind, from);
            if From(statements, from) == [] then items[k].statement.None? && items[k].position == 1 && k == 0
            else
              && Skipped(statements, from) + k < |statements|
              && items[k] == ItemOf(statements[Skipped(statements, from) + k])
              && items[k].position == Skipped(statements, from) + k + 1
  {
    FromIsSuffix(statements, nextId, from);
  }

  lemma CoverAtClaim(row: Row, executions: seq<Execution>, nextId: nat, from: nat)
    requires Consecutive(row.statements, nextId) && Covered(row.statements, executions, from)
    ensures Covered(row.statements, executions, ToRun(row.statements, row.kind, from)[0].position)
  {
    ItemAt(row.statements, row.kind, nextId, from, 0);
  }

  /** After a statement has succeeded, everything before the next one has. */
  lemma CoverAtNext(row: Row, executions: seq<Execution>, nextId: nat, from: nat, k: nat)
    requires Consecutive(row.statements, nextId) && k + 1 < |ToRun(row.statements, row.kind, from)|
    requires Covered(row.statements, executions, ToRun(row.statements, row.kind, from)[k].position)
    requires exists e :: e in executions && e.outcome == Succeeded && e.item == ToRun(row.statements, row.kind, from)[k]
    ensures Covered(row.statements, executions, ToRun(row.statements, row.kind, from)[k + 1].position)
  {
    ItemAt(row.statements, row.kind, nextId, from, k);
    ItemAt(row.statements, row.kind, nextId, from, k + 1);
    var done := row.statements[Skipped(row.statements, from) + k];
    forall statement | statement in row.statements && statement.position < done.position + 1
      ensures HasSucceeded(executions, statement.id)
    {
      var i :| 0 <= i < |row.statements| && row.statements[i] == statement;
      if statement.position == done.position {
        assert HasSucceeded(executions, done.id);
      }
    }
  }

  lemma RewriteKeepsLinks(batch: seq<Text>, executions: seq<Execution>, nextId: nat)
    requires forall e | e in executions && e.item.statement.Some? :: e.item.statement.value < nextId
    ensures LinksInv(Numbered(batch, nextId), executions, nextId + |batch|)
  {
  }

  lemma LinksStay(statements: seq<Statement>, before: seq<Execution>, after: seq<Execution>, nextId: nat)
    requires LinksInv(statements, before, nextId) && Keeps(before, after)
    requires forall e | e in after :: exists e' :: e' in before && e'.item == e.item
    ensures LinksInv(statements, after, nextId)
  {
    forall e, statement | e in after && statement in statements && e.item.statement == Some(statement.id)
      ensures Covered(statements, after, statement.position)
    {
      var e' :| e' in before && e'.item == e.item;
      CoveredStays(statements, before, after, statement.position);
    }
  }

  lemma StartKeepsLinks(row: Row, executions: seq<Execution>, nextId: nat, worker: Worker, e: Execution)
    requires Consecutive(row.statements, nextId) && LinksInv(row.statements, executions, nextId)
    requires AboutToStart(worker) && worker.next < |worker.items| && e.item == worker.items[worker.next]
    requires CoverInv(row, executions, [], worker)
    ensures LinksInv(row.statements, executions + [e], nextId)
  {
    var after := executions + [e];
    var from: nat :| worker.items == ToRun(row.statements, row.kind, from);
    ItemAt(row.statements, row.kind, nextId, from, worker.next);
    forall x, statement | x in after && statement in row.statements && x.item.statement == Some(statement.id)
      ensures Covered(row.statements, after, statement.position)
    {
      if x in executions {
        CoveredStays(row.statements, executions, after, statement.position);
      } else {
        var i :| 0 <= i < |row.statements| && row.statements[i] == statement;
        assert statement.position == e.item.position;
        CoveredStays(row.statements, executions, after, statement.position);
      }
    }
  }

  /** The worker's place stays covered as executions are added or marked. */
  lemma WorkerStaysCovered(row: Row, before: seq<Execution>, after: seq<Execution>, worker: Worker, phase: Phase)
    requires worker.Executing? && CoverInv(row, before, [], worker) && Keeps(before, after)
    ensures CoverInv(row, after, [], Executing(worker.items, worker.next, phase))
  {
    if worker.next < |worker.items| {
      CoveredStays(row.statements, before, after, worker.items[worker.next].position);
    }
  }

  /** Marking touches the execution in flight only. */
  lemma MarkedKeeps(executions: seq<Execution>, outcome: Outcome)
    requires executions != [] && executions[|executions| - 1].outcome == Started
    ensures Keeps(executions, Marked(executions, outcome))
    ensures forall e | e in Marked(executions, outcome) :: exists e' :: e' in executions && e'.item == e.item
  {
    var marked := Marked(executions, outcome);
    forall e | e in executions && e.outcome == Succeeded ensures e in marked {
      var i :| 0 <= i < |executions| && executions[i] == e;
      assert marked[i] == e;
    }
    forall e | e in marked ensures exists e' :: e' in executions && e'.item == e.item {
      var i :| 0 <= i < |marked| && marked[i] == e;
      assert executions[i] in executions;
    }
  }

  ghost predicate SkipInv(s: State) {
    && LinksInv(s.row.statements, s.log.executions, s.nextId)
    && CoverInv(s.row, s.log.executions, s.jobs, s.worker)
  }

  lemma OutcomeKeepsSkipInv(s: State, outcome: Outcome)
    requires SkipInv(s) && s.jobs == [] && Consecutive(s.row.statements, s.nextId)
    requires OrderInv(s.log.executions, |s.log.claims|, s.worker)
    requires s.worker.Executing? && s.worker.phase == InFlight && outcome in {Succeeded, Broken}
    ensures SkipInv(if outcome == Succeeded then SucceedStep(s) else BreakStep(s))
  {
    var before := s.log.executions;
    var after := Marked(before, outcome);
    var worker := s.worker;
    MarkedKeeps(before, outcome);
    LinksStay(s.row.statements, before, after, s.nextId);
    WorkerStaysCovered(s.row, before, after, worker, Caught);
    if outcome == Succeeded && worker.next + 1 < |worker.items| {
      var from: nat :| worker.items == ToRun(s.row.statements, s.row.kind, from);
      assert after[|after| - 1] in after;
      CoverAtNext(s.row, after, s.nextId, from, worker.next);
    }
  }

  lemma StartKeepsSkipInv(s: State)
    requires SkipInv(s) && s.jobs == [] && Consecutive(s.row.statements, s.nextId)
    requires AboutToStart(s.worker) && s.worker.next < |s.worker.items| && s.log.claims != []
    ensures SkipInv(StartStep(s))
  {
    var e := Execution(s.worker.items[s.worker.next], |s.log.claims| - 1, s.worker.next, Started);
    StartKeepsLinks(s.row, s.log.executions, s.nextId, s.worker, e);
    WorkerStaysCovered(s.row, s.log.executions, s.log.executions + [e], s.worker, InFlight);
  }

  lemma ClaimKeepsSkipInv(s: State, disabled: bool, needsApproval: bool)
    requires SkipInv(s) && Consecutive(s.row.statements, s.nextId)
    requires QueueInv(s.row, s.jobs, s.worker, s.failing)
    ensures SkipInv(ClaimBatchStep(s, disabled, needsApproval))
  {
    if s.worker.Checked? {
      CoverAtClaim(s.row, s.log.executions, s.nextId, s.worker.from);
    }
  }

  /** Steps that leave the batch and its executions alone. */
  lemma QuietKeepsSkipInv(s: State, t: State)
    requires SkipInv(s) && t.log.executions == s.log.executions && t.nextId == s.nextId
    requires t.row.statements == s.row.statements && t.row.kind == s.row.kind
    requires forall from | from in t.jobs :: from in s.jobs || Covered(s.row.statements, s.log.executions, from)
    requires t.worker.Checked? ==> t.worker == s.worker || t.worker.from in s.jobs
    requires t.worker.Executing? ==> && s.worker.Executing? && t.worker.items == s.worker.items
                                     && t.worker.next == s.worker.next
    ensures SkipInv(t)
  {
  }

  lemma RetryKeepsSkipInv(s: State, needsApproval: bool)
    requires SkipInv(s) && BatchInv(s.row, s.nextId)
    ensures SkipInv(RetryStep(s, needsApproval))
  {
    RetrySkipsNothing(s.row.statements, s.log.executions, s.log.executions, s.nextId);
    QuietKeepsSkipInv(s, RetryStep(s, needsApproval));
  }

  lemma EditKeepsSkipInv(s: State, step: Step, batch: seq<Text>)
    requires SkipInv(s) && QueueInv(s.row, s.jobs, s.worker, s.failing)
    requires (step.Update? && batch == step.batch) || (step.SaveDraft? && batch == AsDraft(step.batch))
    ensures SkipInv(Next(s, step))
  {
    RewriteKeepsLinks(batch, s.log.executions, s.nextId);
  }

  lemma StepKeepsSkipInv(s: State, step: Step)
    requires SkipInv(s) && BatchInv(s.row, s.nextId) && OrderInv(s.log.executions, |s.log.claims|, s.worker)
    requires QueueInv(s.row, s.jobs, s.worker, s.failing)
    ensures SkipInv(Next(s, step))
  {
    match step
    case Update(actor, admin, needsApproval, later, blocked, batch) => EditKeepsSkipInv(s, step, batch);
    case SaveDraft(batch) => EditKeepsSkipInv(s, step, AsDraft(batch));
    case ClaimBatch(disabled, needsApproval) => ClaimKeepsSkipInv(s, disabled, needsApproval);
    case Start =>
      if AboutToStart(s.worker) && s.worker.next < |s.worker.items| && s.log.claims != [] {
        StartKeepsSkipInv(s);
      }
    case Succeed =>
      if s.worker.Executing? && s.worker.phase == InFlight {
        OutcomeKeepsSkipInv(s, Succeeded);
      }
    case Break =>
      if s.worker.Executing? && s.worker.phase == InFlight {
        OutcomeKeepsSkipInv(s, Broken);
      }
    case Retry(needsApproval) => RetryKeepsSkipInv(s, needsApproval);
    case _ => QuietKeepsSkipInv(s, Next(s, step));
  }

  // ---------------------------------------------------------------------
  // Whole runs

  /** Every claim left out only what had succeeded already. */
  ghost predicate ClaimsCovered(log: Log) {
    forall claim | claim in log.claims ::
      claim.revision in log.contents && Covered(log.contents[claim.revision], log.executions, claim.from)
  }

  lemma ExecutionsKeep(s: State, step: Step)
    requires OrderInv(s.log.executions, |s.log.claims|, s.worker)
    ensures Keeps(s.log.executions, Next(s, step).log.executions)
  {
    if (step.Succeed? || step.Break?) && s.worker.Executing? && s.worker.phase == InFlight {
      MarkedKeeps(s.log.executions, if step.Succeed? then Succeeded else Broken);
    }
  }

  lemma ContentsKeep(s: State, step: Step, revision: nat)
    requires revision in s.log.contents && revision <= s.row.revision
    ensures revision in Next(s, step).log.contents
    ensures Next(s, step).log.contents[revision] == s.log.contents[revision]
  {
  }

  /** A step adds the claim of a covered batch, or no claim. */
  lemma NewClaims(s: State, step: Step, claim: Claim)
    requires SkipInv(s) && claim in Next(s, step).log.claims && claim !in s.log.claims
    ensures claim.revision == s.row.revision && Next(s, step).log.executions == s.log.executions
    ensures Covered(s.row.statements, s.log.executions, claim.from)
  {
  }

  lemma StepKeepsClaimsCovered(s: State, step: Step)
    requires RequestSafety.Inv(s) && SkipInv(s) && ClaimsCovered(s.log)
    requires OrderInv(s.log.executions, |s.log.claims|, s.worker)
    ensures ClaimsCovered(Next(s, step).log)
  {
    var after := Next(s, step).log;
    ExecutionsKeep(s, step);
    forall claim | claim in after.claims
      ensures claim.revision in after.contents && Covered(after.contents[claim.revision], after.executions, claim.from)
    {
      if claim !in s.log.claims {
        NewClaims(s, step, claim);
      }
      ContentsKeep(s, step, claim.revision);
      CoveredStays(s.log.contents[claim.revision], s.log.executions, after.executions, claim.from);
    }
  }

  ghost predicate PromptInv(s: State) {
    && QueueInv(s.row, s.jobs, s.worker, s.failing) && BatchInv(s.row, s.nextId)
    && WriteInv(s.row, s.log.claims) && OrderInv(s.log.executions, |s.log.claims|, s.worker)
    && SkipInv(s) && ClaimsCovered(s.log)
  }

  lemma StepKeepsPromptInv(s: State, step: Step)
    requires RequestSafety.Inv(s) && PromptInv(s) && Prompt(s, step)
    ensures PromptInv(Next(s, step))
  {
    StepKeepsQueueInv(s, step);
    StepKeepsBatchInv(s, step);
    StepKeepsWriteInv(s, step);
    StepKeepsOrderInv(s, step);
    StepKeepsSkipInv(s, step);
    StepKeepsClaimsCovered(s, step);
  }

  lemma {:induction false} RunKeepsPromptInv(s: State, steps: seq<Step>)
    requires RequestSafety.Inv(s) && PromptInv(s) && PromptRun(s, steps)
    ensures RequestSafety.Inv(Run(s, steps)) && PromptInv(Run(s, steps))
    decreases |steps|
  {
    if steps == [] {
    } else {
      StepKeepsInv(s, steps[0]);
      StepKeepsPromptInv(s, steps[0]);
      RunKeepsPromptInv(Next(s, steps[0]), steps[1..]);
    }
  }

  /** A request just created whose kind covers its statements. */
  ghost predicate Begins(s: State) {
    Opened(s) && BatchInv(s.row, s.nextId)
  }

  lemma BeginsInv(s: State)
    requires Begins(s)
    ensures RequestSafety.Inv(s) && PromptInv(s)
  {
    OpenedInv(s);
  }

  lemma CreatedBegins(requester: User, admin: bool, needsApproval: bool, later: bool, batch: seq<Text>)
    ensures Begins(Created(requester, admin, needsApproval, later, batch))
    ensures Begins(CreatedDraft(requester, admin, batch))
  {
    CreatedIsOpened(requester, admin, needsApproval, later, batch, CreatedDraft(requester, admin, batch));
    NumberedIsConsecutive(batch, 0);
    NumberedIsConsecutive(AsDraft(batch), 0);
  }

  /** A linked retry is a request like any other. */
  lemma RetryRequestBegins(s: State, admin: bool, needsApproval: bool)
    requires BatchInv(s.row, s.nextId)
    ensures Begins(RetryRequest(s, admin, needsApproval))
  {
    var from := RetryFrom(s.row.statements, s.log.executions);
    var batch := Texts(ToRun(s.row.statements, s.row.kind, from));
    ToRunInv(s.row, s.nextId, from);
    NumberedIsConsecutive(batch, 0);
    if s.row.kind == Read {
      forall text | text in batch ensures text.kind == Read {
        var i :| 0 <= i < |batch| && batch[i] == text;
        assert ToRun(s.row.statements, s.row.kind, from)[i] in ToRun(s.row.statements, s.row.kind, from);
      }
    }
  }

  /** Only the last claim can have a write in it, and no write is started twice. */
  ghost predicate WritesOnce(log: Log) {
    && (forall i | 0 <= i < |log.claims| - 1 ::
          log.claims[i].kind == Read && forall item | item in log.claims[i].items :: item.text.kind == Read)
    && (forall i, j | 0 <= i < j < |log.executions| && log.executions[i].item.text.kind == Write
                      && log.executions[j].item.text.kind == Write ::
          log.executions[i].item.position != log.executions[j].item.position)
  }

  lemma PromptInvMeansWritesOnce(log: Log)
    requires ExecutionsInv(log) && OrderInv(log.executions, |log.claims|, Free)
    requires forall claim | claim in log.claims :: ItemsInv(claim.items, claim.kind)
    requires forall i | 0 <= i < |log.claims| - 1 :: log.claims[i].kind == Read
    ensures WritesOnce(log)
  {
    forall i | 0 <= i < |log.claims| - 1
      ensures log.claims[i].kind == Read && forall item | item in log.claims[i].items :: item.text.kind == Read
    {
      assert log.claims[i] in log.claims;
    }
    forall i, j | 0 <= i < j < |log.executions| && log.executions[i].item.text.kind == Write
                  && log.executions[j].item.text.kind == Write
      ensures log.executions[i].item.position != log.executions[j].item.position
    {
      var a, b := log.executions[i], log.executions[j];
      assert a in log.executions && b in log.executions;
      WriteItemMeansWriteClaim(log, a);
      WriteItemMeansWriteClaim(log, b);
      assert Precedes(a, b);
      assert ItemsInv(log.claims[a.claim].items, Write);
    }
  }

  /** In every prompt run only the last claim can have a write in it, and no
      write is started twice. */
  lemma WritesStartAtMostOnce(s: State, steps: seq<Step>)
    requires Begins(s) && PromptRun(s, steps)
    ensures WritesOnce(Run(s, steps).log)
  {
    BeginsInv(s);
    RunKeepsPromptInv(s, steps);
    PromptInvMeansWritesOnce(Run(s, steps).log);
  }

  lemma WriteItemMeansWriteClaim(log: Log, e: Execution)
    requires ExecutionsInv(log) && e in log.executions && e.item.text.kind == Write
    requires forall claim | claim in log.claims :: ItemsInv(claim.items, claim.kind)
    ensures e.claim < |log.claims| && log.claims[e.claim].kind == Write
  {
    var claim := log.claims[e.claim];
    assert claim in log.claims;
    assert claim.items[e.index] in claim.items;
  }

  /** What a claim leaves out of its revision has a succeeded execution, and the
      rest is in the claim. */
  ghost predicate SkipsNothing(log: Log) {
    forall claim, statement |
      claim in log.claims && claim.revision in log.contents && statement in log.contents[claim.revision] ::
      if statement.position < claim.from then HasSucceeded(log.executions, statement.id)
      else ItemOf(statement) in claim.items
  }

  lemma PromptInvMeansSkipsNothing(s: State)
    requires RequestSafety.Inv(s) && PromptInv(s)
    ensures SkipsNothing(s.log)
  {
    var log := s.log;
    forall claim, statement |
      claim in log.claims && claim.revision in log.contents && statement in log.contents[claim.revision]
      ensures if statement.position < claim.from then HasSucceeded(log.executions, statement.id)
              else ItemOf(statement) in claim.items
    {
      assert Covered(log.contents[claim.revision], log.executions, claim.from);
      if statement.position >= claim.from {
        assert ClaimOk(log, s.row.requester, claim);
        FromHas(log.contents[claim.revision], statement, claim.from);
      }
    }
  }

  /** In every prompt run, whatever a claim leaves out of its revision, editing
      and retrying in between, has a succeeded execution. */
  lemma ResumeSkipsNothing(s: State, steps: seq<Step>)
    requires Begins(s) && PromptRun(s, steps)
    ensures SkipsNothing(Run(s, steps).log)
  {
    BeginsInv(s);
    RunKeepsPromptInv(s, steps);
    PromptInvMeansSkipsNothing(Run(s, steps));
  }

  lemma {:induction false} FromHas(statements: seq<Statement>, statement: Statement, position: nat)
    requires statement in statements && statement.position >= position
    ensures ItemOf(statement) in From(statements, position)
    decreases |statements|
  {
    if statement != statements[0] {
      assert statement in statements[1..];
      FromHas(statements[1..], statement, position);
    }
  }

  /** Whatever executes under approval was approved by, or written by, somebody else. */
  ghost predicate AllVouched(requester: User, log: Log) {
    forall e | e in log.executions ::
      e.claim < |log.claims|
      && (log.claims[e.claim].approvalRequired ==>
            exists user: User | user != requester :: Vouched(log, log.claims[e.claim].revision, user))
  }

  /** All of it from the creation of a request, submitted at once or as a draft. */
  lemma CreatedRequestsAreSafe(requester: User, admin: bool, needsApproval: bool, later: bool, batch: seq<Text>,
                               draft: bool, steps: seq<Step>)
    requires var s := if draft then CreatedDraft(requester, admin, batch)
                      else Created(requester, admin, needsApproval, later, batch);
             PromptRun(s, steps)
    ensures var s := if draft then CreatedDraft(requester, admin, batch)
                     else Created(requester, admin, needsApproval, later, batch);
            var log := Run(s, steps).log;
            WritesOnce(log) && SkipsNothing(log) && AllVouched(requester, log)
  {
    var s := if draft then CreatedDraft(requester, admin, batch)
             else Created(requester, admin, needsApproval, later, batch);
    CreatedBegins(requester, admin, needsApproval, later, batch);
    WritesStartAtMostOnce(s, steps);
    ResumeSkipsNothing(s, steps);
    var log := Run(s, steps).log;
    forall e | e in log.executions
      ensures e.claim < |log.claims|
              && (log.claims[e.claim].approvalRequired ==>
                    exists user: User | user != requester :: Vouched(log, log.claims[e.claim].revision, user))
    {
      ExecutedIsApproved(s, steps, e);
    }
  }

  // ---------------------------------------------------------------------
  // Without the proviso

  /** A read has failed, and the failure handler has not run yet. */
  predicate FailedLate(s: State) {
    s.row.status == Failed && s.row.kind == Read && s.failing == 1 && s.jobs == [] && s.worker == Free
  }

  function ResumesAt(s: State): nat {
    RetryFrom(s.row.statements, s.log.executions)
  }

  lemma {:induction false} PromptConcat(s: State, a: seq<Step>, b: seq<Step>)
    requires PromptRun(s, a) && PromptRun(Run(s, a), b)
    ensures PromptRun(s, a + b)
    decreases |a|
  {
    if a == [] {
      assert a + b == b;
    } else {
      assert (a + b)[1..] == a[1..] + b;
      PromptConcat(Next(s, a[0]), a[1..], b);
    }
  }

  lemma {:induction false} NoRetryIsPrompt(s: State, steps: seq<Step>)
    requires forall step | step in steps :: !step.Retry?
    ensures PromptRun(s, steps)
    decreases |steps|
  {
    if steps != [] {
      assert !steps[0].Retry?;
      NoRetryIsPrompt(Next(s, steps[0]), steps[1..]);
    }
  }

  /** Three steps none of which is a retry. */
  lemma PromptThree(s: State, a: Step, b: Step, c: Step) returns (steps: seq<Step>)
    requires !a.Retry? && !b.Retry? && !c.Retry?
    ensures Run(s, steps) == Next(Next(Next(s, a), b), c) && PromptRun(s, steps)
  {
    steps := [a, b, c];
    RunThree(s, a, b, c);
    NoRetryIsPrompt(s, steps);
  }

  lemma PromptThen(s: State, a: seq<Step>, b: seq<Step>) returns (steps: seq<Step>)
    requires PromptRun(s, a) && PromptRun(Run(s, a), b)
    ensures Run(s, steps) == Run(Run(s, a), b) && PromptRun(s, steps)
  {
    steps := a + b;
    RunConcat(s, a, b);
    PromptConcat(s, a, b);
  }

  /** The late handler overwrites the retry it did not know of, and a second
      retry leaves two jobs. */
  lemma LateHandlerLeavesTwoJobs(s: State, needsApproval: bool) returns (steps: seq<Step>)
    requires FailedLate(s) && !NeedsFreshApproval(s.row, needsApproval)
    ensures var t := Next(s, Retry(needsApproval));
            && PromptRun(t, steps)
            && Run(t, steps) == s.(row := s.row.(status := Approved, dispatched := true),
                                   jobs := [ResumesAt(s), ResumesAt(s)], failing := 0)
  {
    var t := Next(s, Retry(needsApproval));
    steps := [HandleFailure, Retry(false)];
    var u := Next(t, HandleFailure);
    assert steps[1..] == [Retry(false)];
    assert PromptRun(Next(u, Retry(false)), []);
    assert PromptRun(u, [Retry(false)]);
    RunCons(t, HandleFailure, [Retry(false)]);
    RunCons(u, Retry(false), []);
    assert [HandleFailure] + [Retry(false)] == steps;
    assert [Retry(false)] + [] == [Retry(false)];
  }

  /** One of the two jobs is turned back, and the request is rewritten. */
  lemma EditBetweenJobs(s: State, r: nat, batch: seq<Text>) returns (steps: seq<Step>)
    requires s.row.status == Approved && s.row.dispatched && s.jobs == [r, r] && s.worker == Free && batch != []
    ensures PromptRun(s, steps)
    ensures Run(s, steps) == Rewritten(s, Approved, Some(s.row.requester), BatchKind(batch), batch,
                                       Author(s.row.requester, false)).(jobs := [r])
  {
    steps := PromptThree(s, Pick(0), TurnBack, Update(s.row.requester, false, false, false, false, batch));
  }

  lemma StaleJobClaims(s: State, r: nat) returns (steps: seq<Step>)
    requires s.jobs == [r] && s.worker == Free && s.row.status == Approved
    ensures PromptRun(s, steps)
    ensures var log := Run(s, steps).log;
            && |log.claims| == |s.log.claims| + 1 && log.executions == s.log.executions
            && log.claims[|s.log.claims|].from == r && log.claims[|s.log.claims|].revision == s.row.revision
            && log.contents == s.log.contents
  {
    steps := PromptThree(s, Pick(0), ClaimBatch(false, false), Look);
  }

  /** The second job then claims a batch written in between from where the old
      one had failed on: the statements before that were never started. */
  lemma LateHandlerSkipsAStatement(s: State, batch: seq<Text>) returns (steps: seq<Step>)
    requires FailedLate(s) && ResumesAt(s) > 1 && batch != []
    requires forall e | e in s.log.executions && e.item.statement.Some? :: e.item.statement.value < s.nextId
    ensures var t := Next(s, Retry(false)); PromptRun(t, steps) && !SkipsNothing(Run(t, steps).log)
  {
    var t := Next(s, Retry(false));
    var retries := LateHandlerLeavesTwoJobs(s, false);
    var s1 := Run(t, retries);
    var edit := EditBetweenJobs(s1, ResumesAt(s), batch);
    var s2 := Run(s1, edit);
    var claim := StaleJobClaims(s2, ResumesAt(s));
    var later := PromptThen(s1, edit, claim);
    steps := PromptThen(t, retries, later);
    var log := Run(t, steps).log;
    var last, first := log.claims[|s.log.claims|], Numbered(batch, s.nextId)[0];
    assert last in log.claims && first in log.contents[last.revision];
    assert first.position < last.from;
    assert !HasSucceeded(log.executions, first.id);
  }

  /** A batch of one write is run from any position. */
  lemma OneWriteToRun(statements: seq<Statement>, position: nat)
    requires |statements| == 1 && statements[0].position == 1 && statements[0].text.kind == Write
    ensures var items := ToRun(statements, Write, position);
            |items| == 1 && items[0].position == 1 && items[0].text.kind == Write
  {
    FromNumbered(statements, 1, position);
  }

  /** A request for one write, not dispatched, with a job left over from before. */
  predicate Leftover(s: State, r: nat) {
    && s.row.status == Approved && !s.row.dispatched && s.row.kind == Write
    && |s.row.statements| == 1 && s.row.statements[0].position == 1 && s.row.statements[0].text.kind == Write
    && s.jobs == [r] && s.worker == Free
  }

  lemma LeftoverClaims(s: State, r: nat) returns (steps: seq<Step>)
    requires Leftover(s, r)
    ensures PromptRun(s, steps)
    ensures var t := Run(s, steps);
            && t.row == s.row.(status := Running, dispatched := true) && t.jobs == [1]
            && t.worker == Executing(ToRun(s.row.statements, Write, r), 0, Ready)
            && t.log.executions == s.log.executions && t.log.claims != []
  {
    steps := PromptThree(s, Dispatch(false, false), Pick(0), ClaimBatch(false, false));
    assert Without([r, 1], 0) == [1];
  }

  /** The write is started, and its job dies. */
  lemma StartedAndDies(s: State, items: seq<Item>) returns (steps: seq<Step>)
    requires s.worker == Executing(items, 0, Ready) && |items| == 1 && s.row.status == Running && s.log.claims != []
    ensures PromptRun(s, steps)
    ensures var t := Run(s, steps);
            && t.row == s.row && t.jobs == s.jobs && t.worker == Free && t.log.claims == s.log.claims
            && t.log.executions == s.log.executions + [Execution(items[0], |s.log.claims| - 1, 0, Started)]
  {
    steps := PromptThree(s, Look, Start, Die);
  }

  lemma SecondJobClaims(s: State) returns (steps: seq<Step>)
    requires s.row.status == Running && s.row.kind == Write && s.jobs == [1] && s.worker == Free
    ensures PromptRun(s, steps)
    ensures var t := Run(s, steps);
            && t.worker == Executing(ToRun(s.row.statements, Write, 1), 0, Cleared)
            && t.log.executions == s.log.executions && |t.log.claims| == |s.log.claims| + 1
  {
    steps := PromptThree(s, Pick(0), ClaimBatch(false, false), Look);
  }

  lemma SecondJobStarts(s: State) returns (steps: seq<Step>)
    requires s.row.status == Running && s.row.kind == Write && s.jobs == [1] && s.worker == Free
    ensures PromptRun(s, steps)
    ensures var log := Run(s, steps).log;
            log.executions == s.log.executions
                              + [Execution(ToRun(s.row.statements, Write, 1)[0], |s.log.claims|, 0, Started)]
  {
    var claim := SecondJobClaims(s);
    var t := Run(s, claim);
    NoRetryIsPrompt(t, [Start]);
    RunCons(t, Start, []);
    assert [Start] + [] == [Start];
    steps := PromptThen(s, claim, [Start]);
  }

  lemma LeftoverStartsTwice(s: State, r: nat) returns (steps: seq<Step>)
    requires Leftover(s, r)
    ensures PromptRun(s, steps) && !WritesOnce(Run(s, steps).log)
  {
    OneWriteToRun(s.row.statements, r);
    OneWriteToRun(s.row.statements, 1);
    var claim := LeftoverClaims(s, r);
    var s1 := Run(s, claim);
    var first := StartedAndDies(s1, s1.worker.items);
    var s2 := Run(s1, first);
    var second := SecondJobStarts(s2);
    var both := PromptThen(s1, first, second);
    steps := PromptThen(s, claim, both);
    var n := |s.log.executions|;
    var executions := Run(s, steps).log.executions;
    assert executions[n].item.text.kind == Write && executions[n + 1].item.text.kind == Write;
    assert executions[n].item.position == executions[n + 1].item.position;
  }

  /** Once a retry was accepted too early, a write can be started twice. */
  lemma LateHandlerStartsAWriteTwice(s: State, needsApproval: bool, w: Text) returns (steps: seq<Step>)
    requires FailedLate(s) && !NeedsFreshApproval(s.row, needsApproval) && w.kind == Write
    ensures var t := Next(s, Retry(needsApproval)); PromptRun(t, steps) && !WritesOnce(Run(t, steps).log)
  {
    var t := Next(s, Retry(needsApproval));
    var retries := LateHandlerLeavesTwoJobs(s, needsApproval);
    var s1 := Run(t, retries);
    var edit := EditBetweenJobs(s1, ResumesAt(s), [w]);
    var s2 := Run(s1, edit);
    assert w in [w];
    var twice := LeftoverStartsTwice(s2, ResumesAt(s));
    var later := PromptThen(s1, edit, twice);
    steps := PromptThen(t, retries, later);
  }

  /** An accepted retry of a failed read is safe exactly when the failure handler
      has run: then every later run keeps both guarantees, and otherwise some
      later run breaks them. */
  lemma RetryIsSafeExactly(s: State, needsApproval: bool)
    requires RequestSafety.Inv(s) && PromptInv(s)
    requires s.row.status == Failed && s.row.kind == Read && !NeedsFreshApproval(s.row, needsApproval)
    ensures var t := Next(s, Retry(needsApproval));
            s.failing == 0
            <==> (forall steps | PromptRun(t, steps) ::
                   WritesOnce(Run(t, steps).log) && SkipsNothing(Run(t, steps).log))
  {
    var t := Next(s, Retry(needsApproval));
    if s.failing == 0 {
      StepKeepsInv(s, Retry(needsApproval));
      StepKeepsPromptInv(s, Retry(needsApproval));
      forall steps | PromptRun(t, steps) ensures WritesOnce(Run(t, steps).log) && SkipsNothing(Run(t, steps).log) {
        RunKeepsPromptInv(t, steps);
        PromptInvMeansWritesOnce(Run(t, steps).log);
        PromptInvMeansSkipsNothing(Run(t, steps));
      }
    } else {
      var steps := LateHandlerStartsAWriteTwice(s, needsApproval, Text(0, "", Write));
      assert PromptRun(t, steps) && !WritesOnce(Run(t, steps).log);
    }
  }

  lemma FirstOfTwo(s: State, a: Text, b: Text) returns (steps: seq<Step>)
    requires s.row.statements == Numbered([a, b], 0) && s.row.status == Approved
    requires !NeedsFreshApproval(s.row, false)
    requires s.log.executions == [] && s.log.claims == [] && s.jobs == [1] && s.worker == Free && s.failing == 0
    ensures forall step | step in steps :: !step.Retry?
    ensures var t := Run(s, steps);
            && t.row == s.row.(status := Running) && t.jobs == [] && t.failing == 0
            && |t.log.claims| == 1 && t.log.executions == []
            && t.worker == Executing([Item(Some(0), 1, a), Item(Some(1), 2, b)], 0, Cleared)
  {
    steps := [Pick(0), ClaimBatch(false, false), Look];
    RunThree(s, Pick(0), ClaimBatch(false, false), Look);
    FromNumbered(s.row.statements, 1, 1);
    assert From(s.row.statements, 1) == [Item(Some(0), 1, a), Item(Some(1), 2, b)];
  }

  lemma FirstSucceeds(s: State, items: seq<Item>) returns (steps: seq<Step>)
    requires |items| == 2 && s.worker == Executing(items, 0, Cleared) && s.row.status == Running
    requires |s.log.claims| == 1 && s.log.executions == []
    ensures forall step | step in steps :: !step.Retry?
    ensures var t := Run(s, steps);
            && t.row == s.row && t.jobs == s.jobs && t.failing == s.failing && t.log.claims == s.log.claims
            && t.worker == Executing(items, 1, Cleared)
            && t.log.executions == [Execution(items[0], 0, 0, Succeeded)]
  {
    steps := [Start, Succeed, Look];
    RunThree(s, Start, Succeed, Look);
  }

  lemma SecondFails(s: State, items: seq<Item>, first: Execution) returns (steps: seq<Step>)
    requires |items| == 2 && s.worker == Executing(items, 1, Cleared) && s.row.status == Running
    requires |s.log.claims| == 1 && s.log.executions == [first] && s.failing == 0
    ensures forall step | step in steps :: !step.Retry?
    ensures var t := Run(s, steps);
            && t.row == s.row.(status := Failed) && t.jobs == s.jobs && t.worker == Free && t.failing == 1
            && t.log.claims == s.log.claims
            && t.log.executions == [first, Execution(items[1], 0, 1, Broken)]
  {
    steps := [Start, Break, RecordFailure];
    RunThree(s, Start, Break, RecordFailure);
  }

  lemma {:induction false} FailedAtTheLastOfTwo(statements: seq<Statement>, first: Execution, last: Execution)
    requires |statements| == 2 && statements[0].id != statements[1].id
    requires last.outcome == Broken && last.item.statement == Some(statements[1].id)
    ensures RetryFrom(statements, [first, last]) == statements[1].position
  {
    assert statements[1..] == [statements[1]];
    assert PositionOf(statements, last.item.statement) == PositionOf(statements[1..], last.item.statement);
  }

  /** Such a state is reached by any two reads of which the second fails. */
  lemma FailureIsReached(requester: User, a: Text, b: Text) returns (steps: seq<Step>)
    requires a.kind == Read && b.kind == Read
    ensures var t := Run(Created(requester, false, false, false, [a, b]), steps);
            && FailedLate(t) && ResumesAt(t) == 2
            && t.row.requester == requester && t.row.approvedBy == Some(requester)
            && t.row.statements == Numbered([a, b], 0) && t.log.claims != []
            && t.log.executions == [Execution(Item(Some(0), 1, a), 0, 0, Succeeded),
                                    Execution(Item(Some(1), 2, b), 0, 1, Broken)]
            && PromptRun(Created(requester, false, false, false, [a, b]), steps)
  {
    var s := Created(requester, false, false, false, [a, b]);
    var s1 := Next(s, Dispatch(false, false));
    var first := FirstOfTwo(s1, a, b);
    var s2 := Run(s1, first);
    var items := s2.worker.items;
    var second := FirstSucceeds(s2, items);
    var s3 := Run(s2, second);
    var third := SecondFails(s3, items, Execution(items[0], 0, 0, Succeeded));
    RunConcat(s2, second, third);
    RunConcat(s1, first, second + third);
    RunCons(s, Dispatch(false, false), first + (second + third));
    steps := [Dispatch(false, false)] + (first + (second + third));
    NoRetryIsPrompt(s, steps);
    FailedAtTheLastOfTwo(s1.row.statements, Execution(items[0], 0, 0, Succeeded), Execution(items[1], 0, 1, Broken));
  }

  /** A run from the creation of two reads that starts a write twice. */
  lemma AWriteStartsTwice(requester: User, a: Text, b: Text, w: Text) returns (steps: seq<Step>)
    requires a.kind == Read && b.kind == Read && w.kind == Write
    ensures !WritesOnce(Run(Created(requester, false, false, false, [a, b]), steps).log)
  {
    var s := Created(requester, false, false, false, [a, b]);
    var failure := FailureIsReached(requester, a, b);
    var t := Run(s, failure);
    var later := LateHandlerStartsAWriteTwice(t, false, w);
    RunCons(t, Retry(false), later);
    RunConcat(s, failure, [Retry(false)] + later);
    steps := failure + ([Retry(false)] + later);
  }
}
