/**
  Retries neither lose nor repeat a statement: resumed in place or through
  linked requests, what succeeded and what is left are always the present batch.
  Not in every run: a job that dies behind a success, and a batch dispatched
  from its start again, make the retry repeat what succeeded. These are shown to
  be the only ways, and exactly when a failed request's retry repeats something
  is stated both of its run and of its record.
*/
module RetryChain {
  import opened Base
  import opened RequestLifecycle
  import opened RequestSafety
  import opened RequestRuns

  /** The SQL of the present statements that has succeeded, in the order it ran. */
  function Done(statements: seq<Statement>, executions: seq<Execution>): seq<Text>
    decreases |executions|
  {
    if executions == [] then []
    else
      var last := executions[|executions| - 1];
      Done(statements, executions[..|executions| - 1]) + Counted(statements, last)
  }

  function Counted(statements: seq<Statement>, e: Execution): seq<Text> {
    if e.outcome == Succeeded && PositionOf(statements, e.item.statement).Some? then [e.item.text] else []
  }

  function TextsOf(statements: seq<Statement>): (r: seq<Text>)
    ensures |r| == |statements|
  {
    seq(|statements|, i requires 0 <= i < |statements| => statements[i].text)
  }

  function DoneOf(s: State): seq<Text> {
    Done(s.row.statements, s.log.executions)
  }

  /** How many executions of present statements have succeeded. */
  function Count(s: State): nat {
    |DoneOf(s)|
  }

  /** What has succeeded and what a linked retry would run are the batch. */
  predicate Conserved(s: State, admin: bool, needsApproval: bool) {
    DoneOf(s) + TextsOf(RetryRequest(s, admin, needsApproval).row.statements) == TextsOf(s.row.statements)
  }

  /** What a step does to conservation. It is troubled when a statement other
      than the next one due ends, and when a job dies behind a success of its
      own that no failure has followed. */
  predicate Harmless(s: State, step: Step) {
    match step
    case Succeed => InFlightAtNext(s)
    case Break => InFlightAtNext(s)
    case Die => s.worker.Executing? ==> s.worker.next == 0 || s.worker.phase == Caught
    case _ => true
  }

  predicate InFlightAtNext(s: State) {
    s.worker.Executing? && s.worker.phase == InFlight && s.worker.next < |s.worker.items|
    ==> s.worker.items[s.worker.next].position == Count(s) + 1
  }

  /** An accepted edit gives a batch of which nothing has run. */
  predicate Rewrites(s: State, step: Step) {
    Next(s, step).row.statements != s.row.statements
  }

  /** Every step since the batch was last rewritten was harmless. */
  predicate Untroubled(s: State, steps: seq<Step>, soFar: bool)
    decreases |steps|
  {
    if steps == [] then soFar
    else Untroubled(Next(s, steps[0]), steps[1..], Rewrites(s, steps[0]) || (soFar && Harmless(s, steps[0])))
  }

  // ---------------------------------------------------------------------
  // What succeeded, and where a retry resumes

  lemma {:induction false} PositionOfAt(statements: seq<Statement>, k: nat)
    requires k < |statements| && forall i, j | 0 <= i < j < |statements| :: statements[i].id != statements[j].id
    ensures PositionOf(statements, Some(statements[k].id)) == Some(statements[k].position)
    decreases k
  {
    if k > 0 {
      PositionOfAt(statements[1..], k - 1);
    }
  }

  lemma Appended(statements: seq<Statement>, executions: seq<Execution>, e: Execution)
    ensures Done(statements, executions + [e]) == Done(statements, executions) + Counted(statements, e)
    ensures e.outcome != Broken ==> RetryFrom(statements, executions + [e]) == RetryFrom(statements, executions)
    ensures e.outcome == Broken && PositionOf(statements, e.item.statement).Some? ==>
              RetryFrom(statements, executions + [e]) == PositionOf(statements, e.item.statement).value
  {
    assert (executions + [e])[..|executions|] == executions;
  }

  lemma MarkedSplit(executions: seq<Execution>, outcome: Outcome)
    requires executions != []
    ensures Marked(executions, outcome)
         == executions[..|executions| - 1] + [executions[|executions| - 1].(outcome := outcome)]
  {
  }

  /** The outcome of the execution in flight, of the statement at index k. */
  lemma {:induction false} Ended(statements: seq<Statement>, nextId: nat, executions: seq<Execution>, k: nat,
                                 outcome: Outcome)
    requires Consecutive(statements, nextId) && k < |statements| && outcome in {Succeeded, Broken}
    requires executions != [] && executions[|executions| - 1].outcome == Started
    requires executions[|executions| - 1].item == ItemOf(statements[k])
    ensures outcome == Succeeded ==>
              && Done(statements, Marked(executions, outcome)) == Done(statements, executions) + [statements[k].text]
              && RetryFrom(statements, Marked(executions, outcome)) == RetryFrom(statements, executions)
    ensures outcome == Broken ==>
              && Done(statements, Marked(executions, outcome)) == Done(statements, executions)
              && RetryFrom(statements, Marked(executions, outcome)) == k + 1
  {
    var n := |executions| - 1;
    var init, last := executions[..n], executions[n];
    PositionOfAt(statements, k);
    Appended(statements, init, last);
    Appended(statements, init, last.(outcome := outcome));
    assert executions == init + [last];
    MarkedSplit(executions, outcome);
  }

  /** No execution of a present statement is on record. */
  predicate Untouched(statements: seq<Statement>, executions: seq<Execution>) {
    forall e | e in executions :: PositionOf(statements, e.item.statement).None?
  }

  lemma {:induction false} UntouchedStartsOver(statements: seq<Statement>, executions: seq<Execution>)
    requires Untouched(statements, executions)
    ensures Done(statements, executions) == [] && RetryFrom(statements, executions) == 1
    decreases |executions|
  {
    if executions != [] {
      UntouchedStartsOver(statements, executions[..|executions| - 1]);
      assert executions[|executions| - 1] in executions;
    }
  }

  lemma {:induction false} NewIdsAreUnknown(statements: seq<Statement>, id: Option<nat>, firstId: nat)
    requires id.Some? ==> id.value < firstId
    requires forall statement | statement in statements :: statement.id >= firstId
    ensures PositionOf(statements, id).None?
    decreases |statements|
  {
    if statements != [] {
      assert statements[0] in statements;
      NewIdsAreUnknown(statements[1..], id, firstId);
    }
  }

  lemma RewrittenIsUntouched(batch: seq<Text>, executions: seq<Execution>, nextId: nat)
    requires forall e | e in executions && e.item.statement.Some? :: e.item.statement.value < nextId
    ensures Untouched(Numbered(batch, nextId), executions)
  {
    forall e | e in executions ensures PositionOf(Numbered(batch, nextId), e.item.statement).None? {
      NewIdsAreUnknown(Numbered(batch, nextId), e.item.statement, nextId);
    }
  }

  lemma {:induction false} ResumesInside(statements: seq<Statement>, nextId: nat, executions: seq<Execution>)
    requires Consecutive(statements, nextId) && statements != []
    ensures 1 <= RetryFrom(statements, executions) <= |statements|
    decreases |executions|
  {
    if executions != [] {
      ResumesInside(statements, nextId, executions[..|executions| - 1]);
      PositionOfStatement(statements, executions[|executions| - 1].item.statement);
    }
  }

  // ---------------------------------------------------------------------
  // The worker and its batch

  /** The worker runs the end of the batch. */
  ghost predicate InBatch(statements: seq<Statement>, items: seq<Item>, next: nat) {
    && 0 < |items| <= |statements| && next <= |items|
    && forall k | 0 <= k < |items| :: items[k] == ItemOf(statements[|statements| - |items| + k])
  }

  predicate LogAgrees(executions: seq<Execution>, items: seq<Item>, next: nat, phase: Phase) {
    && (phase != Ready ==> next < |items|)
    && (phase in {InFlight, Caught} ==>
          && executions != [] && executions[|executions| - 1].item == items[next]
          && executions[|executions| - 1].outcome == if phase == InFlight then Started else Broken)
  }

  ghost predicate Aligned(statements: seq<Statement>, executions: seq<Execution>, jobs: seq<nat>, worker: Worker) {
    && statements != []
    && (forall from | from in jobs :: 1 <= from <= |statements|)
    && match worker
       case Free => true
       case Checked(from) => 1 <= from <= |statements|
       case Executing(items, next, phase) =>
         InBatch(statements, items, next) && LogAgrees(executions, items, next, phase)
  }

  ghost predicate AlignedState(s: State) {
    Aligned(s.row.statements, s.log.executions, s.jobs, s.worker)
  }

  lemma ClaimKeepsAligned(s: State, disabled: bool, needsApproval: bool)
    requires AlignedState(s) && BatchInv(s.row, s.nextId)
    ensures AlignedState(ClaimBatchStep(s, disabled, needsApproval))
  {
    if s.worker.Checked? {
      FromIsSuffix(s.row.statements, s.nextId, s.worker.from);
    }
  }

  lemma RetryKeepsAligned(s: State, needsApproval: bool)
    requires AlignedState(s) && BatchInv(s.row, s.nextId)
    ensures AlignedState(RetryStep(s, needsApproval))
  {
    ResumesInside(s.row.statements, s.nextId, s.log.executions);
  }

  lemma EditKeepsAligned(s: State, step: Step)
    requires AlignedState(s) && QueueInv(s.row, s.jobs, s.worker, s.failing)
    requires step.Update? || step.SaveDraft?
    ensures AlignedState(Next(s, step))
  {
    var t := Next(s, step);
    if t != s {
      assert s.jobs == [] && s.worker == Free;
    }
  }

  lemma QueueKeepsAligned(s: State, step: Step)
    requires AlignedState(s) && (step.Die? || (AtTheQueue(step) && !step.Retry?))
    ensures AlignedState(Next(s, step))
  {
    if AtTheQueue(step) {
      QueueStepKeepsCounts(s, step);
    }
  }

  predicate AtStatement(step: Step) {
    step.Look? || step.Start? || step.Succeed? || step.Break? || step.RecordFailure? || step.Complete?
  }

  lemma StatementKeepsAligned(s: State, step: Step)
    requires AlignedState(s) && AtStatement(step)
    ensures AlignedState(Next(s, step))
  {
    if s.worker.Executing? {
      assert InBatch(s.row.statements, s.worker.items, s.worker.next);
      assert LogAgrees(s.log.executions, s.worker.items, s.worker.next, s.worker.phase);
      if step.Break? && s.worker.phase == InFlight {
        MarkedSplit(s.log.executions, Broken);
      }
    }
  }

  lemma StepKeepsAligned(s: State, step: Step)
    requires AlignedState(s) && BatchInv(s.row, s.nextId)
    requires QueueInv(s.row, s.jobs, s.worker, s.failing)
    ensures AlignedState(Next(s, step))
  {
    match step
    case ClaimBatch(disabled, needsApproval) => ClaimKeepsAligned(s, disabled, needsApproval);
    case Retry(needsApproval) => RetryKeepsAligned(s, needsApproval);
    case Update(_, _, _, _, _, _) => EditKeepsAligned(s, step);
    case SaveDraft(_) => EditKeepsAligned(s, step);
    case _ =>
      if AtStatement(step) {
        StatementKeepsAligned(s, step);
      } else {
        QueueKeepsAligned(s, step);
      }
  }

  /** The position of the statement the worker is at. */
  function At(statements: seq<Statement>, worker: Worker): nat {
    if worker.Executing? && |worker.items| <= |statements|
    then |statements| - |worker.items| + worker.next + 1
    else 0
  }

  lemma AtItsPosition(s: State)
    requires AlignedState(s) && BatchInv(s.row, s.nextId)
    requires s.worker.Executing? && s.worker.next < |s.worker.items|
    ensures s.worker.items[s.worker.next].position == At(s.row.statements, s.worker)
    ensures s.worker.items[s.worker.next] == ItemOf(s.row.statements[At(s.row.statements, s.worker) - 1])
  {
  }

  // ---------------------------------------------------------------------
  // Straight and troubled

  /** p statements have succeeded, a retry would resume at r, and the worker is
      at a position: in line. */
  predicate InLine(n: nat, jobs: seq<nat>, worker: Worker, at: nat, p: nat, r: nat) {
    && (forall from | from in jobs :: from == 1 || from == p + 1)
    && match worker
       case Free => r == p + 1 && p < n
       case Checked(from) => (from == 1 || from == p + 1) && r == p + 1 && p < n
       case Executing(_, next, phase) =>
         if phase == Caught then at == r == p + 1 && p < n
         else if next == 0 then at <= p + 1 && r == p + 1 && p < n
         else at == p + 1 && r <= p
  }

  /** What has succeeded is the beginning of the batch, each statement once, and
      every resumption starts right behind it or at the start. */
  ghost predicate Straight(s: State) {
    var p := Count(s);
    || s.row.status == Cancelled
    || (&& p <= |s.row.statements| && DoneOf(s) == TextsOf(s.row.statements)[..p]
        && if s.row.status == Completed then p == |s.row.statements|
           else InLine(|s.row.statements|, s.jobs, s.worker, At(s.row.statements, s.worker), p, ResumesAt(s)))
  }

  predicate OutOfLine(jobs: seq<nat>, worker: Worker, at: nat, p: nat, r: nat) {
    && r <= p
    && (forall from | from in jobs :: from <= p)
    && match worker
       case Free => true
       case Checked(from) => from <= p
       case Executing(_, _, _) => at <= p
  }

  /** Something that succeeded will run again. */
  predicate Harmed(s: State) {
    || s.row.status == Cancelled
    || (&& Count(s) >= 1 && OutOfLine(s.jobs, s.worker, At(s.row.statements, s.worker), Count(s), ResumesAt(s))
        && (s.row.status == Completed ==> Count(s) > |s.row.statements|))
  }

  ghost predicate Conditions(s: State) {
    && AlignedState(s) && BatchInv(s.row, s.nextId)
    && QueueInv(s.row, s.jobs, s.worker, s.failing)
    && LinksInv(s.row.statements, s.log.executions, s.nextId)
  }

  /** The step leaves what is counted alone. */
  predicate SameCounts(s: State, t: State) {
    DoneOf(t) == DoneOf(s) && ResumesAt(t) == ResumesAt(s) && t.row.statements == s.row.statements
  }

  lemma RewriteStraightens(s: State, step: Step)
    requires Conditions(s) && Rewrites(s, step)
    ensures Straight(Next(s, step))
    ensures Untouched(Next(s, step).row.statements, Next(s, step).log.executions)
  {
    var t := Next(s, step);
    var batch := if step.Update? then step.batch else AsDraft(step.batch);
    RewrittenIsUntouched(batch, s.log.executions, s.nextId);
    UntouchedStartsOver(t.row.statements, t.log.executions);
  }

  predicate AtTheQueue(step: Step) {
    step.Decide? || step.Withdraw? || step.Cancel? || step.Dispatch? || step.Retry? || step.HandleFailure?
    || step.Pick? || step.Lose? || step.TurnBack?
  }

  /** A step at the queue adds a job from the start, or one from where a failed
      read resumes; a worker takes a job that was there. */
  lemma QueueStepKeepsCounts(s: State, step: Step)
    requires AtTheQueue(step)
    ensures SameCounts(s, Next(s, step))
    ensures var t := Next(s, step);
            && (forall from | from in t.jobs ::
                  from in s.jobs || from == 1
                  || (step.Retry? && from == ResumesAt(s) && s.row.status == Failed && s.row.kind == Read))
            && (t.worker == s.worker || t.worker == Free || (t.worker.Checked? && t.worker.from in s.jobs))
            && t.row.kind == s.row.kind && t.log.executions == s.log.executions
  {
  }

  lemma QueueStepKeepsEnds(s: State, step: Step)
    requires AtTheQueue(step) && QueueInv(s.row, s.jobs, s.worker, s.failing)
    ensures s.row.status in {Cancelled, Completed} ==> Next(s, step).row.status == s.row.status
    ensures Next(s, step).row.status == Completed ==> s.row.status == Completed
    ensures Next(s, step).worker.Free? && s.worker.Executing? ==> Next(s, step).row.status == Cancelled
  {
  }

  /** Jobs resume at the start or where a retry does. */
  lemma QueueStepStays(s: State, step: Step)
    requires Conditions(s) && AtTheQueue(step) && Prompt(s, step)
    ensures Straight(s) ==> Straight(Next(s, step))
    ensures Harmed(s) ==> Harmed(Next(s, step))
  {
    QueueStepKeepsCounts(s, step);
    QueueStepKeepsEnds(s, step);
  }

  lemma ClaimStays(s: State, disabled: bool, needsApproval: bool)
    requires Conditions(s)
    ensures var t := ClaimBatchStep(s, disabled, needsApproval);
            (Straight(s) ==> Straight(t)) && (Harmed(s) ==> Harmed(t))
  {
    var t := ClaimBatchStep(s, disabled, needsApproval);
    assert SameCounts(s, t);
    if s.worker.Checked? {
      FromIsSuffix(s.row.statements, s.nextId, s.worker.from);
    }
  }

  lemma StartStays(s: State)
    requires Conditions(s)
    ensures (Straight(s) ==> Straight(StartStep(s))) && (Harmed(s) ==> Harmed(StartStep(s)))
  {
    var t := StartStep(s);
    if t != s {
      Appended(s.row.statements, s.log.executions, t.log.executions[|s.log.executions|]);
      assert SameCounts(s, t);
    }
  }

  lemma WorkerEndStays(s: State, step: Step)
    requires Conditions(s) && (step.Look? || step.RecordFailure? || step.Complete?)
    ensures (Straight(s) ==> Straight(Next(s, step))) && (Harmed(s) ==> Harmed(Next(s, step)))
  {
    assert SameCounts(s, Next(s, step));
  }

  lemma DieStays(s: State)
    requires Conditions(s)
    ensures Straight(s) ==> if Harmless(s, Die) then Straight(DieStep(s)) else Harmed(DieStep(s))
    ensures Harmed(s) ==> Harmed(DieStep(s))
  {
    assert SameCounts(s, DieStep(s));
  }

  lemma SuccessStays(s: State)
    requires Conditions(s) && s.worker.Executing? && s.worker.phase == InFlight
    ensures var t := SucceedStep(s);
            && Count(t) == Count(s) + 1
            && (Straight(s) ==> if Harmless(s, Succeed) then Straight(t) else Harmed(t))
            && (Harmed(s) ==> Harmed(t))
  {
    var k := At(s.row.statements, s.worker) - 1;
    var t := SucceedStep(s);
    SuccessCounts(s);
    assert t.row == s.row && t.jobs == s.jobs;
    assert At(t.row.statements, t.worker) == k + 2;
    if Straight(s) && Harmless(s, Succeed) && s.row.status != Cancelled {
      assert TextsOf(s.row.statements)[..k + 1] == TextsOf(s.row.statements)[..k] + [s.row.statements[k].text];
    }
  }

  lemma SuccessCounts(s: State)
    requires Conditions(s) && s.worker.Executing? && s.worker.phase == InFlight
    ensures var t := SucceedStep(s); var k := At(s.row.statements, s.worker) - 1;
            && 0 <= k < |s.row.statements| && s.worker.items[s.worker.next].position == k + 1
            && DoneOf(t) == DoneOf(s) + [s.row.statements[k].text] && ResumesAt(t) == ResumesAt(s)
  {
    AtItsPosition(s);
    Ended(s.row.statements, s.nextId, s.log.executions, At(s.row.statements, s.worker) - 1, Succeeded);
  }

  lemma FailureStays(s: State)
    requires Conditions(s) && s.worker.Executing? && s.worker.phase == InFlight
    ensures var t := BreakStep(s);
            && ResumesAt(t) == At(s.row.statements, s.worker) && DoneOf(t) == DoneOf(s)
            && (Straight(s) ==> if Harmless(s, Break) then Straight(t) else Harmed(t))
            && (Harmed(s) ==> Harmed(t))
  {
    AtItsPosition(s);
    Ended(s.row.statements, s.nextId, s.log.executions, At(s.row.statements, s.worker) - 1, Broken);
  }

  lemma StepStays(s: State, step: Step)
    requires Conditions(s) && Prompt(s, step) && !Rewrites(s, step)
    ensures Straight(s) ==> if Harmless(s, step) then Straight(Next(s, step)) else Harmed(Next(s, step))
    ensures Harmed(s) ==> Harmed(Next(s, step))
  {
    match step
    case ClaimBatch(disabled, needsApproval) => ClaimStays(s, disabled, needsApproval);
    case Start => StartStays(s);
    case Succeed => if s.worker.Executing? && s.worker.phase == InFlight { SuccessStays(s); }
    case Break => if s.worker.Executing? && s.worker.phase == InFlight { FailureStays(s); }
    case Die => DieStays(s);
    case Look => WorkerEndStays(s, step);
    case RecordFailure => WorkerEndStays(s, step);
    case Complete => WorkerEndStays(s, step);
    case Update(_, _, _, _, _, batch) => RefusedEditStays(s, step, batch);
    case SaveDraft(batch) => RefusedEditStays(s, step, AsDraft(batch));
    case _ => QueueStepStays(s, step);
  }

  /** An edit that leaves the statements as they are was refused: ids are new. */
  lemma RefusedEditStays(s: State, step: Step, batch: seq<Text>)
    requires Conditions(s) && !Rewrites(s, step)
    requires (step.Update? && batch == step.batch) || (step.SaveDraft? && batch == AsDraft(step.batch))
    ensures Next(s, step) == s
  {
    assert s.row.statements[0].id < s.nextId;
    assert batch != [] ==> Numbered(batch, s.nextId)[0].id == s.nextId;
  }

  // ---------------------------------------------------------------------
  // Whole runs

  ghost predicate ChainInv(s: State) {
    RequestSafety.Inv(s) && PromptInv(s) && AlignedState(s)
  }

  lemma StepKeepsChainInv(s: State, step: Step)
    requires ChainInv(s) && Prompt(s, step)
    ensures ChainInv(Next(s, step))
  {
    StepKeepsInv(s, step);
    StepKeepsPromptInv(s, step);
    StepKeepsAligned(s, step);
  }

  lemma {:induction false} RunStays(s: State, steps: seq<Step>, soFar: bool)
    requires ChainInv(s) && PromptRun(s, steps) && (if soFar then Straight(s) else Harmed(s))
    ensures ChainInv(Run(s, steps))
    ensures if Untroubled(s, steps, soFar) then Straight(Run(s, steps)) else Harmed(Run(s, steps))
    decreases |steps|
  {
    if steps != [] {
      var step := steps[0];
      StepKeepsChainInv(s, step);
      if Rewrites(s, step) {
        RewriteStraightens(s, step);
      } else {
        StepStays(s, step);
      }
      RunStays(Next(s, step), steps[1..], Rewrites(s, step) || (soFar && Harmless(s, step)));
    }
  }

  lemma BeginsStraight(s: State)
    requires Begins(s) && s.row.statements != []
    ensures ChainInv(s) && Straight(s) && Untouched(s.row.statements, s.log.executions)
  {
    BeginsInv(s);
  }

  lemma TextsOfNumbered(batch: seq<Text>, firstId: nat)
    ensures TextsOf(Numbered(batch, firstId)) == batch
  {
  }

  lemma TextsFrom(statements: seq<Statement>, kind: Kind, nextId: nat, p: nat)
    requires Consecutive(statements, nextId) && p < |statements|
    ensures Texts(ToRun(statements, kind, p + 1)) == TextsOf(statements)[p..]
  {
    FromIsSuffix(statements, nextId, p + 1);
  }

  /** What a linked retry runs is the batch from where a retry resumes, numbered
      from 1. */
  lemma RetryRequestTexts(s: State, admin: bool, needsApproval: bool)
    requires BatchInv(s.row, s.nextId) && s.row.statements != []
    ensures 1 <= ResumesAt(s) <= |s.row.statements|
    ensures TextsOf(RetryRequest(s, admin, needsApproval).row.statements)
            == TextsOf(s.row.statements)[ResumesAt(s) - 1..]
    ensures var retry := RetryRequest(s, admin, needsApproval).row.statements;
            retry != [] && forall i | 0 <= i < |retry| :: retry[i].position == i + 1
  {
    ResumesInside(s.row.statements, s.nextId, s.log.executions);
    TextsFrom(s.row.statements, s.row.kind, s.nextId, ResumesAt(s) - 1);
    RetryRequestIsNumbered(s, admin, needsApproval);
  }

  lemma RetryRequestIsNumbered(s: State, admin: bool, needsApproval: bool)
    ensures var batch := Texts(ToRun(s.row.statements, s.row.kind, ResumesAt(s)));
            var retry := RetryRequest(s, admin, needsApproval).row.statements;
            && retry == Numbered(batch, 0) && retry != [] && TextsOf(retry) == batch
            && forall i | 0 <= i < |retry| :: retry[i].position == i + 1
  {
    TextsOfNumbered(Texts(ToRun(s.row.statements, s.row.kind, ResumesAt(s))), 0);
  }

  lemma StraightConserves(s: State, admin: bool, needsApproval: bool)
    requires BatchInv(s.row, s.nextId) && s.row.statements != []
    requires s.row.status == Failed && s.worker == Free && Straight(s)
    ensures Conserved(s, admin, needsApproval) && ResumesAt(s) == Count(s) + 1
  {
    RetryRequestTexts(s, admin, needsApproval);
    var texts, p := TextsOf(s.row.statements), Count(s);
    assert texts[..p] + texts[p..] == texts;
  }

  lemma HarmedRepeats(s: State, admin: bool, needsApproval: bool)
    requires BatchInv(s.row, s.nextId) && s.row.statements != []
    requires s.row.status == Failed && Harmed(s)
    ensures !Conserved(s, admin, needsApproval) && ResumesAt(s) <= Count(s)
    ensures Count(s) + |RetryRequest(s, admin, needsApproval).row.statements| > |s.row.statements|
  {
    RetryRequestTexts(s, admin, needsApproval);
  }

  /** The retry of a failed request neither loses nor repeats a statement of the
      present batch exactly when every step since the batch was last written was
      harmless; and, told from the record alone, exactly when it resumes right
      behind as many statements as there are succeeded executions. */
  lemma RetryConservesExactly(s: State, steps: seq<Step>, admin: bool, needsApproval: bool)
    requires Begins(s) && s.row.statements != [] && PromptRun(s, steps)
    requires Run(s, steps).row.status == Failed
    ensures Conserved(Run(s, steps), admin, needsApproval) <==> Untroubled(s, steps, true)
    ensures Conserved(Run(s, steps), admin, needsApproval) <==> ResumesAt(Run(s, steps)) == Count(Run(s, steps)) + 1
  {
    BeginsStraight(s);
    RunStays(s, steps, true);
    var t := Run(s, steps);
    if Untroubled(s, steps, true) {
      StraightConserves(t, admin, needsApproval);
    } else {
      HarmedRepeats(t, admin, needsApproval);
    }
  }

  // ---------------------------------------------------------------------
  // Requests that write

  /** A failure of a present statement is on record. */
  ghost predicate FailureOnRecord(statements: seq<Statement>, executions: seq<Execution>) {
    exists e :: e in executions && e.outcome == Broken && PositionOf(statements, e.item.statement).Some?
  }

  /** A batch that writes is claimed once, from its start: before that nothing of
      it has run, and after a failure nothing of it runs any more. */
  ghost predicate OneClaim(s: State) {
    s.row.kind == Write && s.row.status != Cancelled ==>
      && (s.row.status !in {Running, Failed, Completed} ==> Untouched(s.row.statements, s.log.executions))
      && (s.worker.Executing? ==> At(s.row.statements, s.worker) == Count(s) + 1)
      && (FailureOnRecord(s.row.statements, s.log.executions) ==>
            ResumesAt(s) == Count(s) + 1 && (s.worker.Executing? ==> s.worker.phase == Caught))
      && (forall from | from in s.jobs :: from == 1) && (s.worker.Checked? ==> s.worker.from == 1)
  }

  lemma MarkedRecord(statements: seq<Statement>, executions: seq<Execution>)
    requires executions != [] && executions[|executions| - 1].outcome == Started
    requires FailureOnRecord(statements, Marked(executions, Succeeded))
    ensures FailureOnRecord(statements, executions)
  {
    var marked := Marked(executions, Succeeded);
    var e :| e in marked && e.outcome == Broken && PositionOf(statements, e.item.statement).Some?;
    var i :| 0 <= i < |marked| && marked[i] == e;
    assert executions[i] == e;
  }

  lemma QueueStepKeepsOneClaim(s: State, step: Step)
    requires Conditions(s) && OneClaim(s) && AtTheQueue(step)
    ensures OneClaim(Next(s, step))
  {
    QueueStepKeepsCounts(s, step);
  }

  lemma ClaimKeepsOneClaim(s: State, disabled: bool, needsApproval: bool)
    requires Conditions(s) && OneClaim(s)
    ensures OneClaim(ClaimBatchStep(s, disabled, needsApproval))
  {
    var t := ClaimBatchStep(s, disabled, needsApproval);
    assert SameCounts(s, t);
    if s.worker.Checked? && s.row.kind == Write && s.row.status != Cancelled {
      FromIsSuffix(s.row.statements, s.nextId, s.worker.from);
      UntouchedStartsOver(s.row.statements, s.log.executions);
    }
  }

  lemma StartKeepsOneClaim(s: State)
    requires Conditions(s) && OneClaim(s)
    ensures OneClaim(StartStep(s))
  {
    var t := StartStep(s);
    if t != s {
      var e := t.log.executions[|s.log.executions|];
      Appended(s.row.statements, s.log.executions, e);
      assert t.log.executions == s.log.executions + [e];
      assert FailureOnRecord(t.row.statements, t.log.executions) ==>
             FailureOnRecord(s.row.statements, s.log.executions);
    }
  }

  lemma EndKeepsOneClaim(s: State, step: Step)
    requires Conditions(s) && OneClaim(s) && (step.Succeed? || step.Break?)
    requires s.worker.Executing? && s.worker.phase == InFlight
    ensures OneClaim(Next(s, step))
  {
    if step.Succeed? {
      SuccessStays(s);
      if FailureOnRecord(s.row.statements, Marked(s.log.executions, Succeeded)) {
        MarkedRecord(s.row.statements, s.log.executions);
      }
    } else {
      FailureStays(s);
    }
  }

  lemma LeavingKeepsOneClaim(s: State, step: Step)
    requires Conditions(s) && OneClaim(s) && (step.Look? || step.RecordFailure? || step.Complete? || step.Die?)
    ensures OneClaim(Next(s, step))
  {
    assert SameCounts(s, Next(s, step));
  }

  lemma StepKeepsOneClaim(s: State, step: Step)
    requires Conditions(s) && OneClaim(s)
    ensures OneClaim(Next(s, step))
  {
    match step
    case ClaimBatch(disabled, needsApproval) => ClaimKeepsOneClaim(s, disabled, needsApproval);
    case Start => StartKeepsOneClaim(s);
    case Succeed => if s.worker.Executing? && s.worker.phase == InFlight { EndKeepsOneClaim(s, step); }
    case Break => if s.worker.Executing? && s.worker.phase == InFlight { EndKeepsOneClaim(s, step); }
    case Look => LeavingKeepsOneClaim(s, step);
    case RecordFailure => LeavingKeepsOneClaim(s, step);
    case Complete => LeavingKeepsOneClaim(s, step);
    case Die => LeavingKeepsOneClaim(s, step);
    case Update(_, _, _, _, _, _) => EditKeepsOneClaim(s, step);
    case SaveDraft(_) => EditKeepsOneClaim(s, step);
    case _ => QueueStepKeepsOneClaim(s, step);
  }

  lemma EditKeepsOneClaim(s: State, step: Step)
    requires Conditions(s) && OneClaim(s) && (step.Update? || step.SaveDraft?)
    ensures OneClaim(Next(s, step))
  {
    if Rewrites(s, step) {
      RewriteStraightens(s, step);
    } else {
      RefusedEditStays(s, step, if step.Update? then step.batch else AsDraft(step.batch));
    }
  }

  lemma {:induction false} RunKeepsOneClaim(s: State, steps: seq<Step>)
    requires ChainInv(s) && OneClaim(s) && PromptRun(s, steps)
    ensures OneClaim(Run(s, steps))
    decreases |steps|
  {
    if steps != [] {
      StepKeepsChainInv(s, steps[0]);
      StepKeepsOneClaim(s, steps[0]);
      RunKeepsOneClaim(Next(s, steps[0]), steps[1..]);
    }
  }

  /** Nothing on record to resume from. */
  lemma {:induction false} NoFailureStartsOver(statements: seq<Statement>, executions: seq<Execution>)
    requires !FailureOnRecord(statements, executions)
    ensures RetryFrom(statements, executions) == 1
    decreases |executions|
  {
    if executions != [] {
      var init, last := executions[..|executions| - 1], executions[|executions| - 1];
      assert last in executions;
      assert !FailureOnRecord(statements, init);
      NoFailureStartsOver(statements, init);
    }
  }

  /** The retry of a failed request that writes repeats nothing exactly when
      nothing had succeeded or a failed execution says where to resume. */
  lemma WriteRetryConservesExactly(s: State, steps: seq<Step>, admin: bool, needsApproval: bool)
    requires Begins(s) && s.row.statements != [] && PromptRun(s, steps)
    requires Run(s, steps).row.status == Failed && Run(s, steps).row.kind == Write
    ensures var t := Run(s, steps);
            Conserved(t, admin, needsApproval)
            <==> DoneOf(t) == [] || FailureOnRecord(t.row.statements, t.log.executions)
  {
    BeginsStraight(s);
    UntouchedStartsOver(s.row.statements, s.log.executions);
    RunKeepsOneClaim(s, steps);
    RetryConservesExactly(s, steps, admin, needsApproval);
    var t := Run(s, steps);
    if !FailureOnRecord(t.row.statements, t.log.executions) {
      NoFailureStartsOver(t.row.statements, t.log.executions);
    }
  }

  // ---------------------------------------------------------------------
  // Chains of linked requests

  /** One request of a chain: how it ran, and what the policy said when it was
      retried. */
  datatype Link = Link(steps: seq<Step>, admin: bool, needsApproval: bool)

  function AfterLink(s: State, link: Link): State {
    Run(s, link.steps)
  }

  function NextRequest(s: State, link: Link): State {
    RetryRequest(AfterLink(s, link), link.admin, link.needsApproval)
  }

  /** A chain of linked retries, none of which changes what it was given: each
      request but the last fails, and the last fails or completes. */
  ghost predicate Chain(s: State, links: seq<Link>)
    decreases |links|
  {
    && links != []
    && PromptRun(s, links[0].steps)
    && TextsOf(AfterLink(s, links[0]).row.statements) == TextsOf(s.row.statements)
    && (if |links| == 1 then AfterLink(s, links[0]).row.status in {Failed, Completed}
        else AfterLink(s, links[0]).row.status == Failed && Chain(NextRequest(s, links[0]), links[1..]))
  }

  /** No request of the chain was troubled. */
  predicate UntroubledChain(s: State, links: seq<Link>)
    decreases |links|
  {
    links == [] || (Untroubled(s, links[0].steps, true) && UntroubledChain(NextRequest(s, links[0]), links[1..]))
  }

  /** Everything that succeeded along a chain. */
  function DoneAlong(s: State, links: seq<Link>): seq<Text>
    decreases |links|
  {
    if links == [] then []
    else DoneOf(AfterLink(s, links[0])) + DoneAlong(NextRequest(s, links[0]), links[1..])
  }

  /** What the last request of a chain would hand on to the next. */
  function LeftAfter(s: State, links: seq<Link>): seq<Text>
    decreases |links|
  {
    if links == [] then []
    else if |links| > 1 then LeftAfter(NextRequest(s, links[0]), links[1..])
    else if AfterLink(s, links[0]).row.status == Completed then []
    else TextsOf(NextRequest(s, links[0]).row.statements)
  }

  /** A failed request passes on at least what it has not done, and no more
      exactly when it was not troubled; a completed one has done everything, and
      everything once exactly when it was not troubled. */
  lemma LinkConserves(s: State, link: Link)
    requires Begins(s) && s.row.statements != [] && PromptRun(s, link.steps)
    ensures var t := AfterLink(s, link);
            t.row.status == Failed ==>
              && Begins(NextRequest(s, link)) && NextRequest(s, link).row.statements != []
              && (Conserved(t, link.admin, link.needsApproval) <==> Untroubled(s, link.steps, true))
              && |DoneOf(t)| + |NextRequest(s, link).row.statements| >= |t.row.statements|
              && (|DoneOf(t)| + |NextRequest(s, link).row.statements| == |t.row.statements|
                  <==> Untroubled(s, link.steps, true))
    ensures var t := AfterLink(s, link);
            t.row.status == Completed ==>
              && (DoneOf(t) == TextsOf(t.row.statements) <==> Untroubled(s, link.steps, true))
              && |DoneOf(t)| >= |t.row.statements|
  {
    var t := AfterLink(s, link);
    BeginsStraight(s);
    RunStays(s, link.steps, true);
    if t.row.status == Failed {
      RetryConservesExactly(s, link.steps, link.admin, link.needsApproval);
      RetryRequestBegins(t, link.admin, link.needsApproval);
      RetryRequestTexts(t, link.admin, link.needsApproval);
      if !Untroubled(s, link.steps, true) {
        HarmedRepeats(t, link.admin, link.needsApproval);
      }
    }
  }

  /** A chain never does less than its batch. */
  lemma {:induction false} NothingIsLostAlong(s: State, links: seq<Link>)
    requires Begins(s) && s.row.statements != [] && Chain(s, links)
    ensures |DoneAlong(s, links)| + |LeftAfter(s, links)| >= |s.row.statements|
    decreases |links|
  {
    var link, rest := links[0], links[1..];
    LinkConserves(s, link);
    assert |TextsOf(AfterLink(s, link).row.statements)| == |TextsOf(s.row.statements)|;
    if |links| > 1 {
      NothingIsLostAlong(NextRequest(s, link), rest);
    }
  }

  /** A chain of more than one request, given what holds of its rest. */
  lemma ChainConserves(s: State, links: seq<Link>)
    requires Begins(s) && s.row.statements != [] && Chain(s, links) && |links| > 1
    requires var next := NextRequest(s, links[0]);
             && |DoneAlong(next, links[1..])| + |LeftAfter(next, links[1..])| >= |next.row.statements|
             && (DoneAlong(next, links[1..]) + LeftAfter(next, links[1..]) == TextsOf(next.row.statements)
                 <==> UntroubledChain(next, links[1..]))
    ensures DoneAlong(s, links) + LeftAfter(s, links) == TextsOf(s.row.statements) <==> UntroubledChain(s, links)
  {
    var link, rest := links[0], links[1..];
    var t, next := AfterLink(s, link), NextRequest(s, link);
    LinkConserves(s, link);
    var later, texts := DoneAlong(next, rest) + LeftAfter(next, rest), TextsOf(s.row.statements);
    Regrouped(DoneOf(t), DoneAlong(next, rest), LeftAfter(next, rest));
    assert DoneAlong(s, links) + LeftAfter(s, links) == DoneOf(t) + later;
    if Untroubled(s, link.steps, true) {
      assert texts == DoneOf(t) + TextsOf(next.row.statements);
      SamePrefix(DoneOf(t), later, TextsOf(next.row.statements));
    } else {
      assert |DoneOf(t) + later| > |texts|;
    }
  }

  lemma LastConserves(s: State, links: seq<Link>)
    requires Begins(s) && s.row.statements != [] && Chain(s, links) && |links| == 1
    ensures DoneAlong(s, links) + LeftAfter(s, links) == TextsOf(s.row.statements) <==> UntroubledChain(s, links)
  {
    var link := links[0];
    LinkConserves(s, link);
    assert links[1..] == [];
    Regrouped(DoneOf(AfterLink(s, link)), [], LeftAfter(s, links));
    assert DoneAlong(s, links) == DoneOf(AfterLink(s, link)) + [];
  }

  /** Along any chain of retries, what has succeeded, in order, followed by what
      is left, is the batch the chain began with, no statement lost and none
      repeated, exactly when no request of the chain was troubled. A chain that
      completes leaves nothing. */
  lemma {:induction false} RetriesConserveTheBatch(s: State, links: seq<Link>)
    requires Begins(s) && s.row.statements != [] && Chain(s, links)
    ensures DoneAlong(s, links) + LeftAfter(s, links) == TextsOf(s.row.statements) <==> UntroubledChain(s, links)
    decreases |links|
  {
    if |links| > 1 {
      var next := NextRequest(s, links[0]);
      LinkConserves(s, links[0]);
      NothingIsLostAlong(next, links[1..]);
      RetriesConserveTheBatch(next, links[1..]);
      ChainConserves(s, links);
    } else {
      LastConserves(s, links);
    }
  }

  lemma Regrouped(a: seq<Text>, b: seq<Text>, c: seq<Text>)
    ensures (a + b) + c == a + (b + c)
    ensures b == [] ==> (a + b) + c == a + c
  {
  }

  lemma SamePrefix(a: seq<Text>, b: seq<Text>, c: seq<Text>)
    ensures a + b == a + c <==> b == c
  {
    if a + b == a + c {
      assert b == (a + b)[|a|..] == (a + c)[|a|..] == c;
    }
  }

  // ---------------------------------------------------------------------
  // Runs in which a retry repeats what succeeded

  lemma DoneOfTwo(s: State, a: Text, b: Text, executions: seq<Execution>, e: Execution)
    requires s.row.statements == Numbered([a, b], 0) && s.log.executions == executions + [e]
    requires e.item in {Item(Some(0), 1, a), Item(Some(1), 2, b)}
    ensures DoneOf(s) == Done(s.row.statements, executions) + if e.outcome == Succeeded then [e.item.text] else []
    ensures ResumesAt(s) == if e.outcome == Broken then e.item.position else RetryFrom(s.row.statements, executions)
  {
    PositionOfAt(s.row.statements, 0);
    PositionOfAt(s.row.statements, 1);
    Appended(s.row.statements, executions, e);
  }

  lemma FirstOfTwoSucceeds(requester: User, a: Text, b: Text) returns (steps: seq<Step>)
    ensures var s := Created(requester, false, false, false, [a, b]);
            var t := Run(s, steps);
            && PromptRun(s, steps)
            && t.row == s.row.(status := Running, dispatched := true) && t.failing == 0 && |t.log.claims| == 1
            && t.worker == Executing([Item(Some(0), 1, a), Item(Some(1), 2, b)], 1, Cleared)
            && t.log.executions == [Execution(Item(Some(0), 1, a), 0, 0, Succeeded)]
  {
    var s := Created(requester, false, false, false, [a, b]);
    var s1 := Next(s, Dispatch(false, false));
    RunCons(s, Dispatch(false, false), []);
    assert [Dispatch(false, false)] + [] == [Dispatch(false, false)];
    NoRetryIsPrompt(s, [Dispatch(false, false)]);
    var first := FirstOfTwo(s1, a, b);
    NoRetryIsPrompt(s1, first);
    var s2 := Run(s1, first);
    var second := FirstSucceeds(s2, s2.worker.items);
    NoRetryIsPrompt(s2, second);
    steps := PromptThen(s1, first, second);
    steps := PromptThen(s, [Dispatch(false, false)], steps);
  }

  lemma DiesInFlight(s: State, items: seq<Item>) returns (steps: seq<Step>)
    requires s.worker == Executing(items, 1, Cleared) && |items| == 2 && |s.log.claims| == 1
    requires s.row.status == Running && s.failing == 0
    ensures PromptRun(s, steps)
    ensures var t := Run(s, steps);
            t.row == s.row.(status := Failed)
            && t.log.executions == s.log.executions + [Execution(items[1], 0, 1, Started)]
  {
    steps := PromptThree(s, Start, Die, HandleFailure);
  }

  /** The first of two statements succeeds, and the job dies in the second. */
  lemma DiesInTheSecond(requester: User, a: Text, b: Text) returns (steps: seq<Step>)
    ensures var s := Created(requester, false, false, false, [a, b]);
            var t := Run(s, steps);
            && PromptRun(s, steps)
            && t.row.status == Failed && t.row.statements == Numbered([a, b], 0)
            && t.log.executions == [Execution(Item(Some(0), 1, a), 0, 0, Succeeded),
                                    Execution(Item(Some(1), 2, b), 0, 1, Started)]
  {
    var s := Created(requester, false, false, false, [a, b]);
    var first := FirstOfTwoSucceeds(requester, a, b);
    var s1 := Run(s, first);
    var death := DiesInFlight(s1, s1.worker.items);
    steps := PromptThen(s, first, death);
  }

  /** The linked retry then runs both. */
  lemma DeathRepeatsWhatSucceeded(requester: User, a: Text, b: Text) returns (steps: seq<Step>)
    ensures var s := Created(requester, false, false, false, [a, b]);
            var t := Run(s, steps);
            && PromptRun(s, steps)
            && t.row.status == Failed && DoneOf(t) == [a]
            && TextsOf(RetryRequest(t, false, false).row.statements) == [a, b]
  {
    steps := DiesInTheSecond(requester, a, b);
    var t := Run(Created(requester, false, false, false, [a, b]), steps);
    var e0, e1 := t.log.executions[0], t.log.executions[1];
    DoneAfterTwo(t, a, b, e0, e1);
    RetryTextsOfTwo(t, a, b);
  }

  lemma DoneAfterOne(s: State, a: Text, b: Text, e: Execution)
    requires s.row.statements == Numbered([a, b], 0) && s.log.executions == [e]
    requires e.item in {Item(Some(0), 1, a), Item(Some(1), 2, b)}
    ensures DoneOf(s) == if e.outcome == Succeeded then [e.item.text] else []
    ensures ResumesAt(s) == if e.outcome == Broken then e.item.position else 1
  {
    assert [e] == [] + [e];
    DoneOfTwo(s, a, b, [], e);
  }

  lemma DoneAfterTwo(s: State, a: Text, b: Text, e: Execution, f: Execution)
    requires s.row.statements == Numbered([a, b], 0) && s.log.executions == [e, f]
    requires e.item in {Item(Some(0), 1, a), Item(Some(1), 2, b)}
    requires f.item in {Item(Some(0), 1, a), Item(Some(1), 2, b)}
    ensures DoneOf(s) == (if e.outcome == Succeeded then [e.item.text] else [])
                         + (if f.outcome == Succeeded then [f.item.text] else [])
    ensures ResumesAt(s) == if f.outcome == Broken then f.item.position
                            else if e.outcome == Broken then e.item.position else 1
  {
    assert [e, f] == [e] + [f];
    DoneAfterOne(s.(log := s.log.(executions := [e])), a, b, e);
    DoneOfTwo(s, a, b, [e], f);
  }

  lemma RetryTextsOfTwo(s: State, a: Text, b: Text)
    requires s.row.statements == Numbered([a, b], 0)
    ensures ResumesAt(s) in {1, 2}
    ensures TextsOf(RetryRequest(s, false, false).row.statements) == if ResumesAt(s) == 1 then [a, b] else [b]
  {
    ResumesInside(s.row.statements, 2, s.log.executions);
    TextsFrom(s.row.statements, s.row.kind, 2, ResumesAt(s) - 1);
    var batch := Texts(ToRun(s.row.statements, s.row.kind, ResumesAt(s)));
    TextsOfNumbered(batch, 0);
    assert TextsOf(s.row.statements) == [a, b];
    assert RetryRequest(s, false, false).row.statements == Numbered(batch, 0);
  }

  /** Two reads of which the second failed: its retry is accepted and picked up. */
  lemma SecondIsRetried(s: State) returns (steps: seq<Step>)
    requires FailedLate(s) && ResumesAt(s) == 2 && !NeedsFreshApproval(s.row, false)
    ensures PromptRun(s, steps)
    ensures Run(s, steps) == s.(row := s.row.(status := Approved, dispatched := true), worker := Checked(2),
                                failing := 0)
  {
    steps := [HandleFailure, Retry(false), Pick(0)];
    RunThree(s, HandleFailure, Retry(false), Pick(0));
    var u := Next(s, HandleFailure);
    NoRetryIsPrompt(Next(u, Retry(false)), [Pick(0)]);
    assert [Retry(false), Pick(0)][1..] == [Pick(0)];
    assert PromptRun(u, [Retry(false), Pick(0)]);
    assert steps[1..] == [Retry(false), Pick(0)];
  }

  function ItemAtPosition(a: Text, b: Text, position: nat): Item {
    if position == 1 then Item(Some(0), 1, a) else Item(Some(1), 2, b)
  }

  /** The worker starts the statement at a position of a batch of two. */
  lemma StartsAt(s: State, a: Text, b: Text, position: nat) returns (steps: seq<Step>)
    requires s.row.statements == Numbered([a, b], 0) && 1 <= position <= 2
    requires s.worker == Checked(position) && s.row.status == Approved && !NeedsFreshApproval(s.row, false)
    ensures PromptRun(s, steps)
    ensures var t := Run(s, steps);
            && t.row == s.row.(status := Running) && t.jobs == s.jobs && t.failing == s.failing
            && t.worker == Executing([Item(Some(0), 1, a), Item(Some(1), 2, b)][position - 1..], 0, InFlight)
            && t.log.claims != []
            && t.log.executions == s.log.executions
                                   + [Execution(ItemAtPosition(a, b, position), |s.log.claims|, 0, Started)]
  {
    RunsFrom(s.row.statements, s.row.kind, a, b, position);
    steps := ClaimAndStart(s, [Item(Some(0), 1, a), Item(Some(1), 2, b)][position - 1..]);
  }

  lemma RunsFrom(statements: seq<Statement>, kind: Kind, a: Text, b: Text, position: nat)
    requires statements == Numbered([a, b], 0) && 1 <= position <= 2
    ensures ToRun(statements, kind, position) == [Item(Some(0), 1, a), Item(Some(1), 2, b)][position - 1..]
  {
    var x, y := statements[0], statements[1];
    assert statements == [x, y];
    FromTwo(x, y, position);
    assert ItemOf(x) == Item(Some(0), 1, a) && ItemOf(y) == Item(Some(1), 2, b);
  }

  lemma {:induction false} FromTwo(x: Statement, y: Statement, position: nat)
    requires x.position == 1 && y.position == 2 && 1 <= position <= 2
    ensures From([x, y], position) == [ItemOf(x), ItemOf(y)][position - 1..]
  {
    assert [x, y][1..] == [y] && [y][1..] == [];
    assert From([y], position) == [ItemOf(y)];
    if position == 1 {
      assert From([x, y], 1) == [ItemOf(x)] + [ItemOf(y)];
    } else {
      assert [ItemOf(x), ItemOf(y)][1..] == [ItemOf(y)];
    }
  }

  lemma ClaimAndStart(s: State, items: seq<Item>) returns (steps: seq<Step>)
    requires s.worker.Checked? && s.row.status == Approved && !NeedsFreshApproval(s.row, false)
    requires items == ToRun(s.row.statements, s.row.kind, s.worker.from)
    ensures PromptRun(s, steps)
    ensures var t := Run(s, steps);
            && t.row == s.row.(status := Running) && t.jobs == s.jobs && t.failing == s.failing
            && t.worker == Executing(items, 0, InFlight) && t.log.claims != []
            && t.log.executions == s.log.executions + [Execution(items[0], |s.log.claims|, 0, Started)]
  {
    steps := PromptThree(s, ClaimBatch(false, false), Look, Start);
  }

  /** After the first failure one more statement succeeds, behind which the job dies. */
  lemma SucceedsAndDies(s: State, a: Text, b: Text, position: nat) returns (steps: seq<Step>)
    requires s.row.statements == Numbered([a, b], 0) && 1 <= position <= 2 && |s.log.executions| == 2
    requires s.worker == Checked(position) && s.row.status == Approved && s.failing == 0
    requires !NeedsFreshApproval(s.row, false)
    ensures PromptRun(s, steps)
    ensures var t := Run(s, steps);
            && t.row == s.row.(status := Failed)
            && t.log.executions == s.log.executions
                                   + [Execution(ItemAtPosition(a, b, position), |s.log.claims|, 0, Succeeded)]
  {
    var start := StartsAt(s, a, b, position);
    var u := Run(s, start);
    var death := PromptThree(u, Succeed, Die, HandleFailure);
    MarkedSplit(u.log.executions, Succeeded);
    steps := PromptThen(s, start, death);
  }

  lemma DoneAfterThree(s: State, a: Text, b: Text, e: Execution, f: Execution, g: Execution)
    requires s.row.statements == Numbered([a, b], 0) && s.log.executions == [e, f] + [g]
    requires e == Execution(Item(Some(0), 1, a), 0, 0, Succeeded) && f == Execution(Item(Some(1), 2, b), 0, 1, Broken)
    requires g.item in {Item(Some(0), 1, a), Item(Some(1), 2, b)} && g.outcome == Succeeded
    ensures DoneOf(s) == [a] + [g.item.text] && ResumesAt(s) == 2
    ensures FailureOnRecord(s.row.statements, s.log.executions)
  {
    DoneAfterTwo(s.(log := s.log.(executions := [e, f])), a, b, e, f);
    DoneOfTwo(s, a, b, [e, f], g);
    PositionOfAt(s.row.statements, 1);
    assert f in s.log.executions;
  }

  /** A failed execution on record is not enough: the retry's job dies behind the
      success of the statement that had failed, and the next retry, resuming from
      the old failure, runs it again. */
  lemma OldFailureIsResumedFrom(requester: User, a: Text, b: Text) returns (steps: seq<Step>)
    requires a.kind == Read && b.kind == Read
    ensures var s := Created(requester, false, false, false, [a, b]);
            var t := Run(s, steps);
            && PromptRun(s, steps)
            && t.row.status == Failed && DoneOf(t) == [a, b]
            && FailureOnRecord(t.row.statements, t.log.executions)
            && TextsOf(RetryRequest(t, false, false).row.statements) == [b]
  {
    var s := Created(requester, false, false, false, [a, b]);
    var failure := FailureIsReached(requester, a, b);
    var s1 := Run(s, failure);
    var retry := SecondIsRetried(s1);
    var s2 := Run(s1, retry);
    var death := SucceedsAndDies(s2, a, b, 2);
    var t := Run(s2, death);
    steps := PromptThen(s1, retry, death);
    steps := PromptThen(s, failure, steps);
    DoneAfterThree(t, a, b, s1.log.executions[0], s1.log.executions[1], t.log.executions[2]);
    RetryTextsOfTwo(t, a, b);
  }

  lemma IsRedispatched(s: State) returns (steps: seq<Step>)
    requires s.worker == Checked(2) && s.row.status == Approved && s.jobs == [] && !NeedsFreshApproval(s.row, false)
    ensures PromptRun(s, steps)
    ensures Run(s, steps) == s.(row := s.row.(dispatched := true), worker := Checked(1))
  {
    steps := PromptThree(s, TurnBack, Dispatch(false, false), Pick(0));
    assert Without([1], 0) == [];
  }

  /** An accepted retry of a failed read is turned back by a blocked preflight, is
      dispatched again, from its start, and runs the first statement again. */
  lemma RedispatchRepeatsARead(requester: User, a: Text, b: Text) returns (steps: seq<Step>)
    requires a.kind == Read && b.kind == Read
    ensures var s := Created(requester, false, false, false, [a, b]);
            var t := Run(s, steps);
            && PromptRun(s, steps)
            && t.row.status == Failed && DoneOf(t) == [a, a] && !Conserved(t, false, false)
  {
    var s := Created(requester, false, false, false, [a, b]);
    var failure := FailureIsReached(requester, a, b);
    var s1 := Run(s, failure);
    var retry := SecondIsRetried(s1);
    var s2 := Run(s1, retry);
    var again := IsRedispatched(s2);
    var s3 := Run(s2, again);
    var death := SucceedsAndDies(s3, a, b, 1);
    var t := Run(s3, death);
    steps := PromptThen(s2, again, death);
    steps := PromptThen(s1, retry, steps);
    steps := PromptThen(s, failure, steps);
    DoneAfterThree(t, a, b, s1.log.executions[0], s1.log.executions[1], t.log.executions[2]);
    RetryTextsOfTwo(t, a, b);
    assert |DoneOf(t) + [b]| > |TextsOf(t.row.statements)|;
  }
}
