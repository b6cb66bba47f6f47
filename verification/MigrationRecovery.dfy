/**
  The fence is never orphaned: from every state a careful run can reach, crash
  states included, some list of operator commands and process restarts gives the
  fence back, and no command fails but one that has to. The lemmas go backwards
  along the statuses.
*/
module MigrationRecovery {
  import opened Base
  import opened MigrationProtocol
  import opened MigrationSafety
  import opened MigrationGuarantees

  /** Commands, their normal progress, restarts, and what runs, waits or is being
      pushed coming to its end. No failure, no crash, no application write, no new
      work. */
  predicate Benign(step: Step) {
    !step.Crash? && !step.AppWrite? && !step.MutationBegin? && !step.MutationWrite?
    && !step.JobLook? && !step.JobRetried?
    && !step.DrainFail? && !step.Throw? && !step.FailRecord? && !step.FailSkip?
  }

  predicate AllBenign(steps: seq<Step>) {
    forall step | step in steps :: Benign(step)
  }

  /** A job that was pushed into paused queues waits there, and a drain can only
      time out. */
  predicate CannotDrain(s: State) {
    s.queues.paused && s.queues.waiting > 0
  }

  /** Nothing but a resumption of the queues changes that. */
  lemma StrayJobBlocksTheDrain(s: State, step: Step)
    requires CannotDrain(s)
    ensures Next(s, DrainDone) == s
    ensures CannotDrain(Next(s, step)) || step.ResumeQueues? || step.Release? || step.CancelRelease?
  {
    if ByCommand(step) {
      CommandsLeaveTheQueues(s, step);
    } else if ByCopy(step) || ByStart(step) {
      CopiesLeaveTheJobs(s, step);
    } else if !(step.ResumeQueues? || step.Release? || step.CancelRelease?) {
      OthersLeaveTheJobs(s, step);
    }
  }

  lemma CommandsLeaveTheQueues(s: State, step: Step)
    requires ByCommand(step)
    ensures Next(s, step).queues == s.queues
  {
  }

  lemma CopiesLeaveTheJobs(s: State, step: Step)
    requires ByCopy(step) || ByStart(step)
    ensures Next(s, step).queues.waiting == s.queues.waiting && (s.queues.paused ==> Next(s, step).queues.paused)
  {
  }

  lemma OthersLeaveTheJobs(s: State, step: Step)
    requires CannotDrain(s) && !ByCommand(step) && !ByCopy(step) && !ByStart(step)
    requires !(step.ResumeQueues? || step.Release? || step.CancelRelease?)
    ensures CannotDrain(Next(s, step))
  {
  }

  /** No step fails, except a drain that has to. */
  predicate UnfailingRun(s: State, steps: seq<Step>)
    decreases |steps|
  {
    steps == []
    || ((Benign(steps[0]) || (steps[0].DrainFail? && CannotDrain(s))) && UnfailingRun(Next(s, steps[0]), steps[1..]))
  }

  lemma {:induction false} UnfailingConcat(s: State, a: seq<Step>, b: seq<Step>)
    requires AllBenign(a) && UnfailingRun(Run(s, a), b)
    ensures UnfailingRun(s, a + b)
    decreases |a|
  {
    if a == [] {
      assert a + b == b;
    } else {
      assert (a + b)[1..] == a[1..] + b;
      UnfailingConcat(Next(s, a[0]), a[1..], b);
    }
  }

  lemma BenignIsUnfailing(s: State, steps: seq<Step>)
    requires AllBenign(steps)
    ensures UnfailingRun(s, steps)
  {
    UnfailingConcat(s, steps, []);
    assert steps + [] == steps;
  }

  /** What a list of recovery steps must satisfy. */
  ghost predicate Recovers(s: State, steps: seq<Step>) {
    UnfailingRun(s, steps) && CarefulRun(s, steps) && Run(s, steps).fence.None?
  }

  /** No other plan is touched. */
  ghost predicate Kept(s: State, t: State, id: PlanId) {
    && t.order == s.order && t.current == s.current && t.plans - {id} == s.plans - {id}
    && id in s.plans && id in t.plans
    && t.plans[id].source == s.plans[id].source && t.plans[id].destination == s.plans[id].destination
  }

  predicate OtherDisk(s: State, t: State, id: PlanId) {
    var plan := PlanOf(s, id);
    t.databases - {plan.source, plan.destination} == s.databases - {plan.source, plan.destination}
  }

  /** Benign steps to a free fence, an idle operator, and this file. */
  ghost predicate Leads(s: State, steps: seq<Step>, id: PlanId, file: Payload, status: Status) {
    var t := Run(s, steps);
    && AllBenign(steps) && CarefulRun(s, steps)
    && t.fence.None? && t.op.Idle? && t.file == file && Kept(s, t, id) && t.plans[id].status == status
  }

  lemma LeadsAfter(s: State, a: seq<Step>, b: seq<Step>, id: PlanId, file: Payload, status: Status)
    requires AllBenign(a) && CarefulRun(s, a) && Kept(s, Run(s, a), id) && Leads(Run(s, a), b, id, file, status)
    ensures Leads(s, a + b, id, file, status)
  {
    CarefulConcat(s, a, b);
    RunConcat(s, a, b);
  }

  lemma LeadingRecovers(s: State, steps: seq<Step>, id: PlanId, file: Payload, status: Status)
    requires Leads(s, steps, id, file, status)
    ensures Recovers(s, steps)
  {
    BenignIsUnfailing(s, steps);
  }

  lemma {:induction false} CarefulConcat(s: State, a: seq<Step>, b: seq<Step>)
    requires CarefulRun(s, a) && CarefulRun(Run(s, a), b)
    ensures CarefulRun(s, a + b)
    decreases |a|
  {
    if a == [] {
      assert a + b == b;
    } else {
      assert (a + b)[1..] == a[1..] + b;
      CarefulConcat(Next(s, a[0]), a[1..], b);
    }
  }

  lemma RecoverAfter(s: State, a: seq<Step>, b: seq<Step>)
    requires AllBenign(a) && CarefulRun(s, a) && Recovers(Run(s, a), b)
    ensures Recovers(s, a + b)
  {
    CarefulConcat(s, a, b);
    RunConcat(s, a, b);
    UnfailingConcat(s, a, b);
  }

  lemma RunTwo(s: State, a: Step, b: Step)
    ensures Run(s, [a, b]) == Next(Next(s, a), b)
    ensures CarefulRun(s, [a, b]) <==> Careful(s, a) && Careful(Next(s, a), b)
  {
    RunCons(s, a, [b]);
    RunCons(Next(s, a), b, []);
    assert [a, b] == [a] + [b];
    assert [b] == [b] + [];
    assert [a, b][1..] == [b];
    assert CarefulRun(Next(s, a), [b]) <==> Careful(Next(s, a), b);
  }

  // ---------------------------------------------------------------------
  // Restarting processes

  /** Everything on disk, and nothing of the processes. */
  ghost predicate SameDisk(s: State, t: State) {
    && t.order == s.order && t.plans == s.plans && t.current == s.current && t.fence == s.fence
    && t.file == s.file && t.databases == s.databases && t.committed == s.committed
  }

  function Restarted(s: State, rest: set<Process>): State {
    s.(loaded := map q | q in s.loaded.Keys + rest :: if q in rest then s.file else s.loaded[q],
       running := s.running - rest,
       op := if Runner(s.op) in rest then Idle else s.op)
  }

  lemma RestartOneMore(s: State, q: Process, rest: set<Process>)
    requires q in rest
    ensures Restarted(RestartStep(s, q), rest - {q}) == Restarted(s, rest)
  {
  }

  lemma RestartedNone(s: State)
    ensures Restarted(s, {}) == s
  {
    assert Restarted(s, {}).loaded == s.loaded;
    assert s.running - {} == s.running;
  }

  lemma {:induction false} RestartEach(s: State, rest: set<Process>) returns (steps: seq<Step>)
    ensures forall step | step in steps :: step.Restart?
    ensures Run(s, steps) == Restarted(s, rest)
    decreases |rest|
  {
    if rest == {} {
      steps := [];
      RestartedNone(s);
    } else {
      var q :| q in rest;
      var tail := RestartEach(RestartStep(s, q), rest - {q});
      steps := [Restart(q)] + tail;
      RunCons(s, Restart(q), tail);
      RestartOneMore(s, q, rest);
    }
  }

  /** Process 0 runs the commands, process 1 works off the queues. */
  const WORKER: Process := 1

  /** All processes freshly restarted, no command running, and nobody left who
      could write behind a fence. */
  ghost predicate Quiet(s: State, p: Process) {
    Inv(s) && s.op.Idle? && NobodyLeft(s) && Synced(s) && p in s.loaded
  }

  /** Whatever runs inside a mutation or a job comes to its end. */
  lemma {:induction false} EndEach(s: State, rest: set<Process>) returns (steps: seq<Step>)
    ensures forall step | step in steps :: step.MutationEnd?
    ensures Run(s, steps) == s.(running := s.running - rest)
    decreases |rest|
  {
    if rest == {} {
      steps := [];
      assert s.running - {} == s.running;
    } else {
      var q :| q in rest;
      var tail := EndEach(s.(running := s.running - {q}), rest - {q});
      steps := [MutationEnd(q)] + tail;
      RunCons(s, MutationEnd(q), tail);
      assert s.running - {q} - (rest - {q}) == s.running - rest;
    }
  }

  lemma OneJob(s: State, p: Process) returns (steps: seq<Step>)
    requires p in s.loaded && s.running == {} && s.queues.waiting > 0 && !s.queues.paused
    ensures forall step | step in steps :: Benign(step) && Uneventful(step)
    ensures Run(s, steps) == s.(queues := s.queues.(waiting := s.queues.waiting - 1))
  {
    steps := [JobBegin(p), MutationEnd(p)];
    RunTwoSteps(s, JobBegin(p), MutationEnd(p));
    assert s.running + {p} - {p} == s.running;
  }

  /** What is being pushed arrives, and the waiting jobs run, one after the other. */
  lemma {:induction false} WorkOff(s: State, p: Process) returns (steps: seq<Step>)
    requires p in s.loaded && s.running == {} && !s.queues.paused
    ensures forall step | step in steps :: Benign(step) && Uneventful(step)
    ensures Run(s, steps) == s.(queues := NONE)
    decreases s.queues.waiting + 2 * s.queues.pushing
  {
    if s.queues.pushing > 0 {
      var rest := WorkOff(JobPushStep(s), p);
      RunCons(s, JobPush, rest);
      steps := [JobPush] + rest;
    } else if s.queues.waiting > 0 {
      var one := OneJob(s, p);
      var rest := WorkOff(Run(s, one), p);
      RunConcat(s, one, rest);
      steps := one + rest;
    } else {
      steps := [];
    }
  }

  /** Processes are restarted when they have come to the end of what they were
      inside of; no job is lost. */
  lemma EndAndRestart(s: State) returns (steps: seq<Step>)
    requires Inv(s)
    ensures forall step | step in steps :: step.MutationEnd? || step.Restart?
    ensures var t := Run(s, steps);
            && SameDisk(s, t) && t.queues == s.queues && t.running == {} && t.op.Idle?
            && Synced(t) && 0 in t.loaded && WORKER in t.loaded && Inv(t)
  {
    var end := EndEach(s, s.running);
    var t := Run(s, end);
    assert t.running == {};
    var restart := RestartEach(t, t.loaded.Keys + {0, WORKER, Runner(t.op)});
    RunConcat(s, end, restart);
    steps := end + restart;
    UneventfulRunIsCareful(s, steps);
    RunKeepsInv(s, steps);
  }

  /** Behind paused queues nothing can be worked off; all else comes to an end. */
  lemma RestartAll(s: State) returns (steps: seq<Step>)
    requires Inv(s)
    ensures AllBenign(steps) && CarefulRun(s, steps)
    ensures SameDisk(s, Run(s, steps)) && Quiet(Run(s, steps), 0)
    ensures Run(s, steps).queues == if s.queues.paused then s.queues else NONE
  {
    steps := EndAndRestart(s);
    var t := Run(s, steps);
    if !t.queues.paused {
      var work := WorkOff(t, WORKER);
      RunConcat(s, steps, work);
      steps := steps + work;
    }
    UneventfulRunIsCareful(s, steps);
    RunKeepsInv(s, steps);
  }

  // ---------------------------------------------------------------------
  // Statuses that release at once

  lemma CancelRecovers(s: State, id: PlanId) returns (steps: seq<Step>)
    requires Quiet(s, 0) && s.fence == Some(id) && PlanOf(s, id).status in {Planned, Failed}
    ensures Recovers(s, steps)
  {
    steps := [BeginCancel(0, id), CancelRelease];
    RunTwo(s, BeginCancel(0, id), CancelRelease);
    BenignIsUnfailing(s, steps);
  }

  /** A copy that cannot be taken up again, because a job waits behind paused
      queues, is given up by a drain that times out. */
  lemma TimeOutRecovers(s: State, id: PlanId) returns (steps: seq<Step>)
    requires Quiet(s, 0) && s.fence == Some(id) && PlanOf(s, id).status in {Copying, Copied} && CannotDrain(s)
    ensures Recovers(s, steps)
  {
    OwnFenceCanBegin(s, id);
    var engage := EngageForMigration(s, 0, id);
    var giveUp := TimesOut(Run(s, engage));
    UneventfulRunIsCareful(s, engage);
    RecoverAfter(s, engage, giveUp);
    steps := engage + giveUp;
  }

  lemma TimesOut(s: State) returns (steps: seq<Step>)
    requires s.op.Draining? && s.fence == Some(s.op.job.id) && CannotDrain(s)
    ensures Recovers(s, steps)
  {
    steps := [DrainFail, Release];
    RunTwo(s, DrainFail, Release);
    BenignIsUnfailing(Next(s, DrainFail), [Release]);
    assert steps[1..] == [Release];
  }

  lemma FinalizeActivationRecovers(s: State, id: PlanId) returns (steps: seq<Step>)
    requires Quiet(s, 0) && s.fence == Some(id)
    requires PlanOf(s, id).status in {ActivationPendingRestart, Active}
    requires s.file == PlanOf(s, id).destination
    ensures Leads(s, steps, id, s.file, Active)
  {
    steps := [FinalizeActivation(0, id), Release];
    RunTwo(s, FinalizeActivation(0, id), Release);
  }

  lemma FinalizeRollbackRecovers(s: State, id: PlanId) returns (steps: seq<Step>)
    requires Quiet(s, 0) && s.fence == Some(id)
    requires PlanOf(s, id).status in {RollbackPendingRestart, RolledBack}
    requires s.file == PlanOf(s, id).source
    ensures Leads(s, steps, id, s.file, RolledBack)
  {
    steps := [FinalizeRollback(0, id), Release];
    RunTwo(s, FinalizeRollback(0, id), Release);
  }

  // ---------------------------------------------------------------------
  // Statuses that write the configuration first

  /** No command runs, and the process is on a configuration under the plan's own
      fence. */
  predicate Stands(s: State, p: Process, id: PlanId, payload: Payload) {
    s.op.Idle? && id in s.plans && s.fence == Some(id) && HasLoaded(s, p, payload)
  }

  /** The status is recorded and the configuration written. */
  ghost predicate Written(s: State, t: State, id: PlanId, payload: Payload, status: Status) {
    && Kept(s, t, id) && t.op.Idle? && t.fence == Some(id) && t.file == payload && t.plans[id].status == status
    && t.loaded == s.loaded && t.running == s.running && t.queues == s.queues && t.databases == s.databases
  }

  lemma ActivateWrites(s: State, p: Process, id: PlanId) returns (write: seq<Step>)
    requires id in s.plans && Stands(s, p, id, s.plans[id].source)
    requires s.plans[id].status in {Verified, ActivationPendingRestart}
    ensures forall step | step in write :: Benign(step) && Uneventful(step)
    ensures Written(s, Run(s, write), id, s.plans[id].destination, ActivationPendingRestart)
  {
    write := [BeginActivate(p, id), WriteConfiguration];
    RunTwoSteps(s, BeginActivate(p, id), WriteConfiguration);
  }

  lemma ActivateRecovers(s: State, id: PlanId) returns (steps: seq<Step>)
    requires Quiet(s, 0) && s.fence == Some(id)
    requires PlanOf(s, id).status in {Verified, ActivationPendingRestart}
    ensures Leads(s, steps, id, PlanOf(s, id).destination, Active)
  {
    assert PlanInv(s.order, s.databases, Calm(s, id), s.plans[id]);
    if s.file == PlanOf(s, id).destination {
      steps := FinalizeActivationRecovers(s, id);
    } else {
      var write := ActivateWrites(s, 0, id);
      var t := Run(s, write);
      UneventfulRunIsCareful(s, write);
      RunKeepsInv(s, write);
      var restart := RestartAll(t);
      var finish := FinalizeActivationRecovers(Run(t, restart), id);
      LeadsAfter(t, restart, finish, id, t.file, Active);
      LeadsAfter(s, write, restart + finish, id, t.file, Active);
      steps := write + (restart + finish);
    }
  }

  lemma RollbackWrites(s: State, p: Process, id: PlanId) returns (write: seq<Step>)
    requires id in s.plans && Stands(s, p, id, s.plans[id].destination)
    requires s.plans[id].status == RollbackPendingRestart
    ensures forall step | step in write :: Benign(step) && Uneventful(step)
    ensures Written(s, Run(s, write), id, s.plans[id].source, RollbackPendingRestart)
  {
    write := [BeginRollback(p, id), WriteConfiguration];
    RunTwoSteps(s, BeginRollback(p, id), WriteConfiguration);
  }

  lemma RollbackRecovers(s: State, id: PlanId) returns (steps: seq<Step>)
    requires Quiet(s, 0) && s.fence == Some(id) && PlanOf(s, id).status == RollbackPendingRestart
    ensures Leads(s, steps, id, PlanOf(s, id).source, RolledBack)
  {
    assert PlanInv(s.order, s.databases, Calm(s, id), s.plans[id]);
    if s.file == PlanOf(s, id).source {
      steps := FinalizeRollbackRecovers(s, id);
    } else {
      var write := RollbackWrites(s, 0, id);
      var t := Run(s, write);
      UneventfulRunIsCareful(s, write);
      RunKeepsInv(s, write);
      var restart := RestartAll(t);
      var finish := FinalizeRollbackRecovers(Run(t, restart), id);
      LeadsAfter(t, restart, finish, id, t.file, RolledBack);
      LeadsAfter(s, write, restart + finish, id, t.file, RolledBack);
      steps := write + (restart + finish);
    }
  }

  // ---------------------------------------------------------------------
  // Copying

  /** A copy for plan `id` changes its two databases and its record of tables, and
      nothing else. */
  ghost predicate CopyFrame(s: State, t: State, id: PlanId) {
    && Kept(s, t, id) && OtherDisk(s, t, id) && t.file == s.file && t.fence == s.fence
    && t.loaded == s.loaded && t.running == s.running && t.queues == s.queues
  }

  /** Everything copied so far in this pass is recorded and equal. */
  ghost predicate CopiedAlready(s: State) {
    s.op.CopyingTables?
    && (forall t | t in s.op.done ::
          s.op.done[t] == RowsOf(s.databases, From(s, s.op.job), t) == RowsOf(s.databases, To(s, s.op.job), t))
    && (forall j | 0 <= j < s.op.next <= |s.order| :: s.order[j] in s.op.done)
  }

  predicate MidCopy(s: State, id: PlanId) {
    s.op.CopyingTables? && s.op.job.id == id && !s.op.job.purpose.Verify? && id in s.plans
    && PlanOf(s, id).source != PlanOf(s, id).destination && s.op.next <= |s.order|
  }

  /** One table: write the source's rows, then record it. */
  lemma CopyPair(s: State, id: PlanId, rows: Rows)
    requires MidCopy(s, id) && s.op.next < |s.order|
    requires rows == RowsOf(s.databases, From(s, s.op.job), s.order[s.op.next])
    ensures CopyRecordStep(CopyWriteStep(s, rows)) == AfterPair(s, id, rows)
  {
  }

  function AfterPair(s: State, id: PlanId, rows: Rows): State
    requires MidCopy(s, id) && s.op.next < |s.order|
  {
    var t := s.order[s.op.next];
    var plan := PlanOf(s, id);
    if t in s.op.done then s.(op := CopyingTables(s.op.job, s.op.next + 1, s.op.done))
    else s.(databases := Put(s.databases, To(s, s.op.job), Write(t, rows)),
            plans := if s.op.job.purpose.Rollback? then s.plans
                     else s.plans[id := plan.(tables := plan.tables[t := rows])],
            op := CopyingTables(s.op.job, s.op.next + 1, s.op.done[t := rows]))
  }

  lemma PairKeepsFrame(s: State, id: PlanId, rows: Rows)
    requires MidCopy(s, id) && s.op.next < |s.order|
    requires rows == RowsOf(s.databases, From(s, s.op.job), s.order[s.op.next])
    ensures var t := AfterPair(s, id, rows);
            && MidCopy(t, id) && CopyFrame(s, t, id) && t.op.next == s.op.next + 1 && t.op.job == s.op.job
            && (CopiedAlready(s) ==> CopiedAlready(t))
  {
  }

  lemma PairIsRun(s: State, rows: Rows) returns (steps: seq<Step>)
    ensures forall step | step in steps :: step.CopyWrite? || step.CopyRecord?
    ensures Run(s, steps) == CopyRecordStep(CopyWriteStep(s, rows))
  {
    steps := [CopyWrite(rows), CopyRecord];
    RunTwo(s, CopyWrite(rows), CopyRecord);
  }

  lemma CopyOneTable(s: State, id: PlanId) returns (steps: seq<Step>)
    requires MidCopy(s, id) && s.op.next < |s.order|
    ensures forall step | step in steps :: step.CopyWrite? || step.CopyRecord?
    ensures var t := Run(s, steps);
            && MidCopy(t, id) && CopyFrame(s, t, id) && t.op.next == s.op.next + 1 && t.op.job == s.op.job
            && (CopiedAlready(s) ==> CopiedAlready(t))
  {
    var rows := RowsOf(s.databases, From(s, s.op.job), s.order[s.op.next]);
    CopyPair(s, id, rows);
    PairKeepsFrame(s, id, rows);
    steps := PairIsRun(s, rows);
  }

  lemma {:induction false} CopyRest(s: State, id: PlanId) returns (steps: seq<Step>)
    requires MidCopy(s, id)
    ensures forall step | step in steps :: step.CopyWrite? || step.CopyRecord?
    ensures var t := Run(s, steps);
            && MidCopy(t, id) && CopyFrame(s, t, id) && t.op.next == |s.order| && t.op.job == s.op.job
            && (CopiedAlready(s) ==> CopiedAlready(t))
    decreases |s.order| - s.op.next
  {
    if s.op.next == |s.order| {
      steps := [];
    } else {
      var one := CopyOneTable(s, id);
      var rest := CopyRest(Run(s, one), id);
      RunConcat(s, one, rest);
      steps := one + rest;
    }
  }

  lemma {:induction false} ResetRest(s: State, id: PlanId) returns (steps: seq<Step>)
    requires s.op.Resetting? && s.op.job.id == id && !s.op.job.purpose.Verify? && s.op.left <= |s.order|
    requires id in s.plans && PlanOf(s, id).source != PlanOf(s, id).destination
    ensures forall step | step in steps :: step.ResetTable? || step.ResetDone?
    ensures var t := Run(s, steps);
            && MidCopy(t, id) && CopyFrame(s, t, id) && t.op.next == 0 && t.op.job == s.op.job
            && CopiedAlready(t) && PlanOf(t, id) == PlanOf(s, id)
    decreases s.op.left
  {
    if s.op.left == 0 {
      steps := NothingToReset(s, id);
    } else {
      var t := ResetTableStep(s);
      OneReset(s, id);
      var rest := ResetRest(t, id);
      steps := [ResetTable] + rest;
      RunCons(s, ResetTable, rest);
    }
  }

  lemma NothingToReset(s: State, id: PlanId) returns (steps: seq<Step>)
    requires s.op.Resetting? && s.op.job.id == id && !s.op.job.purpose.Verify? && s.op.left == 0
    requires id in s.plans && PlanOf(s, id).source != PlanOf(s, id).destination
    ensures steps == [ResetDone] && Run(s, steps) == s.(op := CopyingTables(s.op.job, 0, map[]))
  {
    steps := [ResetDone];
    RunOne(s, ResetDone);
  }

  lemma OneReset(s: State, id: PlanId)
    requires s.op.Resetting? && s.op.job.id == id && !s.op.job.purpose.Verify? && 0 < s.op.left <= |s.order|
    requires id in s.plans && PlanOf(s, id).source != PlanOf(s, id).destination
    ensures var t := ResetTableStep(s);
            && CopyFrame(s, t, id)
            && t.op == Resetting(s.op.job, s.op.left - 1) && t.plans == s.plans && t.order == s.order
  {
  }

  /** Where a process can give the command to migrate, and the fence is its own. */
  ghost predicate CanEngage(s: State, p: Process, id: PlanId) {
    && s.op.Idle? && id in s.plans && (s.fence.None? || s.fence == Some(id))
    && Migratable(s.plans[id].status) && HasLoaded(s, p, s.plans[id].source)
    && s.plans[id].source != s.plans[id].destination && (s.plans[id].status == Planned ==> s.plans[id].tables == map[])
  }

  /** Where a migration can begin without any process to wait for. */
  ghost predicate CanBegin(s: State, id: PlanId) {
    Quiet(s, 0) && CanEngage(s, 0, id)
  }

  lemma OwnFenceCanBegin(s: State, id: PlanId)
    requires Quiet(s, 0) && s.fence == Some(id) && PlanOf(s, id).status in {Copying, Copied}
    ensures CanBegin(s, id)
  {
    assert PlanInv(s.order, s.databases, Calm(s, id), s.plans[id]);
  }

  lemma FreeFenceCanBegin(s: State, id: PlanId)
    requires Quiet(s, 0) && s.fence.None? && id in s.plans
    requires Migratable(s.plans[id].status) && s.file == s.plans[id].source
    ensures CanBegin(s, id)
  {
    assert PlanInv(s.order, s.databases, Calm(s, id), s.plans[id]);
  }

  lemma EngageForMigration(s: State, p: Process, id: PlanId) returns (steps: seq<Step>)
    requires CanEngage(s, p, id)
    ensures forall step | step in steps :: Benign(step) && Uneventful(step)
    ensures Run(s, steps) == s.(fence := Some(id), op := Draining(Job(p, id, Migrate(PlanOf(s, id).status))))
  {
    steps := [BeginMigrate(p, id), Engage];
    RunTwoSteps(s, BeginMigrate(p, id), Engage);
  }

  lemma StartDrained(s: State, id: PlanId) returns (steps: seq<Step>)
    requires s.op.Draining? && s.running == {} && s.queues.waiting == 0 && id in s.plans && s.op.job.id == id
    requires s.op.job.purpose == Migrate(PlanOf(s, id).status)
    ensures forall step | step in steps :: Benign(step) && Uneventful(step)
    ensures var t := Run(s, steps);
            && CopyFrame(s.(queues := s.queues.(paused := true)), t, id)
            && t.op == if PlanOf(s, id).status in {Copied, Failed} then Resetting(s.op.job, |s.order|)
                       else CopyingTables(s.op.job, 0, PlanOf(s, id).tables)
  {
    var drain := Drains(s);
    var t := Run(s, drain);
    StartsCopy(t, id);
    RunOne(t, StartCopy);
    RunConcat(s, drain, [StartCopy]);
    steps := drain + [StartCopy];
  }

  lemma StartsCopy(s: State, id: PlanId)
    requires s.op.Starting? && id in s.plans && s.op.job.id == id && s.op.job.purpose == Migrate(PlanOf(s, id).status)
    ensures var t := Next(s, StartCopy);
            && CopyFrame(s, t, id)
            && t.op == if PlanOf(s, id).status in {Copied, Failed} then Resetting(s.op.job, |s.order|)
                       else CopyingTables(s.op.job, 0, PlanOf(s, id).tables)
  {
  }

  /** A migration command up to its first table. Only from Copying does it take an
      old record on trust. */
  lemma StartMigration(s: State, p: Process, id: PlanId) returns (steps: seq<Step>)
    requires CanEngage(s, p, id) && s.running == {} && s.queues.waiting == 0
    ensures forall step | step in steps :: Benign(step) && Uneventful(step)
    ensures var t := Run(s, steps);
            && MidCopy(t, id) && t.op.job.purpose.Migrate? && t.op.next == 0
            && CopyFrame(s.(fence := Some(id), queues := s.queues.(paused := true)), t, id)
            && (PlanOf(s, id).status != Copying ==> CopiedAlready(t))
  {
    var engage := EngageForMigration(s, p, id);
    var drained := Run(s, engage);
    var start := StartDrained(drained, id);
    RunConcat(s, engage, start);
    steps := engage + start;
    if PlanOf(s, id).status in {Copied, Failed} {
      var reset := ResetRest(Run(s, steps), id);
      RunConcat(s, steps, reset);
      steps := steps + reset;
    }
  }

  lemma FinishMigration(s: State, id: PlanId)
    requires MidCopy(s, id) && s.op.job.purpose.Migrate? && s.op.next == |s.order|
    ensures var t := Run(s, [CopyFinish]);
            && t.op.Idle? && CopyFrame(s, t, id) && PlanOf(t, id).status == Copied
            && (CopiedAlready(s) ==> WouldVerify(t, PlanOf(t, id)))
  {
    RunOne(s, CopyFinish);
  }

  /** A whole migration command by any process on the source: it ends in Copied,
      and but from Copying it ends with equal databases and a true record. */
  lemma MigrationRuns(s: State, p: Process, id: PlanId) returns (steps: seq<Step>)
    requires CanEngage(s, p, id) && s.running == {} && s.queues.waiting == 0
    ensures forall step | step in steps :: Benign(step) && Uneventful(step)
    ensures var t := Run(s, steps);
            && CopyFrame(s.(fence := Some(id), queues := s.queues.(paused := true)), t, id)
            && t.op.Idle? && t.plans[id].status == Copied
            && (s.plans[id].status != Copying ==> WouldVerify(t, t.plans[id]))
  {
    var start := StartMigration(s, p, id);
    var copy := CopyRest(Run(s, start), id);
    FinishMigration(Run(Run(s, start), copy), id);
    RunConcat(s, start, copy);
    RunConcat(s, start + copy, [CopyFinish]);
    steps := start + copy + [CopyFinish];
  }

  lemma Migration(s: State, id: PlanId) returns (steps: seq<Step>)
    requires CanBegin(s, id) && s.queues.waiting == 0
    ensures AllBenign(steps) && CarefulRun(s, steps)
    ensures var t := Run(s, steps);
            && Quiet(t, 0) && t.fence == Some(id) && Kept(s, t, id) && t.file == s.file && t.queues.waiting == 0
            && t.plans[id].status == Copied
            && (s.plans[id].status != Copying ==> WouldVerify(t, t.plans[id]))
  {
    steps := MigrationRuns(s, 0, id);
    UneventfulRunIsCareful(s, steps);
    RunKeepsInv(s, steps);
  }

  // ---------------------------------------------------------------------
  // The theorem

  lemma {:induction false} ChecksAreCareful(s: State, n: nat)
    ensures CarefulRun(s, Repeat(CheckTable, n) + [CheckFinish])
  {
    UneventfulRunIsCareful(s, Repeat(CheckTable, n) + [CheckFinish]);
  }

  lemma VerifyLeads(s: State, id: PlanId) returns (verify: seq<Step>)
    requires Quiet(s, 0) && s.fence == Some(id) && PlanOf(s, id).status == Copied && WouldVerify(s, PlanOf(s, id))
    ensures AllBenign(verify) && CarefulRun(s, verify) && Run(s, verify) == VerifiedState(s, id)
    ensures Inv(Run(s, verify))
  {
    var n := |s.order|;
    verify := VerifyAll(0, id, n);
    ChecksAreCareful(BeginVerifyStep(s, 0, id), n);
    assert verify[1..] == Repeat(CheckTable, n) + [CheckFinish];
    VerifyRuns(s, 0, id);
    RunKeepsInv(s, verify);
  }

  lemma VerifyRecovers(s: State, id: PlanId) returns (steps: seq<Step>)
    requires Quiet(s, 0) && s.fence == Some(id) && PlanOf(s, id).status == Copied && WouldVerify(s, PlanOf(s, id))
    ensures Leads(s, steps, id, PlanOf(s, id).destination, Active)
  {
    var verify := VerifyLeads(s, id);
    var activate := ActivateRecovers(Run(s, verify), id);
    LeadsAfter(s, verify, activate, id, PlanOf(s, id).destination, Active);
    steps := verify + activate;
  }

  /** A plan that can be migrated is migrated, verified and activated. */
  lemma MigrationRecovers(s: State, id: PlanId) returns (steps: seq<Step>)
    requires CanBegin(s, id) && s.queues.waiting == 0
    ensures Leads(s, steps, id, s.plans[id].destination, Active)
    decreases s.plans[id].status == Copying
  {
    var migrate := Migration(s, id);
    var t := Run(s, migrate);
    var rest;
    if s.plans[id].status == Copying {
      OwnFenceCanBegin(t, id);
      rest := MigrationRecovers(t, id);
    } else {
      rest := VerifyRecovers(t, id);
    }
    LeadsAfter(s, migrate, rest, id, s.plans[id].destination, Active);
    steps := migrate + rest;
  }

  lemma CopiedRecovers(s: State, id: PlanId) returns (steps: seq<Step>)
    requires Quiet(s, 0) && s.fence == Some(id) && PlanOf(s, id).status in {Copying, Copied}
    ensures Recovers(s, steps)
    ensures !CannotDrain(s) ==> Leads(s, steps, id, s.plans[id].destination, Active)
  {
    OwnFenceCanBegin(s, id);
    if CannotDrain(s) {
      steps := TimeOutRecovers(s, id);
    } else {
      steps := MigrationRecovers(s, id);
      LeadingRecovers(s, steps, id, s.plans[id].destination, Active);
    }
  }

  /** Behind a held fence, by the status of its plan. */
  lemma StatusRecovers(s: State, id: PlanId) returns (steps: seq<Step>)
    requires Quiet(s, 0) && s.fence == Some(id)
    ensures Recovers(s, steps)
  {
    var plan := PlanOf(s, id);
    match plan.status {
      case Planned => steps := CancelRecovers(s, id);
      case Failed => steps := CancelRecovers(s, id);
      case Copying => steps := CopiedRecovers(s, id);
      case Copied => steps := CopiedRecovers(s, id);
      case Verified =>
        steps := ActivateRecovers(s, id);
        LeadingRecovers(s, steps, id, plan.destination, Active);
      case ActivationPendingRestart =>
        steps := ActivateRecovers(s, id);
        LeadingRecovers(s, steps, id, plan.destination, Active);
      case Active =>
        steps := FinalizeActivationRecovers(s, id);
        LeadingRecovers(s, steps, id, s.file, Active);
      case RollbackPendingRestart =>
        steps := RollbackRecovers(s, id);
        LeadingRecovers(s, steps, id, plan.source, RolledBack);
      case RolledBack =>
        steps := FinalizeRollbackRecovers(s, id);
        LeadingRecovers(s, steps, id, s.file, RolledBack);
      case Cancelled => assert false;
    }
  }

  /** From every state of every careful run with the fence held, crash states
      included, operators can release it. No command fails on the way, but for one
      drain that has to time out when a job waits behind paused queues. */
  lemma FenceIsNeverOrphaned(s: State, steps: seq<Step>) returns (recovery: seq<Step>)
    requires Init(s) && CarefulRun(s, steps) && Run(s, steps).fence.Some?
    ensures UnfailingRun(Run(s, steps), recovery) && CarefulRun(s, steps + recovery)
    ensures Run(s, steps + recovery).fence.None? && Inv(Run(s, steps + recovery))
  {
    RunKeepsInv(s, steps);
    var t := Run(s, steps);
    var restart := RestartAll(t);
    var rest := StatusRecovers(Run(t, restart), t.fence.value);
    RecoverAfter(t, restart, rest);
    recovery := restart + rest;
    CarefulConcat(s, steps, recovery);
    RunConcat(s, steps, recovery);
    RunKeepsInv(s, steps + recovery);
  }

  // The one drain that has to time out does happen: a job is on its way to its
  // queue when the fence goes up, arrives behind the pause, and the command dies.

  const PUSHED := START.(plans := map[7 := PLANNED], current := Some(7), queues := Queues(0, false, 1))

  lemma StrayJobLooks() returns (steps: seq<Step>)
    ensures CarefulRun(START, steps) && Run(START, steps) == PUSHED
  {
    steps := ThreeSteps(START, JobLook, PlanFile(0, 7, 1), PlanPointer);
    UneventfulRunIsCareful(START, steps);
  }

  lemma StrayJobIsLate() returns (steps: seq<Step>)
    ensures CarefulRun(PUSHED, steps)
    ensures Run(PUSHED, steps) == PUSHED.(fence := Some(7), queues := Queues(0, true, 1), op := Starting(FIRST))
  {
    assert Next(PUSHED, BeginMigrate(0, 7)) == PUSHED.(op := Engaging(FIRST));
    var engaged := PUSHED.(fence := Some(7), op := Draining(FIRST));
    RunTwoSteps(PUSHED, BeginMigrate(0, 7), Engage);
    assert Run(PUSHED, [BeginMigrate(0, 7), Engage]) == engaged;
    var drain := Drains(engaged);
    RunConcat(PUSHED, [BeginMigrate(0, 7), Engage], drain);
    steps := [BeginMigrate(0, 7), Engage] + drain;
    UneventfulRunIsCareful(PUSHED, steps);
  }

  lemma StrayJobArrives(s: State) returns (steps: seq<Step>)
    requires s == PUSHED.(fence := Some(7), queues := Queues(0, true, 1), op := Starting(FIRST))
    ensures CarefulRun(s, steps)
    ensures var t := Run(s, steps);
            t.op.Idle? && t.fence == Some(7) && PlanOf(t, 7).status == Copying && CannotDrain(t)
  {
    steps := ThreeSteps(s, StartCopy, JobPush, Crash);
    UneventfulRunIsCareful(s, steps);
  }

  lemma StrayJobIsReachable() returns (steps: seq<Step>)
    ensures Init(START) && CarefulRun(START, steps)
    ensures var t := Run(START, steps);
            t.op.Idle? && t.fence == Some(7) && PlanOf(t, 7).status == Copying && CannotDrain(t)
  {
    var look := StrayJobLooks();
    var late := StrayJobIsLate();
    var arrive := StrayJobArrives(Run(PUSHED, late));
    CarefulConcat(PUSHED, late, arrive);
    RunConcat(PUSHED, late, arrive);
    CarefulConcat(START, look, late + arrive);
    RunConcat(START, look, late + arrive);
    steps := look + (late + arrive);
  }
}
