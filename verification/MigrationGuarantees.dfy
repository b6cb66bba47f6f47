/**
  What the invariant means to an operator, and exactly when the two habits it
  rests on are needed.
*/
module MigrationGuarantees {
  import opened Base
  import opened MigrationProtocol
  import opened MigrationSafety

  // ---------------------------------------------------------------------
  // Over every careful run

  /** The database named by the configuration file holds every committed write,
      in every state of every run. */
  lemma NoWriteIsLost(s: State, steps: seq<Step>)
    requires Init(s) && CarefulRun(s, steps)
    ensures NothingLost(Run(s, steps))
  {
    RunKeepsInv(s, steps);
  }

  /** A verified plan, and one waiting for its restart, has equal databases; a
      rollback waiting for its restart has every write in the source. */
  lemma GuardedMeansEqual(s: State, steps: seq<Step>, id: PlanId)
    requires Init(s) && CarefulRun(s, steps)
    requires id in Run(s, steps).plans && Guarded(PlanOf(Run(s, steps), id).status)
    ensures var t := Run(s, steps); var plan := PlanOf(t, id);
            && Same(t.order, t.databases, plan.source, plan.destination)
            && HoldsAll(t.order, t.databases, plan.source, t.committed)
            && HoldsAll(t.order, t.databases, plan.destination, t.committed)
  {
    RunKeepsInv(s, steps);
    var t := Run(s, steps);
    assert PlanInv(t.order, t.databases, Calm(t, id), t.plans[id]);
  }

  /** While the fence is free every process runs on the configuration in the
      file. */
  lemma FreeFenceMeansSynced(s: State, steps: seq<Step>)
    requires Init(s) && CarefulRun(s, steps)
    requires Run(s, steps).fence.None?
    ensures Synced(Run(s, steps))
  {
    RunKeepsInv(s, steps);
  }

  // ---------------------------------------------------------------------
  // Finalizing needs every process restarted

  /** Finalize, release, and one write by one process. */
  function FinalizeThenWrite(p: Process, id: PlanId, q: Process, w: Write): seq<Step> {
    [FinalizeActivation(p, id), Release, AppWrite(q, w)]
  }

  lemma FinalizeThenWriteRuns(s: State, p: Process, id: PlanId, q: Process, w: Write)
    ensures Run(s, FinalizeThenWrite(p, id, q, w))
         == AppWriteStep(ReleaseStep(FinalizeActivationStep(s, p, id)), q, w)
  {
    RunThree(s, FinalizeActivation(p, id), Release, AppWrite(q, w));
  }

  /** The code lets an activation be finalized as soon as the finalizing process
      has loaded the destination. That is safe for every later write exactly
      when every process has. */
  lemma FinalizeIsSafeExactly(s: State, p: Process, id: PlanId)
    requires Inv(s) && s.op.Idle? && id in s.plans && s.order != []
    requires PlanOf(s, id).status == ActivationPendingRestart && HasLoaded(s, p, PlanOf(s, id).destination)
    ensures Synced(s) <==> forall q, w :: NothingLost(Run(s, FinalizeThenWrite(p, id, q, w)))
  {
    if Synced(s) {
      forall q, w ensures NothingLost(Run(s, FinalizeThenWrite(p, id, q, w))) {
        SyncedFinalizeLosesNothing(s, p, id, q, w);
      }
    } else {
      var q :| q in s.loaded && s.loaded[q] != s.file;
      LaggardLosesWrite(s, p, id, q);
    }
  }

  lemma SyncedFinalizeLosesNothing(s: State, p: Process, id: PlanId, q: Process, w: Write)
    requires Inv(s) && Synced(s) && PlanOf(s, id).status == ActivationPendingRestart
    ensures NothingLost(Run(s, FinalizeThenWrite(p, id, q, w)))
  {
    FinalizeThenWriteRuns(s, p, id, q, w);
    var t := FinalizeActivationStep(s, p, id);
    FinalizeActivationKeepsInv(s, p, id);
    StepKeepsInv(t, Release);
    StepKeepsInv(ReleaseStep(t), AppWrite(q, w));
  }

  lemma LaggardLosesWrite(s: State, p: Process, id: PlanId, q: Process)
    requires Inv(s) && s.op.Idle? && id in s.plans && s.order != []
    requires PlanOf(s, id).status == ActivationPendingRestart && HasLoaded(s, p, PlanOf(s, id).destination)
    requires q in s.loaded && s.loaded[q] != s.file
    ensures exists w :: !NothingLost(Run(s, FinalizeThenWrite(p, id, q, w)))
  {
    var w := Write(s.order[0], RowsOf(s.databases, s.file, s.order[0]) + [""]);
    assert PlanInv(s.order, s.databases, Calm(s, id), s.plans[id]);
    FinalizeThenWriteRuns(s, p, id, q, w);
    var t := Run(s, FinalizeThenWrite(p, id, q, w));
    ReplayAppend(s.committed, w);
    assert RowsOf(t.databases, t.file, w.table) != Expected(t.committed, w.table);
  }

  // The same for a rollback

  function FinalizeRollbackThenWrite(p: Process, id: PlanId, q: Process, w: Write): seq<Step> {
    [FinalizeRollback(p, id), Release, AppWrite(q, w)]
  }

  lemma FinalizeRollbackThenWriteRuns(s: State, p: Process, id: PlanId, q: Process, w: Write)
    ensures Run(s, FinalizeRollbackThenWrite(p, id, q, w))
         == AppWriteStep(ReleaseStep(FinalizeRollbackStep(s, p, id)), q, w)
  {
    RunThree(s, FinalizeRollback(p, id), Release, AppWrite(q, w));
  }

  /** A rollback too may be finalized as soon as the finalizing process has
      loaded the source, and that too is safe exactly when every process has. */
  lemma FinalizeRollbackIsSafeExactly(s: State, p: Process, id: PlanId)
    requires Inv(s) && s.op.Idle? && id in s.plans && s.order != []
    requires PlanOf(s, id).status == RollbackPendingRestart && HasLoaded(s, p, PlanOf(s, id).source)
    ensures Synced(s) <==> forall q, w :: NothingLost(Run(s, FinalizeRollbackThenWrite(p, id, q, w)))
  {
    if Synced(s) {
      forall q, w ensures NothingLost(Run(s, FinalizeRollbackThenWrite(p, id, q, w))) {
        SyncedRollbackLosesNothing(s, p, id, q, w);
      }
    } else {
      var q :| q in s.loaded && s.loaded[q] != s.file;
      LaggardLosesRollbackWrite(s, p, id, q);
    }
  }

  lemma SyncedRollbackLosesNothing(s: State, p: Process, id: PlanId, q: Process, w: Write)
    requires Inv(s) && Synced(s) && PlanOf(s, id).status == RollbackPendingRestart
    ensures NothingLost(Run(s, FinalizeRollbackThenWrite(p, id, q, w)))
  {
    FinalizeRollbackThenWriteRuns(s, p, id, q, w);
    var t := FinalizeRollbackStep(s, p, id);
    FinalizeRollbackKeepsInv(s, p, id);
    StepKeepsInv(t, Release);
    StepKeepsInv(ReleaseStep(t), AppWrite(q, w));
  }

  lemma LaggardLosesRollbackWrite(s: State, p: Process, id: PlanId, q: Process)
    requires Inv(s) && s.op.Idle? && id in s.plans && s.order != []
    requires PlanOf(s, id).status == RollbackPendingRestart && HasLoaded(s, p, PlanOf(s, id).source)
    requires q in s.loaded && s.loaded[q] != s.file
    ensures exists w :: !NothingLost(Run(s, FinalizeRollbackThenWrite(p, id, q, w)))
  {
    var w := Write(s.order[0], RowsOf(s.databases, s.file, s.order[0]) + [""]);
    assert PlanInv(s.order, s.databases, Calm(s, id), s.plans[id]);
    FinalizeRollbackThenWriteRuns(s, p, id, q, w);
    var t := Run(s, FinalizeRollbackThenWrite(p, id, q, w));
    MissingWriteIsALoss(t, s.databases, s.loaded[q], s.committed, w);
  }

  // ---------------------------------------------------------------------
  // Verifying needs a drained fence

  function Repeat(step: Step, n: nat): seq<Step> {
    seq(n, _ => step)
  }

  function VerifyAll(p: Process, id: PlanId, n: nat): seq<Step> {
    [BeginVerify(p, id)] + Repeat(CheckTable, n) + [CheckFinish]
  }

  function Activation(p: Process, id: PlanId): seq<Step> {
    [BeginActivate(p, id), WriteConfiguration]
  }

  /** Verify, whatever processes do meanwhile, and the cutover. */
  function VerifyThenActivate(p: Process, id: PlanId, n: nat, meanwhile: seq<Step>): seq<Step> {
    VerifyAll(p, id, n) + (meanwhile + Activation(p, id))
  }

  /** The rows agree, and so does the record: verification would pass. */
  ghost predicate WouldVerify(s: State, plan: Plan) {
    && Same(s.order, s.databases, plan.source, plan.destination)
    && forall t | t in s.order && t in plan.tables :: plan.tables[t] == RowsOf(s.databases, plan.source, t)
  }

  lemma {:induction false} ChecksRun(s: State, n: nat)
    requires s.op.Checking? && s.op.next + n == |s.order|
    requires forall t | t in s.order ::
               && RowsOf(s.databases, From(s, s.op.job), t) == RowsOf(s.databases, To(s, s.op.job), t)
               && (t in s.op.expected ==> s.op.expected[t] == RowsOf(s.databases, From(s, s.op.job), t))
    ensures Run(s, Repeat(CheckTable, n)) == s.(op := Checking(s.op.job, |s.order|, s.op.expected))
    decreases n
  {
    if n > 0 {
      assert Repeat(CheckTable, n)[1..] == Repeat(CheckTable, n - 1);
      ChecksRun(CheckTableStep(s), n - 1);
    }
  }

  function VerifiedState(s: State, id: PlanId): State {
    var plan := PlanOf(s, id);
    s.(plans := s.plans[id := plan.(status := Verified, tables := VerifiedTables(s, plan.source))])
  }

  lemma RunOne(s: State, step: Step)
    ensures Run(s, [step]) == Next(s, step)
  {
    RunCons(s, step, []);
    assert [step] + [] == [step];
  }

  lemma PassedCheckFinishes(s: State, id: PlanId)
    requires s.op.Checking? && s.op.job.id == id && s.op.job.purpose == Verify && s.op.next == |s.order|
    ensures Next(s, CheckFinish) == VerifiedState(s, id).(op := Idle)
  {
  }

  lemma {:induction false} VerifyEnds(s: State, id: PlanId)
    requires s.op.Checking? && s.op.job.id == id && s.op.job.purpose == Verify && s.op.next == 0 && id in s.plans
    requires WouldVerify(s, PlanOf(s, id)) && s.op.expected == PlanOf(s, id).tables
    ensures Run(s, Repeat(CheckTable, |s.order|) + [CheckFinish]) == VerifiedState(s, id).(op := Idle)
  {
    var checks := Repeat(CheckTable, |s.order|);
    ChecksRun(s, |s.order|);
    var checked := s.(op := Checking(s.op.job, |s.order|, s.op.expected));
    RunConcat(s, checks, [CheckFinish]);
    PassedCheckFinishes(checked, id);
    RunOne(checked, CheckFinish);
  }

  /** A verification that passes. */
  lemma VerifyRuns(s: State, p: Process, id: PlanId)
    requires s.op.Idle? && id in s.plans && s.fence == Some(id)
    requires PlanOf(s, id).status == Copied && p in s.loaded
    requires WouldVerify(s, PlanOf(s, id))
    ensures Run(s, VerifyAll(p, id, |s.order|)) == VerifiedState(s, id)
  {
    var begun := BeginVerifyStep(s, p, id);
    assert begun == s.(op := Checking(Job(p, id, Verify), 0, PlanOf(s, id).tables));
    VerifyEnds(begun, id);
    RunCons(s, BeginVerify(p, id), Repeat(CheckTable, |s.order|) + [CheckFinish]);
    assert VerifyAll(p, id, |s.order|) == [BeginVerify(p, id)] + (Repeat(CheckTable, |s.order|) + [CheckFinish]);
  }

  predicate AllByProcess(steps: seq<Step>) {
    forall step | step in steps :: ByProcess(step)
  }

  /** `verify` checks who holds the fence, not that it was drained. From a copied
      plan that would verify, activating is safe whatever the processes do
      meanwhile exactly when no mutation or job is left that could write. */
  lemma VerifyIsSafeExactly(s: State, p: Process, id: PlanId)
    requires Inv(s) && s.op.Idle? && id in s.plans && s.fence == Some(id) && s.order != []
    requires PlanOf(s, id).status == Copied && p in s.loaded && WouldVerify(s, PlanOf(s, id))
    ensures NobodyLeft(s) <==>
            forall meanwhile | AllByProcess(meanwhile) ::
              NothingLost(Run(s, VerifyThenActivate(p, id, |s.order|, meanwhile)))
  {
    if NobodyLeft(s) {
      forall meanwhile | AllByProcess(meanwhile)
        ensures NothingLost(Run(s, VerifyThenActivate(p, id, |s.order|, meanwhile)))
      {
        DrainedVerifyLosesNothing(s, p, id, |s.order|, meanwhile);
      }
    } else {
      var w := Write(s.order[0], RowsOf(s.databases, s.file, s.order[0]) + [""]);
      if s.running != {} {
        var q :| q in s.running;
        LateMutationIsLost(s, p, id, q, w);
      } else {
        LateJobIsLost(s, p, id, w);
      }
    }
  }

  lemma DrainedVerifyLosesNothing(s: State, p: Process, id: PlanId, n: nat, meanwhile: seq<Step>)
    requires Inv(s) && NobodyLeft(s) && AllByProcess(meanwhile)
    ensures NothingLost(Run(s, VerifyThenActivate(p, id, n, meanwhile)))
  {
    var steps := VerifyThenActivate(p, id, n, meanwhile);
    forall step | step in steps[1..] ensures Uneventful(step) {
      assert step in Repeat(CheckTable, n) || step == CheckFinish || step in meanwhile || step in Activation(p, id);
    }
    UneventfulRunIsCareful(Next(s, steps[0]), steps[1..]);
    RunKeepsInv(s, steps);
  }

  /** Some process writes, and the plan is activated all the same. */
  ghost predicate LateWrite(s: State, t: State, w: Write) {
    && t.databases == Put(s.databases, s.file, w) && t.committed == s.committed + [w]
    && t.order == s.order && t.plans == s.plans && t.fence == s.fence && t.op == s.op
  }

  lemma RunTwoSteps(s: State, a: Step, b: Step)
    ensures Run(s, [a, b]) == Next(Next(s, a), b)
  {
    RunCons(s, a, [b]);
    RunOne(Next(s, a), b);
    assert [a, b] == [a] + [b];
  }

  lemma ActivationFollows(t: State, p: Process, id: PlanId)
    requires t.op.Idle? && id in t.plans && t.fence == Some(id)
    requires PlanOf(t, id).status == Verified && HasLoaded(t, p, PlanOf(t, id).source)
    ensures var u := Run(t, Activation(p, id));
            && u.file == PlanOf(t, id).destination && u.databases == t.databases
            && u.committed == t.committed && u.order == t.order
  {
    RunTwoSteps(t, BeginActivate(p, id), WriteConfiguration);
  }

  /** A late write into the source is lost by the activation. */
  lemma LateWriteIsLost(s: State, p: Process, id: PlanId, meanwhile: seq<Step>, w: Write)
    requires Inv(s) && s.op.Idle? && id in s.plans && s.fence == Some(id)
    requires PlanOf(s, id).status == Copied && p in s.loaded && WouldVerify(s, PlanOf(s, id))
    requires w.table in s.order && w.rows != RowsOf(s.databases, s.file, w.table)
    requires var v := VerifiedState(s, id);
             LateWrite(v, Run(v, meanwhile), w) && HasLoaded(Run(v, meanwhile), p, s.file)
    ensures !NothingLost(Run(s, VerifyThenActivate(p, id, |s.order|, meanwhile)))
  {
    assert PlanInv(s.order, s.databases, Calm(s, id), s.plans[id]);
    var v := VerifiedState(s, id);
    var t := Run(v, meanwhile);
    VerifyRuns(s, p, id);
    RunConcat(v, meanwhile, Activation(p, id));
    RunConcat(s, VerifyAll(p, id, |s.order|), meanwhile + Activation(p, id));
    ActivationFollows(t, p, id);
    var plan := PlanOf(s, id);
    assert RowsOf(s.databases, plan.destination, w.table) == RowsOf(s.databases, plan.source, w.table);
    MissingWriteIsALoss(Run(t, Activation(p, id)), s.databases, s.file, s.committed, w);
  }

  lemma MissingWriteIsALoss(t: State, disk: Disk, payload: Payload, committed: seq<Write>, w: Write)
    requires t.databases == Put(disk, payload, w) && payload != t.file
    requires t.committed == committed + [w]
    requires w.table in t.order && w.rows != RowsOf(disk, t.file, w.table)
    ensures !NothingLost(t)
  {
    ReplayAppend(committed, w);
    assert RowsOf(t.databases, t.file, w.table) != Expected(t.committed, w.table);
  }

  /** A mutation still running behind the fence is enough. */
  lemma LateMutationIsLost(s: State, p: Process, id: PlanId, q: Process, w: Write)
    requires Inv(s) && s.op.Idle? && id in s.plans && s.fence == Some(id)
    requires PlanOf(s, id).status == Copied && p in s.loaded && WouldVerify(s, PlanOf(s, id))
    requires q in s.running && w.table in s.order && w.rows != RowsOf(s.databases, s.file, w.table)
    ensures AllByProcess([MutationWrite(q, w)])
    ensures !NothingLost(Run(s, VerifyThenActivate(p, id, |s.order|, [MutationWrite(q, w)])))
  {
    RunOne(VerifiedState(s, id), MutationWrite(q, w));
    LateWriteIsLost(s, p, id, [MutationWrite(q, w)], w);
  }

  lemma {:induction false} UnusedProcess(used: set<Process>) returns (q: Process)
    ensures forall p | p in used :: p < q
    decreases |used|
  {
    q := 0;
    if used != {} {
      var p :| p in used;
      var rest := UnusedProcess(used - {p});
      q := if p < rest then rest else p + 1;
      forall x | x in used ensures x < q {
        assert x == p || x in used - {p};
      }
    }
  }

  function LateJob(q: Process, w: Write): seq<Step> {
    [Restart(q), JobBegin(q), MutationWrite(q, w)]
  }

  lemma LateJobWrites(s: State, q: Process, w: Write)
    requires q !in s.loaded && q !in s.running && s.queues.waiting > 0 && !s.queues.paused && s.op.Idle?
    ensures LateWrite(s, Run(s, LateJob(q, w)), w)
    ensures Run(s, LateJob(q, w)).loaded == s.loaded[q := s.file]
  {
    RunThree(s, Restart(q), JobBegin(q), MutationWrite(q, w));
  }

  /** The same when the job is yet to be pushed. */
  lemma LatePushWrites(s: State, q: Process, w: Write)
    requires q !in s.loaded && q !in s.running && s.queues.pushing > 0 && !s.queues.paused && s.op.Idle?
    ensures LateWrite(s, Run(s, [JobPush] + LateJob(q, w)), w)
    ensures Run(s, [JobPush] + LateJob(q, w)).loaded == s.loaded[q := s.file]
  {
    RunCons(s, JobPush, LateJob(q, w));
    LateJobWrites(JobPushStep(s), q, w);
  }

  /** So is a job that waits in a queue nobody has paused, or is on its way there:
      any worker may take it. */
  lemma LateJobIsLost(s: State, p: Process, id: PlanId, w: Write)
    requires Inv(s) && s.op.Idle? && id in s.plans && s.fence == Some(id)
    requires PlanOf(s, id).status == Copied && p in s.loaded && WouldVerify(s, PlanOf(s, id))
    requires !NoneMayStart(s.queues)
    requires w.table in s.order && w.rows != RowsOf(s.databases, s.file, w.table)
    ensures exists meanwhile | AllByProcess(meanwhile) ::
              !NothingLost(Run(s, VerifyThenActivate(p, id, |s.order|, meanwhile)))
  {
    var q := UnusedProcess(s.loaded.Keys);
    var meanwhile := SomeJobWrites(VerifiedState(s, id), q, w);
    LateWriteIsLost(s, p, id, meanwhile, w);
  }

  lemma SomeJobWrites(s: State, q: Process, w: Write) returns (meanwhile: seq<Step>)
    requires q !in s.loaded && q !in s.running && !NoneMayStart(s.queues) && s.op.Idle?
    ensures AllByProcess(meanwhile) && LateWrite(s, Run(s, meanwhile), w)
    ensures Run(s, meanwhile).loaded == s.loaded[q := s.file]
  {
    meanwhile := LateJob(q, w);
    if s.queues.waiting > 0 {
      LateJobWrites(s, q, w);
    } else {
      LatePushWrites(s, q, w);
      meanwhile := [JobPush] + meanwhile;
    }
  }

  // Such a state is reached without any careless step: a re-engage that fails
  // gives the fence back in status Copied, a mutation starts or a job is queueing,
  // and the next re-engage is killed before it has drained.

  function UndrainedState(plan: Plan, fence: Option<PlanId>, running: set<Process>, queues: Queues,
                          op: Operation): State {
    State(["users"], map[7 := plan], Some(7), fence, 0, map[], map[0 := 0, 1 := 0], running, queues, op, [])
  }

  /** Process 0 runs the commands, process 1 works. */
  const START := State(["users"], map[], None, None, 0, map[], map[0 := 0, 1 := 0], {}, NONE, Idle, [])
  const NONE := Queues(0, false, 0)
  const PAUSED := Queues(0, true, 0)
  const PLANNED := Plan(Planned, 0, 1, map[], false)
  const COPIED := Plan(Copied, 0, 1, map["users" := []], true)
  const FIRST := Job(0, 7, Migrate(Planned))
  const AGAIN := Job(0, 7, Migrate(Copied))

  /** Steps that ask no care of the operator. */
  predicate Uneventful(step: Step) {
    !step.BeginVerify? && !step.FinalizeActivation? && !step.FinalizeRollback?
  }

  lemma ThreeSteps(s: State, a: Step, b: Step, c: Step) returns (steps: seq<Step>)
    ensures Run(s, steps) == Next(Next(Next(s, a), b), c)
    ensures forall step | step in steps :: step == a || step == b || step == c
  {
    steps := [a, b, c];
    RunThree(s, a, b, c);
  }

  lemma UndrainedPlanned() returns (steps: seq<Step>)
    ensures Run(START, steps) == UndrainedState(PLANNED, None, {}, NONE, Engaging(FIRST))
    ensures forall step | step in steps :: Uneventful(step)
  {
    steps := ThreeSteps(START, PlanFile(0, 7, 1), PlanPointer, BeginMigrate(0, 7));
  }

  lemma UndrainedCopying() returns (steps: seq<Step>)
    ensures Run(UndrainedState(PLANNED, None, {}, NONE, Engaging(FIRST)), steps)
         == UndrainedState(PLANNED.(status := Copying, unbroken := true), Some(7), {}, PAUSED,
                           CopyingTables(FIRST, 0, map[]))
    ensures forall step | step in steps :: Uneventful(step)
  {
    var s := UndrainedState(PLANNED, None, {}, NONE, Engaging(FIRST));
    var draining := UndrainedState(PLANNED, Some(7), {}, NONE, Draining(FIRST));
    RunOne(s, Engage);
    assert Run(s, [Engage]) == draining;
    var rest := UndrainedStarts();
    RunConcat(s, [Engage], rest);
    steps := [Engage] + rest;
  }

  lemma UndrainedStarts() returns (steps: seq<Step>)
    ensures Run(UndrainedState(PLANNED, Some(7), {}, NONE, Draining(FIRST)), steps)
         == UndrainedState(PLANNED.(status := Copying, unbroken := true), Some(7), {}, PAUSED,
                           CopyingTables(FIRST, 0, map[]))
    ensures forall step | step in steps :: Uneventful(step)
  {
    var draining := UndrainedState(PLANNED, Some(7), {}, NONE, Draining(FIRST));
    var drain := Drains(draining);
    var drained := UndrainedState(PLANNED, Some(7), {}, PAUSED, Starting(FIRST));
    RunOne(drained, StartCopy);
    RunConcat(draining, drain, [StartCopy]);
    steps := drain + [StartCopy];
  }

  /** With nobody left the queues are paused and the last look passes. */
  lemma Drains(s: State) returns (steps: seq<Step>)
    requires s.op.Draining? && s.running == {} && s.queues.waiting == 0
    ensures forall step | step in steps :: step == PauseQueues || step == DrainDone
    ensures Run(s, steps)
         == s.(queues := s.queues.(paused := true),
               op := if s.op.job.purpose.Rollback? then Resetting(s.op.job, |s.order|) else Starting(s.op.job))
  {
    steps := [PauseQueues, DrainDone];
    RunTwoSteps(s, PauseQueues, DrainDone);
  }

  lemma UndrainedCopied() returns (steps: seq<Step>)
    ensures Run(UndrainedState(PLANNED.(status := Copying, unbroken := true), Some(7), {}, PAUSED,
                               CopyingTables(FIRST, 0, map[])),
                steps)
         == UndrainedState(COPIED, Some(7), {}, PAUSED, Engaging(AGAIN))
    ensures forall step | step in steps :: Uneventful(step)
  {
    steps := ThreeSteps(
      UndrainedState(PLANNED.(status := Copying, unbroken := true), Some(7), {}, PAUSED,
                     CopyingTables(FIRST, 0, map[])),
      CopyRecord, CopyFinish, BeginMigrate(0, 7));
  }

  lemma UndrainedReleased() returns (steps: seq<Step>)
    ensures Run(UndrainedState(COPIED, Some(7), {}, PAUSED, Engaging(AGAIN)), steps)
         == UndrainedState(COPIED.(unbroken := false), None, {}, NONE, Idle)
    ensures forall step | step in steps :: Uneventful(step)
  {
    var s := UndrainedState(COPIED, Some(7), {}, PAUSED, Engaging(AGAIN));
    assert Next(s, Engage) == UndrainedState(COPIED, Some(7), {}, PAUSED, Draining(AGAIN));
    assert Next(Next(s, Engage), DrainFail) == UndrainedState(COPIED, Some(7), {}, PAUSED, Releasing(0, 7));
    steps := ThreeSteps(s, Engage, DrainFail, Release);
  }

  /** What is left behind: a running mutation, or a job on its way to its queue. */
  function Behind(byJob: bool, op: Operation): State {
    UndrainedState(COPIED.(unbroken := false), Some(7), if byJob then {} else {1},
                   if byJob then Queues(0, false, 1) else NONE, op)
  }

  lemma UndrainedEngaged(byJob: bool) returns (steps: seq<Step>)
    ensures Run(UndrainedState(COPIED.(unbroken := false), None, {}, NONE, Idle), steps)
            == Behind(byJob, Draining(AGAIN))
    ensures forall step | step in steps :: Uneventful(step)
  {
    steps := ThreeSteps(
      UndrainedState(COPIED.(unbroken := false), None, {}, NONE, Idle),
      if byJob then JobLook else MutationBegin(1), BeginMigrate(0, 7), Engage);
  }

  lemma CrashEnds(s: State) returns (steps: seq<Step>)
    ensures Run(s, steps) == Done(s) && forall step | step in steps :: Uneventful(step)
  {
    steps := [Crash];
    RunOne(s, Crash);
  }

  lemma RunFive(s: State, a: seq<Step>, b: seq<Step>, c: seq<Step>, d: seq<Step>, e: seq<Step>)
    ensures Run(s, a + b + c + d + e) == Run(Run(Run(Run(Run(s, a), b), c), d), e)
  {
    RunConcat(s, a, b);
    RunConcat(s, a + b, c);
    RunConcat(s, a + b + c, d);
    RunConcat(s, a + b + c + d, e);
  }

  lemma UndrainedStateIsReachable(byJob: bool) returns (steps: seq<Step>)
    ensures Init(START)
    ensures Run(START, steps) == Behind(byJob, Idle)
    ensures forall step | step in steps :: Uneventful(step)
  {
    var a := UndrainedPlanned();
    var b := UndrainedCopying();
    var c := UndrainedCopied();
    var d := UndrainedReleased();
    var e := UndrainedEngaged(byJob);
    RunFive(START, a, b, c, d, e);
    var f := CrashEnds(Behind(byJob, Draining(AGAIN)));
    RunConcat(START, a + b + c + d + e, f);
    steps := a + b + c + d + e + f;
  }

  lemma {:induction false} UneventfulRunIsCareful(s: State, steps: seq<Step>)
    requires forall step | step in steps :: Uneventful(step)
    ensures CarefulRun(s, steps)
    decreases |steps|
  {
    if steps != [] {
      assert Uneventful(steps[0]);
      UneventfulRunIsCareful(Next(s, steps[0]), steps[1..]);
    }
  }

  /** A committed write can be missing from the database the configuration
      names, after nothing worse than one failed drain and one crash: by a
      mutation that was running when the fence went up, or by a job that was on its
      way to its queue. */
  lemma UndrainedVerifyLosesAWrite(byJob: bool)
    ensures Init(START)
    ensures exists steps, meanwhile | CarefulRun(START, steps) && AllByProcess(meanwhile) ::
              !NothingLost(Run(START, steps + VerifyThenActivate(0, 7, 1, meanwhile)))
  {
    var steps := UndrainedStateIsReachable(byJob);
    UneventfulRunIsCareful(START, steps);
    RunKeepsInv(START, steps);
    var s := Run(START, steps);
    var w := Write("users", ["late"]);
    assert s.order == ["users"] && RowsOf(s.databases, s.file, "users") == [];
    var meanwhile: seq<Step>;
    if byJob {
      LateJobIsLost(s, 0, 7, w);
      meanwhile :| AllByProcess(meanwhile) && !NothingLost(Run(s, VerifyThenActivate(0, 7, 1, meanwhile)));
    } else {
      LateMutationIsLost(s, 0, 7, 1, w);
      meanwhile := [MutationWrite(1, w)];
    }
    RunConcat(START, steps, VerifyThenActivate(0, 7, 1, meanwhile));
  }
}
