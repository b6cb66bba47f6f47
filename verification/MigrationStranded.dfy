/**
  A plan whose source the active database cannot get back to: a run that leaves one
  behind, and exactly when a plan that has not verified yet can still be moved on.
*/
module MigrationStranded {
  import opened Base
  import opened MigrationProtocol
  import opened MigrationSafety
  import opened MigrationGuarantees
  import opened MigrationRecovery
  import opened MigrationMoves

  // ---------------------------------------------------------------------
  // What stays out of reach

  /** Both databases of a plan are within reach. */
  predicate Within(reach: iset<Payload>, plan: Plan) {
    plan.source in reach && plan.destination in reach
  }

  /** From what is within reach the plan leads nowhere else. */
  predicate StaysWithin(reach: iset<Payload>, plan: Plan) {
    match plan.status
    case Planned => plan.source in reach ==> plan.destination in reach
    case Copying => plan.source in reach ==> plan.destination in reach
    case Copied => plan.source in reach ==> plan.destination in reach
    case Failed => plan.source in reach ==> plan.destination in reach
    case Active => plan.destination in reach ==> plan.source in reach
    case RolledBack => true
    case Cancelled => true
    case _ => Within(reach, plan)
  }

  /** The command that runs is about another plan, and within reach. */
  predicate OpWithin(reach: iset<Payload>, s: State, id: PlanId) {
    match s.op
    case Idle => true
    case Pointing(_, _) => false
    case Configuring(_, j, payload) => j != id && j in s.plans && payload in reach
    case Releasing(_, j) => j != id && j in s.plans
    case Cancelling(_, j) => j != id && j in s.plans
    case RecordingCancel(_, j) => j != id && j in s.plans
    case Unpointing(_, j) => j != id && j in s.plans
    case _ => s.op.job.id != id && s.op.job.id in s.plans && Within(reach, s.plans[s.op.job.id])
  }

  ghost predicate OthersWithin(reach: iset<Payload>, plans: map<PlanId, Plan>, id: PlanId) {
    forall j | j in plans && j != id :: StaysWithin(reach, plans[j])
  }

  /** The current plan waits to be migrated, and its source is out of reach. */
  ghost predicate CutOff(s: State, id: PlanId, reach: iset<Payload>) {
    && s.current == Some(id) && id in s.plans && Migratable(s.plans[id].status) && s.plans[id].source !in reach
    && s.file in reach && (forall p | p in s.loaded :: s.loaded[p] in reach)
    && OthersWithin(reach, s.plans, id)
    && (s.fence.Some? ==> s.fence.value != id && s.fence.value in s.plans && Within(reach, s.plans[s.fence.value]))
    && OpWithin(reach, s, id)
  }

  /** The plan is untouched, and no plan was made beside it. */
  ghost predicate StaysCutOff(s: State, id: PlanId, reach: iset<Payload>, t: State) {
    && CutOff(t, id, reach) && t.plans.Keys == s.plans.Keys
    && id in s.plans && t.plans[id] == s.plans[id]
  }

  /** All of it but the plans and the operation. */
  ghost predicate FilesWithin(s: State, t: State, id: PlanId, reach: iset<Payload>, j: PlanId) {
    && t.current == s.current && t.file in reach && t.loaded == s.loaded
    && (t.fence == s.fence || t.fence.None? || (t.fence == Some(j) && j in s.plans && Within(reach, s.plans[j])))
    && OpWithin(reach, t, id)
  }

  /** Nothing happens to any plan, or only to one other, which stays within reach. */
  lemma OnePlanChanges(s: State, id: PlanId, reach: iset<Payload>, t: State, j: PlanId)
    requires CutOff(s, id, reach) && FilesWithin(s, t, id, reach, j) && j != id && j in s.plans
    requires t.plans == s.plans || (j in t.plans && t.plans == s.plans[j := t.plans[j]]
                                    && StaysWithin(reach, t.plans[j])
                                    && SameDatabases(s.plans[j], t.plans[j]))
    ensures StaysCutOff(s, id, reach, t)
  {
  }

  predicate SameDatabases(a: Plan, b: Plan) {
    a.source == b.source && a.destination == b.destination
  }

  lemma CutOffByProcess(s: State, id: PlanId, reach: iset<Payload>, step: Step)
    requires CutOff(s, id, reach) && ByProcess(step)
    ensures StaysCutOff(s, id, reach, Next(s, step))
  {
  }

  /** A command is given on another plan. */
  lemma CommandWithin(s: State, id: PlanId, reach: iset<Payload>, step: Step)
    requires CutOff(s, id, reach) && ByCommand(step) && Next(s, step) != s
    ensures !step.PlanFile? && step.id != id && step.id in s.plans && FilesWithin(s, Next(s, step), id, reach, step.id)
  {
  }

  lemma CutOffByCommand(s: State, id: PlanId, reach: iset<Payload>, step: Step)
    requires CutOff(s, id, reach) && ByCommand(step)
    ensures StaysCutOff(s, id, reach, Next(s, step))
  {
    if Next(s, step) != s {
      CommandWithin(s, id, reach, step);
      OnePlanChanges(s, id, reach, Next(s, step), step.id);
    }
  }

  lemma CutOffByStart(s: State, id: PlanId, reach: iset<Payload>, step: Step)
    requires CutOff(s, id, reach) && ByStart(step)
    ensures StaysCutOff(s, id, reach, Next(s, step))
  {
    if Next(s, step) != s {
      OnePlanChanges(s, id, reach, Next(s, step), s.op.job.id);
    }
  }

  lemma CutOffByCopy(s: State, id: PlanId, reach: iset<Payload>, step: Step)
    requires CutOff(s, id, reach) && ByCopy(step)
    ensures StaysCutOff(s, id, reach, Next(s, step))
  {
    if Next(s, step) != s {
      if step.CheckTable? || step.CheckFinish? {
        CheckWithin(s, id, reach, step);
      } else {
        CopyWithin(s, id, reach, step);
      }
      OnePlanChanges(s, id, reach, Next(s, step), s.op.job.id);
    }
  }

  lemma CopyWithin(s: State, id: PlanId, reach: iset<Payload>, step: Step)
    requires CutOff(s, id, reach) && (step.CopyWrite? || step.CopyRecord? || step.CopyFinish?) && Next(s, step) != s
    ensures s.op.CopyingTables?
    ensures var t := Next(s, step); var j := s.op.job.id;
            && FilesWithin(s, t, id, reach, j)
            && (t.plans == s.plans || (j in t.plans && t.plans == s.plans[j := t.plans[j]]
                                       && StaysWithin(reach, t.plans[j])
                                       && SameDatabases(s.plans[j], t.plans[j])))
  {
  }

  lemma CheckWithin(s: State, id: PlanId, reach: iset<Payload>, step: Step)
    requires CutOff(s, id, reach) && (step.CheckTable? || step.CheckFinish?) && Next(s, step) != s
    ensures s.op.Checking?
    ensures var t := Next(s, step); var j := s.op.job.id;
            && FilesWithin(s, t, id, reach, j)
            && (t.plans == s.plans || (j in t.plans && t.plans == s.plans[j := t.plans[j]]
                                       && StaysWithin(reach, t.plans[j])
                                       && SameDatabases(s.plans[j], t.plans[j])))
  {
  }

  lemma CutOffByRelease(s: State, id: PlanId, reach: iset<Payload>, step: Step)
    requires CutOff(s, id, reach) && (step.ResumeQueues? || step.Release? || step.CancelRelease?)
    ensures StaysCutOff(s, id, reach, Next(s, step))
  {
    if Next(s, step) != s {
      ReleaseWithin(s, id, reach, step);
      OnePlanChanges(s, id, reach, Next(s, step), s.op.id);
    }
  }

  lemma ReleaseWithin(s: State, id: PlanId, reach: iset<Payload>, step: Step)
    requires CutOff(s, id, reach) && (step.ResumeQueues? || step.Release? || step.CancelRelease?)
    requires Next(s, step) != s
    ensures s.op.Releasing? || s.op.Cancelling?
    ensures s.op.id != id && s.op.id in s.plans && FilesWithin(s, Next(s, step), id, reach, s.op.id)
  {
  }

  lemma CutOffByFailure(s: State, id: PlanId, reach: iset<Payload>, step: Step)
    requires CutOff(s, id, reach) && (step.Throw? || step.FailRecord? || step.FailSkip?)
    ensures StaysCutOff(s, id, reach, Next(s, step))
  {
    if Next(s, step) != s {
      FailureWithin(s, id, reach, step);
      OnePlanChanges(s, id, reach, Next(s, step), s.op.job.id);
    }
  }

  lemma FailureWithin(s: State, id: PlanId, reach: iset<Payload>, step: Step)
    requires CutOff(s, id, reach) && (step.Throw? || step.FailRecord? || step.FailSkip?) && Next(s, step) != s
    ensures InsideTry(s.op) || s.op.Failing?
    ensures s.op.job.id != id && s.op.job.id in s.plans && FilesWithin(s, Next(s, step), id, reach, s.op.job.id)
  {
  }

  lemma CutOffByWriting(s: State, id: PlanId, reach: iset<Payload>, step: Step)
    requires CutOff(s, id, reach)
    requires step.PlanPointer? || step.WriteConfiguration? || step.CancelRecord? || step.CancelUnpoint?
    ensures StaysCutOff(s, id, reach, Next(s, step))
  {
    if Next(s, step) != s {
      OnePlanChanges(s, id, reach, Next(s, step), s.op.id);
    }
  }

  lemma CutOffByEnding(s: State, id: PlanId, reach: iset<Payload>, step: Step)
    requires CutOff(s, id, reach) && !ByProcess(step) && !ByCommand(step) && !ByStart(step) && !ByCopy(step)
    ensures StaysCutOff(s, id, reach, Next(s, step))
  {
    if step.Throw? || step.FailRecord? || step.FailSkip? {
      CutOffByFailure(s, id, reach, step);
    } else if step.ResumeQueues? || step.Release? || step.CancelRelease? {
      CutOffByRelease(s, id, reach, step);
    } else {
      CutOffByWriting(s, id, reach, step);
    }
  }

  lemma CutOffStep(s: State, id: PlanId, reach: iset<Payload>, step: Step)
    requires CutOff(s, id, reach)
    ensures StaysCutOff(s, id, reach, Next(s, step))
  {
    if ByProcess(step) { CutOffByProcess(s, id, reach, step); }
    else if ByCommand(step) { CutOffByCommand(s, id, reach, step); }
    else if ByStart(step) { CutOffByStart(s, id, reach, step); }
    else if ByCopy(step) { CutOffByCopy(s, id, reach, step); }
    else { CutOffByEnding(s, id, reach, step); }
  }

  /** Such a plan can be neither migrated nor cancelled, and no plan can be made
      beside it, whatever commands are given on whatever plans and however often
      the processes are restarted. */
  lemma {:induction false} StrandedForever(s: State, id: PlanId, reach: iset<Payload>, steps: seq<Step>)
    requires CutOff(s, id, reach)
    ensures StaysCutOff(s, id, reach, Run(s, steps))
    decreases |steps|
  {
    if steps != [] {
      CutOffStep(s, id, reach, steps[0]);
      StrandedForever(Next(s, steps[0]), id, reach, steps[1..]);
    }
  }

  // ---------------------------------------------------------------------
  // Exactly when a plan can be moved on

  /** Nothing but the paths over other plans leads anywhere. */
  lemma UnreachedIsCutOff(s: State, id: PlanId) returns (reach: iset<Payload>)
    requires AtRest(s) && s.current == Some(id) && id in s.plans && Migratable(s.plans[id].status)
    requires !Reaches(s.plans, id, s.file, s.plans[id].source)
    ensures CutOff(s, id, reach)
  {
    reach := iset file | Reaches(s.plans, id, s.file, file);
    assert Path(s.plans, id, s.file, [], s.file) && Once([]);
    forall j | j in s.plans && j != id ensures StaysWithin(reach, s.plans[j]) {
      var plan := s.plans[j];
      assert PlanInv(s.order, s.databases, Calm(s, j), plan);
      if plan.source in reach && Onward(plan, plan.source).Some? {
        ReachedIsClosed(s.plans, id, s.file, plan.source, j);
      }
      if plan.destination in reach && Onward(plan, plan.destination).Some? {
        ReachedIsClosed(s.plans, id, s.file, plan.destination, j);
      }
    }
  }

  /** With the fence free, the current plan, planned, failed or stopped anywhere in
      its copy, can be brought to its end exactly when its source is the active
      database, or the other plans can make it so: those that can be migrated take
      the active database forward, an active one takes it back, each of them once.
      Otherwise nothing anybody does touches it. */
  lemma {:induction false} MovableExactly(s: State, id: PlanId)
    requires AtRest(s) && s.current == Some(id) && id in s.plans && Migratable(s.plans[id].status)
    ensures (exists steps :: AllBenign(steps) && CarefulRun(s, steps) && Terminal(PlanOf(Run(s, steps), id).status))
            <==> Reaches(s.plans, id, s.file, s.plans[id].source)
    ensures Reaches(s.plans, id, s.file, s.plans[id].source)
            || forall steps :: PlanOf(Run(s, steps), id) == s.plans[id]
  {
    var source := s.plans[id].source;
    if Reaches(s.plans, id, s.file, source) {
      var path :| Once(path) && Path(s.plans, id, s.file, path, source);
      var follow := FollowPath(s, id, path, source);
      var t := Run(s, follow);
      var migrate := MoveForward(t, id);
      CarefulConcat(s, follow, migrate);
      RunConcat(s, follow, migrate);
      assert AllBenign(follow + migrate);
    } else {
      var reach := UnreachedIsCutOff(s, id);
      forall steps ensures PlanOf(Run(s, steps), id) == s.plans[id] {
        StrandedForever(s, id, reach, steps);
      }
    }
  }

  // Such a plan is what is left when it was made while another one was active,
  // and that other one is rolled back.

  const EMPTY: Disk := map[0 := map["users" := []]]
  const UP := Plan(Active, 0, 1, map["users" := []], false)
  const NEXT_UP := Plan(Planned, 1, 2, map[], false)
  const MOVE := Job(0, 7, Migrate(Planned))
  const BACK := Job(0, 7, Rollback)

  /** Plan 7 alone. */
  function Alone(plan: Plan, fence: Option<PlanId>, file: Payload, loaded: Payload, queues: Queues,
                 op: Operation): State {
    State(["users"], map[7 := plan], Some(7), fence, file, map[], map[0 := loaded], {}, queues, op, [])
  }

  /** Plan 8 made beside it. */
  function Beside(plan: Plan, fence: Option<PlanId>, file: Payload, loaded: Payload, disk: Disk, queues: Queues,
                  op: Operation): State
  {
    State(["users"], map[7 := plan, 8 := NEXT_UP], Some(8), fence, file, disk, map[0 := loaded], {}, queues, op, [])
  }

  const EMPTY_START := State(["users"], map[], None, None, 0, map[], map[0 := 0], {}, NONE, Idle, [])

  lemma CarefulThree(s: State, a: Step, b: Step, c: Step) returns (steps: seq<Step>)
    requires Careful(s, a) && Careful(Next(s, a), b) && Careful(Next(Next(s, a), b), c)
    ensures Run(s, steps) == Next(Next(Next(s, a), b), c) && CarefulRun(s, steps)
  {
    steps := [a, b, c];
    RunThree(s, a, b, c);
    RunTwo(Next(s, a), b, c);
    assert [a, b, c][1..] == [b, c];
  }

  lemma CarefulTwo(s: State, a: Step, b: Step) returns (steps: seq<Step>)
    requires Careful(s, a) && Careful(Next(s, a), b)
    ensures Run(s, steps) == Next(Next(s, a), b) && CarefulRun(s, steps)
  {
    steps := [a, b];
    RunTwo(s, a, b);
  }

  /** Two careful runs, one after the other. */
  lemma Joined(s: State, a: seq<Step>, b: seq<Step>)
    requires CarefulRun(s, a) && CarefulRun(Run(s, a), b)
    ensures CarefulRun(s, a + b) && Run(s, a + b) == Run(Run(s, a), b)
  {
    CarefulConcat(s, a, b);
    RunConcat(s, a, b);
  }

  lemma PlanMade() returns (steps: seq<Step>)
    ensures CarefulRun(EMPTY_START, steps)
    ensures Run(EMPTY_START, steps) == Alone(PLANNED, None, 0, 0, NONE, Engaging(MOVE))
  {
    steps := CarefulThree(EMPTY_START, PlanFile(0, 7, 1), PlanPointer, BeginMigrate(0, 7));
  }

  lemma CopyStarted() returns (steps: seq<Step>)
    ensures var s := Alone(PLANNED, None, 0, 0, NONE, Engaging(MOVE));
            && CarefulRun(s, steps)
            && Run(s, steps) == Alone(PLANNED.(status := Copying, unbroken := true), Some(7), 0, 0, PAUSED,
                                      CopyingTables(MOVE, 0, map[]))
  {
    var s := Alone(PLANNED, None, 0, 0, NONE, Engaging(MOVE));
    var drain := CarefulThree(s, Engage, PauseQueues, DrainDone);
    var drained := Alone(PLANNED, Some(7), 0, 0, PAUSED, Starting(MOVE));
    assert Run(s, drain) == drained;
    var start := CopyStarts();
    Joined(s, drain, start);
    steps := drain + start;
  }

  lemma CopyStarts() returns (steps: seq<Step>)
    ensures var s := Alone(PLANNED, Some(7), 0, 0, PAUSED, Starting(MOVE));
            && CarefulRun(s, steps)
            && Run(s, steps) == Alone(PLANNED.(status := Copying, unbroken := true), Some(7), 0, 0, PAUSED,
                                      CopyingTables(MOVE, 0, map[]))
  {
    steps := OneStep(Alone(PLANNED, Some(7), 0, 0, PAUSED, Starting(MOVE)), StartCopy);
  }

  lemma CopyDone() returns (steps: seq<Step>)
    ensures var s := Alone(PLANNED.(status := Copying, unbroken := true), Some(7), 0, 0, PAUSED,
                           CopyingTables(MOVE, 0, map[]));
            && CarefulRun(s, steps)
            && Run(s, steps) == Alone(COPIED, Some(7), 0, 0, PAUSED, Checking(Job(0, 7, Verify), 0, map["users" := []]))
  {
    var s := Alone(PLANNED.(status := Copying, unbroken := true), Some(7), 0, 0, PAUSED,
                   CopyingTables(MOVE, 0, map[]));
    var copy := TableCopied();
    var verify := VerifyBegun();
    Joined(s, copy, verify);
    steps := copy + verify;
  }

  lemma TableCopied() returns (steps: seq<Step>)
    ensures var s := Alone(PLANNED.(status := Copying, unbroken := true), Some(7), 0, 0, PAUSED,
                           CopyingTables(MOVE, 0, map[]));
            CarefulRun(s, steps) && Run(s, steps) == Alone(COPIED, Some(7), 0, 0, PAUSED, Idle)
  {
    var s := Alone(PLANNED.(status := Copying, unbroken := true), Some(7), 0, 0, PAUSED,
                   CopyingTables(MOVE, 0, map[]));
    var record := OneStep(s, CopyRecord);
    var t := Alone(COPIED.(status := Copying), Some(7), 0, 0, PAUSED, CopyingTables(MOVE, 1, map["users" := []]));
    assert Run(s, record) == t;
    var finish := CopyFinished();
    Joined(s, record, finish);
    steps := record + finish;
  }

  lemma CopyFinished() returns (steps: seq<Step>)
    ensures var s := Alone(COPIED.(status := Copying), Some(7), 0, 0, PAUSED,
                           CopyingTables(MOVE, 1, map["users" := []]));
            CarefulRun(s, steps) && Run(s, steps) == Alone(COPIED, Some(7), 0, 0, PAUSED, Idle)
  {
    steps := OneStep(
      Alone(COPIED.(status := Copying), Some(7), 0, 0, PAUSED, CopyingTables(MOVE, 1, map["users" := []])), CopyFinish);
  }

  lemma VerifyBegun() returns (steps: seq<Step>)
    ensures var s := Alone(COPIED, Some(7), 0, 0, PAUSED, Idle);
            && CarefulRun(s, steps)
            && Run(s, steps) == Alone(COPIED, Some(7), 0, 0, PAUSED, Checking(Job(0, 7, Verify), 0, map["users" := []]))
  {
    steps := OneStep(Alone(COPIED, Some(7), 0, 0, PAUSED, Idle), BeginVerify(0, 7));
  }

  lemma ActivationBegun() returns (steps: seq<Step>)
    ensures var s := Alone(COPIED, Some(7), 0, 0, PAUSED, Checking(Job(0, 7, Verify), 0, map["users" := []]));
            && CarefulRun(s, steps)
            && Run(s, steps) == Alone(COPIED.(status := ActivationPendingRestart), Some(7), 0, 0, PAUSED,
                                      Configuring(0, 7, 1))
  {
    var s := Alone(COPIED, Some(7), 0, 0, PAUSED, Checking(Job(0, 7, Verify), 0, map["users" := []]));
    assert Next(s, CheckTable)
           == Alone(COPIED, Some(7), 0, 0, PAUSED, Checking(Job(0, 7, Verify), 1, map["users" := []]));
    var verified := Alone(COPIED.(status := Verified), Some(7), 0, 0, PAUSED, Idle);
    assert Next(Next(s, CheckTable), CheckFinish) == verified by {
      assert VerifiedTables(s, 0) == map["users" := []];
    }
    assert Next(verified, BeginActivate(0, 7))
        == Alone(COPIED.(status := ActivationPendingRestart), Some(7), 0, 0, PAUSED, Configuring(0, 7, 1));
    steps := CarefulThree(s, CheckTable, CheckFinish, BeginActivate(0, 7));
  }

  lemma OneStep(s: State, step: Step) returns (steps: seq<Step>)
    requires Careful(s, step)
    ensures CarefulRun(s, steps) && Run(s, steps) == Next(s, step)
  {
    steps := [step];
    RunOne(s, step);
    assert [step][1..] == [];
  }

  /** The configuration is written and the process restarts. */
  lemma Switched(s: State) returns (steps: seq<Step>)
    requires s.op.Configuring? && s.op.pid == 0 && s.running == {}
    ensures CarefulRun(s, steps)
    ensures Run(s, steps) == s.(file := s.op.payload, op := Idle, loaded := s.loaded[0 := s.op.payload])
  {
    var write := OneStep(s, WriteConfiguration);
    var restart := OneStep(WriteConfigurationStep(s), Restart(0));
    assert s.running - {0} == s.running;
    Joined(s, write, restart);
    steps := write + restart;
  }

  lemma ActivationFinished() returns (steps: seq<Step>)
    ensures var s := Alone(COPIED.(status := ActivationPendingRestart), Some(7), 1, 1, PAUSED, Idle);
            && CarefulRun(s, steps)
            && Run(s, steps) == Alone(COPIED.(status := Active), Some(7), 1, 1, PAUSED, Releasing(0, 7))
  {
    steps := OneStep(Alone(COPIED.(status := ActivationPendingRestart), Some(7), 1, 1, PAUSED, Idle),
                     FinalizeActivation(0, 7));
  }

  lemma Activated() returns (steps: seq<Step>)
    ensures var s := Alone(COPIED.(status := ActivationPendingRestart), Some(7), 0, 0, PAUSED, Configuring(0, 7, 1));
            && CarefulRun(s, steps)
            && Run(s, steps) == Alone(COPIED.(status := Active), Some(7), 1, 1, PAUSED, Releasing(0, 7))
  {
    var plan := COPIED.(status := ActivationPendingRestart);
    var s := Alone(plan, Some(7), 0, 0, PAUSED, Configuring(0, 7, 1));
    var switch := Switched(s);
    var restarted := Alone(plan, Some(7), 1, 1, PAUSED, Idle);
    assert Run(s, switch) == restarted;
    var finish := ActivationFinished();
    Joined(s, switch, finish);
    steps := switch + finish;
  }

  lemma FenceReleased() returns (steps: seq<Step>)
    ensures var s := Alone(COPIED.(status := Active), Some(7), 1, 1, PAUSED, Releasing(0, 7));
            && CarefulRun(s, steps) && Run(s, steps) == Alone(UP, None, 1, 1, NONE, Idle)
  {
    steps := OneStep(Alone(COPIED.(status := Active), Some(7), 1, 1, PAUSED, Releasing(0, 7)), Step.Release);
  }

  lemma SecondPlanMade() returns (steps: seq<Step>)
    ensures CarefulRun(Alone(UP, None, 1, 1, NONE, Idle), steps)
    ensures Run(Alone(UP, None, 1, 1, NONE, Idle), steps) == Beside(UP, None, 1, 1, map[], NONE, Idle)
  {
    var s := Alone(UP, None, 1, 1, NONE, Idle);
    var file := OneStep(s, PlanFile(0, 8, 2));
    var t := Beside(UP, None, 1, 1, map[], NONE, Pointing(0, 8)).(current := Some(7));
    assert Run(s, file) == t;
    var pointer := OneStep(t, PlanPointer);
    Joined(s, file, pointer);
    steps := file + pointer;
  }

  lemma RollbackDrained() returns (steps: seq<Step>)
    ensures var s := Beside(UP, None, 1, 1, map[], NONE, Idle);
            && CarefulRun(s, steps) && Run(s, steps) == Beside(UP, Some(7), 1, 1, map[], PAUSED, Resetting(BACK, 1))
  {
    var s := Beside(UP, None, 1, 1, map[], NONE, Idle);
    var engage := CarefulTwo(s, BeginRollback(0, 7), Engage);
    var t := Beside(UP, Some(7), 1, 1, map[], NONE, Draining(BACK));
    assert Run(s, engage) == t;
    var drain := RollbackDrains();
    Joined(s, engage, drain);
    steps := engage + drain;
  }

  lemma RollbackDrains() returns (steps: seq<Step>)
    ensures var s := Beside(UP, Some(7), 1, 1, map[], NONE, Draining(BACK));
            && CarefulRun(s, steps) && Run(s, steps) == Beside(UP, Some(7), 1, 1, map[], PAUSED, Resetting(BACK, 1))
  {
    steps := CarefulTwo(Beside(UP, Some(7), 1, 1, map[], NONE, Draining(BACK)), PauseQueues, DrainDone);
  }

  lemma CopiedBack() returns (steps: seq<Step>)
    ensures var s := Beside(UP, Some(7), 1, 1, map[], PAUSED, Resetting(BACK, 1));
            && CarefulRun(s, steps)
            && Run(s, steps) == Beside(UP, Some(7), 1, 1, EMPTY, PAUSED, CopyingTables(BACK, 1, map["users" := []]))
  {
    var s := Beside(UP, Some(7), 1, 1, map[], PAUSED, Resetting(BACK, 1));
    var reset := CarefulTwo(s, ResetTable, ResetDone);
    assert Run(s, reset) == Beside(UP, Some(7), 1, 1, EMPTY, PAUSED, CopyingTables(BACK, 0, map[]));
    var copy := TableCopiedBack();
    Joined(s, reset, copy);
    steps := reset + copy;
  }

  lemma TableCopiedBack() returns (steps: seq<Step>)
    ensures var s := Beside(UP, Some(7), 1, 1, EMPTY, PAUSED, CopyingTables(BACK, 0, map[]));
            && CarefulRun(s, steps)
            && Run(s, steps) == Beside(UP, Some(7), 1, 1, EMPTY, PAUSED, CopyingTables(BACK, 1, map["users" := []]))
  {
    steps := OneStep(Beside(UP, Some(7), 1, 1, EMPTY, PAUSED, CopyingTables(BACK, 0, map[])), CopyRecord);
  }

  lemma RollbackVerified() returns (steps: seq<Step>)
    ensures var s := Beside(UP, Some(7), 1, 1, EMPTY, PAUSED, CopyingTables(BACK, 1, map["users" := []]));
            && CarefulRun(s, steps)
            && Run(s, steps) == Beside(UP.(status := RollbackPendingRestart), Some(7), 1, 1, EMPTY, PAUSED,
                                       Configuring(0, 7, 0))
  {
    var tables := map["users" := []];
    var s := Beside(UP, Some(7), 1, 1, EMPTY, PAUSED, CopyingTables(BACK, 1, tables));
    assert Next(s, CopyFinish) == Beside(UP, Some(7), 1, 1, EMPTY, PAUSED, Checking(BACK, 0, tables));
    var checked := Beside(UP, Some(7), 1, 1, EMPTY, PAUSED, Checking(BACK, 1, tables));
    assert Next(Next(s, CopyFinish), CheckTable) == checked;
    assert Next(checked, CheckFinish)
        == Beside(UP.(status := RollbackPendingRestart), Some(7), 1, 1, EMPTY, PAUSED, Configuring(0, 7, 0));
    steps := CarefulThree(s, CopyFinish, CheckTable, CheckFinish);
  }

  lemma RollbackFinished() returns (steps: seq<Step>)
    ensures var s := Beside(UP.(status := RollbackPendingRestart), Some(7), 0, 0, EMPTY, PAUSED, Idle);
            && CarefulRun(s, steps)
            && Run(s, steps) == Beside(UP.(status := RolledBack), Some(7), 0, 0, EMPTY, PAUSED, Releasing(0, 7))
  {
    steps := OneStep(Beside(UP.(status := RollbackPendingRestart), Some(7), 0, 0, EMPTY, PAUSED, Idle),
                     FinalizeRollback(0, 7));
  }

  lemma RollbackFinalized() returns (steps: seq<Step>)
    ensures var s := Beside(UP.(status := RollbackPendingRestart), Some(7), 1, 1, EMPTY, PAUSED, Configuring(0, 7, 0));
            && CarefulRun(s, steps)
            && Run(s, steps) == Beside(UP.(status := RolledBack), Some(7), 0, 0, EMPTY, PAUSED, Releasing(0, 7))
  {
    var plan := UP.(status := RollbackPendingRestart);
    var s := Beside(plan, Some(7), 1, 1, EMPTY, PAUSED, Configuring(0, 7, 0));
    var switch := Switched(s);
    var restarted := Beside(plan, Some(7), 0, 0, EMPTY, PAUSED, Idle);
    assert Run(s, switch) == restarted;
    var finish := RollbackFinished();
    Joined(s, switch, finish);
    steps := switch + finish;
  }

  lemma FenceReleasedAgain() returns (steps: seq<Step>)
    ensures var s := Beside(UP.(status := RolledBack), Some(7), 0, 0, EMPTY, PAUSED, Releasing(0, 7));
            && CarefulRun(s, steps) && Run(s, steps) == Beside(UP.(status := RolledBack), None, 0, 0, EMPTY, NONE, Idle)
  {
    steps := OneStep(Beside(UP.(status := RolledBack), Some(7), 0, 0, EMPTY, PAUSED, Releasing(0, 7)), Step.Release);
  }

  /** Migrate and activate plan 7. */
  lemma UntilActive() returns (steps: seq<Step>)
    ensures CarefulRun(EMPTY_START, steps)
    ensures Run(EMPTY_START, steps) == Alone(COPIED.(status := Active), Some(7), 1, 1, PAUSED, Releasing(0, 7))
  {
    var a := PlanMade();
    var b := CopyStarted();
    var c := CopyDone();
    var d := ActivationBegun();
    var e := Activated();
    Joined(EMPTY_START, a, b);
    Joined(EMPTY_START, a + b, c);
    Joined(EMPTY_START, a + b + c, d);
    Joined(EMPTY_START, a + b + c + d, e);
    steps := a + b + c + d + e;
  }

  /** Make plan 8, and roll plan 7 back. */
  lemma UntilRolledBack() returns (steps: seq<Step>)
    ensures var s := Alone(COPIED.(status := Active), Some(7), 1, 1, PAUSED, Releasing(0, 7));
            && CarefulRun(s, steps) && Run(s, steps) == Beside(UP.(status := RolledBack), None, 0, 0, EMPTY, NONE, Idle)
  {
    var s := Alone(COPIED.(status := Active), Some(7), 1, 1, PAUSED, Releasing(0, 7));
    var release := FenceReleased();
    var plan := SecondPlanMade();
    Joined(s, release, plan);
    var a := release + plan;
    var b := RollbackDrained();
    var c := CopiedBack();
    var d := RollbackVerified();
    var e := RollbackFinalized();
    var f := FenceReleasedAgain();
    Joined(s, a, b);
    Joined(s, a + b, c);
    Joined(s, a + b + c, d);
    Joined(s, a + b + c + d, e);
    Joined(s, a + b + c + d + e, f);
    steps := a + b + c + d + e + f;
  }

  /** A careful run from the start, in which nothing fails, leaves a plan that
      can never be moved on. */
  lemma RollbackStrandsAPlan() returns (steps: seq<Step>)
    ensures Init(EMPTY_START) && CarefulRun(EMPTY_START, steps)
    ensures var t := Run(EMPTY_START, steps);
            && AtRest(t) && t.current == Some(8) && 8 in t.plans && t.plans[8].status == Planned
            && !Reaches(t.plans, 8, t.file, t.plans[8].source)
  {
    var up := UntilActive();
    var back := UntilRolledBack();
    Joined(EMPTY_START, up, back);
    steps := up + back;
    RunKeepsInv(EMPTY_START, steps);
    var t := Run(EMPTY_START, steps);
    forall path: seq<PlanId> ensures !Path(t.plans, 8, t.file, path, 1) {
      if path != [] && path[0] in t.plans && path[0] != 8 {
        assert path[0] == 7;
      }
    }
  }
}
