/**
  Safety of the fenced migration over every run: an invariant that each step
  keeps, whatever application writes, restarts and crashes fall in between.
*/
module MigrationSafety {
  import opened Base
  import opened MigrationProtocol

  // ---------------------------------------------------------------------
  // What is promised

  /** Both databases hold the same rows in every durable table. */
  ghost predicate Same(order: seq<Table>, disk: Disk, a: Payload, b: Payload) {
    forall t | t in order :: RowsOf(disk, a, t) == RowsOf(disk, b, t)
  }

  /** The database holds every committed application write. */
  ghost predicate HoldsAll(order: seq<Table>, disk: Disk, payload: Payload, committed: seq<Write>) {
    forall t | t in order :: RowsOf(disk, payload, t) == Expected(committed, t)
  }

  /** The database named by the configuration file has lost nothing. */
  ghost predicate NothingLost(s: State) {
    HoldsAll(s.order, s.databases, s.file, s.committed)
  }

  /** Every process runs on this configuration. */
  ghost predicate AllOn(loaded: map<Process, Payload>, payload: Payload) {
    forall p | p in loaded :: loaded[p] == payload
  }

  ghost predicate Synced(s: State) {
    AllOn(s.loaded, s.file)
  }

  /** Statuses a plan may be in only while it holds the drained fence. */
  predicate Guarded(status: Status) {
    status in {Verified, ActivationPendingRestart, RollbackPendingRestart}
  }

  // ---------------------------------------------------------------------
  // The invariant

  predicate Distinct(order: seq<Table>) {
    forall i, j | 0 <= i < j < |order| :: order[i] != order[j]
  }

  /** The record of verified tables is a prefix of the copy order, and each
      recorded table is the same in both databases. */
  ghost predicate RecordedPrefix(order: seq<Table>, disk: Disk, plan: Plan) {
    && |plan.tables| <= |order|
    && (forall t :: t in plan.tables <==> t in order[..|plan.tables|])
    && (forall t | t in plan.tables ::
          plan.tables[t] == RowsOf(disk, plan.source, t) == RowsOf(disk, plan.destination, t))
  }

  ghost predicate UnbrokenInv(order: seq<Table>, disk: Disk, plan: Plan) {
    && (plan.status == Copying ==> RecordedPrefix(order, disk, plan))
    && (plan.status == Copied ==> Same(order, disk, plan.source, plan.destination))
  }

  /** `calm`: this plan holds the fence, no mutation or job is running, and none
      can start. */
  ghost predicate PlanInv(order: seq<Table>, disk: Disk, calm: bool, plan: Plan) {
    && plan.source != plan.destination
    && (plan.status == Planned ==> plan.tables == map[])
    && (Guarded(plan.status) ==> calm && Same(order, disk, plan.source, plan.destination))
    && (plan.unbroken ==> calm && UnbrokenInv(order, disk, plan))
  }

  ghost predicate Calm(s: State, id: PlanId) {
    s.fence == Some(id) && NobodyLeft(s)
  }

  /** No mutation or job is running, and none can start while the fence is up. */
  predicate NobodyLeft(s: State) {
    s.running == {} && NoneMayStart(s.queues)
  }

  ghost predicate PlansInv(s: State) {
    forall id | id in s.plans :: PlanInv(s.order, s.databases, Calm(s, id), s.plans[id])
  }

  /** Every process runs on `a`, or on whatever the file now says. */
  ghost predicate LoadedFrom(loaded: map<Process, Payload>, a: Payload, file: Payload) {
    forall p | p in loaded :: loaded[p] == a || loaded[p] == file
  }

  /** How file and processes stand to the plan that holds the fence. */
  ghost predicate FenceAgrees(file: Payload, loaded: map<Process, Payload>, plan: Plan) {
    match plan.status
    case ActivationPendingRestart =>
      (file == plan.source || file == plan.destination) && LoadedFrom(loaded, plan.source, file)
    case RollbackPendingRestart =>
      (file == plan.source || file == plan.destination) && LoadedFrom(loaded, plan.destination, file)
    case Active => file == plan.destination && AllOn(loaded, file)
    case Cancelled => false
    case _ => file == plan.source && AllOn(loaded, file)
  }

  ghost predicate FenceInv(s: State) {
    match s.fence
    case None => Synced(s)
    case Some(id) => id in s.plans && FenceAgrees(s.file, s.loaded, s.plans[id])
  }

  /** What a job has checked, and nothing can have changed since. */
  ghost predicate JobInv(s: State, job: Job, started: bool) {
    var plan := PlanOf(s, job.id);
    && job.id in s.plans
    && job.pid in s.loaded
    && match job.purpose
       case Migrate(from) =>
         && from in {Planned, Copying, Copied, Failed}
         && plan.status == (if started then Copying else from)
         && s.loaded[job.pid] == plan.source
       case Rollback => plan.status == Active && s.loaded[job.pid] == plan.destination
       case Verify => plan.status in {Copied, Verified}
  }

  ghost predicate CheckedUpTo(order: seq<Table>, disk: Disk, a: Payload, b: Payload, n: nat) {
    n <= |order| && forall j | 0 <= j < n :: RowsOf(disk, a, order[j]) == RowsOf(disk, b, order[j])
  }

  ghost predicate OpInv(s: State) {
    match s.op
    case Idle => true
    case Pointing(_, id) => id in s.plans
    case Engaging(job) => JobInv(s, job, false) && !job.purpose.Verify?
    case Draining(job) => JobInv(s, job, false) && !job.purpose.Verify? && s.fence == Some(job.id)
    case Starting(job) => JobInv(s, job, false) && job.purpose.Migrate? && Calm(s, job.id)
    case Resetting(job, left) =>
      JobInv(s, job, true) && !job.purpose.Verify? && Calm(s, job.id) && left <= |s.order|
      && (job.purpose.Migrate? ==> !PlanOf(s, job.id).unbroken)
    case CopyingTables(job, next, done) =>
      JobInv(s, job, true) && !job.purpose.Verify? && Calm(s, job.id) && next <= |s.order|
      && (PlanOf(s, job.id).unbroken && job.purpose.Migrate? ==>
            done == PlanOf(s, job.id).tables && next <= |done|)
    case Checking(job, next, _) =>
      JobInv(s, job, true) && !job.purpose.Migrate? && Calm(s, job.id)
      && CheckedUpTo(s.order, s.databases, From(s, job), To(s, job), next)
    case Failing(job) =>
      job.id in s.plans && s.fence == Some(job.id)
      && PlanOf(s, job.id).status in {Planned, Copying, Copied, Failed}
    case Releasing(_, id) =>
      id in s.plans && PlanOf(s, id).status in {Planned, Copying, Copied, Failed, Active, RolledBack}
    case Configuring(pid, id, payload) =>
      var plan := PlanOf(s, id);
      && id in s.plans && s.fence == Some(id)
      && ((plan.status == ActivationPendingRestart && payload == plan.destination)
          || (plan.status == RollbackPendingRestart && payload == plan.source))
    case Cancelling(_, id) =>
      id in s.plans && PlanOf(s, id).status in {Planned, Failed}
    case RecordingCancel(_, id) =>
      id in s.plans && PlanOf(s, id).status in {Planned, Failed} && s.fence != Some(id)
    case Unpointing(_, id) => id in s.plans
  }

  ghost predicate Inv(s: State) {
    && Distinct(s.order)
    && s.running <= s.loaded.Keys
    && (s.queues.paused ==> s.fence.Some?)
    && (s.current.Some? ==> s.current.value in s.plans)
    && NothingLost(s)
    && PlansInv(s)
    && FenceInv(s)
    && OpInv(s)
  }

  ghost predicate Init(s: State) {
    && Distinct(s.order)
    && s.plans == map[] && s.current == None && s.fence == None
    && s.running == {} && !s.queues.paused && s.op == Idle
    && Synced(s) && NothingLost(s)
  }

  lemma InitKeepsInv(s: State)
    requires Init(s)
    ensures Inv(s)
  {
  }

  /** What operators must see to, and the code does not check: every process is
      restarted before a cutover is finalized, and when a verification starts, no
      mutation or job from before the fence is still running or may yet start. */
  ghost predicate Careful(s: State, step: Step) {
    match step
    case FinalizeActivation(_, id) => PlanOf(s, id).status == ActivationPendingRestart ==> Synced(s)
    case FinalizeRollback(_, id) => PlanOf(s, id).status == RollbackPendingRestart ==> Synced(s)
    case BeginVerify(_, _) => NobodyLeft(s)
    case _ => true
  }

  ghost predicate CarefulRun(s: State, steps: seq<Step>)
    decreases |steps|
  {
    steps == [] || (Careful(s, steps[0]) && CarefulRun(Next(s, steps[0]), steps[1..]))
  }

  // ---------------------------------------------------------------------
  // Application writes

  lemma ReplayAppend(writes: seq<Write>, w: Write)
    ensures Replay(writes + [w]) == Replay(writes)[w.table := w.rows]
  {
    assert (writes + [w])[..|writes|] == writes;
  }

  lemma WriteKeepsInv(s: State, p: Process, w: Write)
    requires Inv(s) && p in s.loaded && (s.fence.None? || p in s.running)
    ensures Inv(ApplyWrite(s, p, w))
  {
    assert s.loaded[p] == s.file;
    WriteLosesNothing(s, p, w);
    WriteKeepsPlans(s, p, w);
    var s' := ApplyWrite(s, p, w);
    assert FenceInv(s');
    assert OpInv(s');
  }

  lemma WriteLosesNothing(s: State, p: Process, w: Write)
    requires NothingLost(s) && p in s.loaded && s.loaded[p] == s.file
    ensures NothingLost(ApplyWrite(s, p, w))
  {
    ReplayAppend(s.committed, w);
  }

  /** A write beside the fence disturbs no plan: none is calm. */
  lemma WriteKeepsPlans(s: State, p: Process, w: Write)
    requires PlansInv(s) && p in s.loaded && (s.fence.None? || p in s.running)
    ensures PlansInv(ApplyWrite(s, p, w))
  {
    var t := ApplyWrite(s, p, w);
    forall j | j in t.plans ensures PlanInv(t.order, t.databases, Calm(t, j), t.plans[j]) {
      assert PlanInv(s.order, s.databases, Calm(s, j), s.plans[j]);
    }
  }

  lemma RestartKeepsInv(s: State, p: Process)
    requires Inv(s)
    ensures Inv(RestartStep(s, p))
  {
    var s' := RestartStep(s, p);
    assert Synced(s) ==> Synced(s');
    assert FenceInv(s');
    assert PlansInv(s');
    assert OpInv(s');
  }

  lemma MutationBeginKeepsInv(s: State, p: Process)
    requires Inv(s)
    ensures Inv(MutationBeginStep(s, p))
  {
    var s' := MutationBeginStep(s, p);
    assert FenceInv(s');
    assert OpInv(s');
  }

  lemma JobLookKeepsInv(s: State)
    requires Inv(s)
    ensures Inv(JobLookStep(s))
  {
    if s.fence.None? {
      var s' := JobLookStep(s);
      forall id | id in s'.plans ensures PlanInv(s'.order, s'.databases, Calm(s', id), s'.plans[id]) {
        assert PlanInv(s.order, s.databases, Calm(s, id), s.plans[id]);
      }
      assert OpInv(s');
    }
  }

  /** A job pushed behind the fence cannot start: the queues are paused, or nobody
      was left to push it. */
  lemma JobPushKeepsInv(s: State)
    requires Inv(s)
    ensures Inv(JobPushStep(s))
  {
    var s' := JobPushStep(s);
    assert forall id | Calm(s, id) :: Calm(s', id);
    forall id | id in s'.plans ensures PlanInv(s'.order, s'.databases, Calm(s', id), s'.plans[id]) {
      assert PlanInv(s.order, s.databases, Calm(s, id), s.plans[id]);
    }
    PushedOps(s);
  }

  lemma PushedOps(s: State)
    requires OpInv(s)
    ensures OpInv(JobPushStep(s))
  {
  }

  lemma JobBeginKeepsInv(s: State, p: Process)
    requires Inv(s)
    ensures Inv(JobBeginStep(s, p))
  {
    var s' := JobBeginStep(s, p);
    assert PlansInv(s');
    assert OpInv(s');
  }

  lemma JobRetriedKeepsInv(s: State, p: Process)
    requires Inv(s)
    ensures Inv(JobRetriedStep(s, p))
  {
    var s' := JobRetriedStep(s, p);
    assert PlansInv(s');
    assert OpInv(s');
  }

  lemma ResumeKeepsInv(s: State)
    requires Inv(s)
    ensures Inv(ResumeQueuesStep(s))
  {
    var s' := ResumeQueuesStep(s);
    if s' != s {
      ResumedPlans(s);
      assert s'.op == s.op && s'.plans.Keys == s.plans.Keys;
      ResumedFence(s);
    }
  }

  lemma ResumedFence(s: State)
    requires FenceInv(s) && OpInv(s)
    ensures FenceInv(ResumeQueuesStep(s)) && OpInv(ResumeQueuesStep(s))
  {
  }

  lemma ResumedPlans(s: State)
    requires PlansInv(s) && OpInv(s)
    ensures PlansInv(ResumeQueuesStep(s))
  {
    var t := ResumeQueuesStep(s);
    forall j | j in t.plans ensures PlanInv(t.order, t.databases, Calm(t, j), t.plans[j]) {
      assert PlanInv(s.order, s.databases, Calm(s, j), s.plans[j]);
    }
  }

  lemma MutationEndKeepsInv(s: State, p: Process)
    requires Inv(s)
    ensures Inv(s.(running := s.running - {p}))
  {
    var s' := s.(running := s.running - {p});
    assert FenceInv(s');
    assert OpInv(s');
  }

  // ---------------------------------------------------------------------
  // Commands

  lemma PlanFileKeepsInv(s: State, p: Process, id: PlanId, destination: Payload)
    requires Inv(s)
    ensures Inv(PlanFileStep(s, p, id, destination))
  {
    var s' := PlanFileStep(s, p, id, destination);
    assert FenceInv(s');
    assert PlansInv(s');
  }

  lemma BeginKeepsInv(s: State, step: Step)
    requires Inv(s) && Careful(s, step)
    requires step.BeginMigrate? || step.BeginVerify? || step.BeginCancel? || step.BeginRollback?
    ensures Inv(Next(s, step))
  {
  }

  lemma BeginActivateKeepsInv(s: State, p: Process, id: PlanId)
    requires Inv(s)
    ensures Inv(BeginActivateStep(s, p, id))
  {
    var s' := BeginActivateStep(s, p, id);
    if s' != s {
      assert PlansInv(s');
      assert FenceInv(s');
    }
  }

  lemma FinalizeActivationKeepsInv(s: State, p: Process, id: PlanId)
    requires Inv(s) && Careful(s, FinalizeActivation(p, id))
    ensures Inv(FinalizeActivationStep(s, p, id))
  {
    var s' := FinalizeActivationStep(s, p, id);
    if s' != s {
      assert PlansInv(s');
      assert FenceInv(s');
    }
  }

  lemma FinalizeRollbackKeepsInv(s: State, p: Process, id: PlanId)
    requires Inv(s) && Careful(s, FinalizeRollback(p, id))
    ensures Inv(FinalizeRollbackStep(s, p, id))
  {
    var s' := FinalizeRollbackStep(s, p, id);
    if s' != s {
      assert PlansInv(s');
      assert FenceInv(s');
    }
  }

  // ---------------------------------------------------------------------
  // Engaging, copying and checking

  lemma EngageKeepsInv(s: State)
    requires Inv(s)
    ensures Inv(EngageStep(s))
  {
    var s' := EngageStep(s);
    assert PlansInv(s');
    assert FenceInv(s');
  }

  lemma StartCopyKeepsInv(s: State)
    requires Inv(s)
    ensures Inv(StartCopyStep(s))
  {
    var s' := StartCopyStep(s);
    if s' != s {
      assert PlansInv(s');
      assert FenceInv(s');
      assert OpInv(s');
    }
  }

  lemma CopyPutPlans(s: State, job: Job, t: Table, rows: Rows)
    requires PlansInv(s) && s.fence == Some(job.id) && job.id in s.plans
    requires PlanOf(s, job.id).status in {Copying, Active}
    requires PlanOf(s, job.id).unbroken && job.purpose.Migrate? ==> t !in PlanOf(s, job.id).tables
    requires job.purpose.Migrate? ==> PlanOf(s, job.id).status == Copying
    requires job.purpose.Rollback? ==> PlanOf(s, job.id).status == Active
    requires !job.purpose.Verify?
    ensures PlansInv(PutRows(s, To(s, job), Write(t, rows)))
  {
    var s' := PutRows(s, To(s, job), Write(t, rows));
    forall j | j in s'.plans ensures PlanInv(s'.order, s'.databases, Calm(s', j), s'.plans[j]) {
      assert PlanInv(s.order, s.databases, Calm(s, j), s.plans[j]);
    }
  }

  /** Rows written to a database the configuration does not name, under a plan
      that is neither guarded nor unbroken, disturb nothing. */
  lemma CopyPutKeepsInv(s: State, job: Job, t: Table, rows: Rows)
    requires Inv(s) && s.fence == Some(job.id) && job.id in s.plans
    requires PlanOf(s, job.id).status in {Copying, Active}
    requires !job.purpose.Verify? && JobInv(s, job, true)
    requires PlanOf(s, job.id).unbroken && job.purpose.Migrate? ==> t !in PlanOf(s, job.id).tables
    requires !s.op.Checking?
    ensures Inv(PutRows(s, To(s, job), Write(t, rows)))
  {
    var s' := PutRows(s, To(s, job), Write(t, rows));
    assert s.file == From(s, job) && s.file != To(s, job);
    assert NothingLost(s');
    CopyPutPlans(s, job, t, rows);
    assert OpInv(s');
  }

  lemma ResetKeepsInv(s: State)
    requires Inv(s)
    ensures Inv(ResetTableStep(s))
  {
    if s.op.Resetting? && 0 < s.op.left <= |s.order| {
      CopyPutKeepsInv(s, s.op.job, s.order[s.op.left - 1], []);
    }
  }

  lemma ResetDoneKeepsInv(s: State)
    requires Inv(s)
    ensures Inv(ResetDoneStep(s))
  {
  }

  lemma CopyWriteKeepsInv(s: State, rows: Rows)
    requires Inv(s)
    ensures Inv(CopyWriteStep(s, rows))
  {
    if s.op.CopyingTables? && s.op.next < |s.order| && s.order[s.op.next] !in s.op.done {
      CopyPutKeepsInv(s, s.op.job, s.order[s.op.next], rows);
    }
  }

  /** Recording the next table extends the recorded prefix by one. */
  lemma RecordExtendsPrefix(order: seq<Table>, disk: Disk, plan: Plan, next: nat, rows: Rows)
    requires Distinct(order) && RecordedPrefix(order, disk, plan)
    requires next < |order| && next <= |plan.tables| && order[next] !in plan.tables
    requires rows == RowsOf(disk, plan.source, order[next]) == RowsOf(disk, plan.destination, order[next])
    ensures next == |plan.tables|
    ensures RecordedPrefix(order, disk, plan.(tables := plan.tables[order[next] := rows]))
  {
    var n := |plan.tables|;
    assert next == n;
    assert order[..n + 1] == order[..n] + [order[n]];
    assert |plan.tables[order[n] := rows]| == n + 1;
  }

  lemma SkipKeepsInv(s: State)
    requires Inv(s)
    requires s.op.CopyingTables? && s.op.next < |s.order| && s.order[s.op.next] in s.op.done
    ensures Inv(CopyRecordStep(s))
  {
    var plan := PlanOf(s, s.op.job.id);
    if plan.unbroken && s.op.job.purpose.Migrate? {
      assert s.order[s.op.next] in s.order[..|plan.tables|];
    }
  }

  lemma CopyRecordKeepsInv(s: State)
    requires Inv(s)
    ensures Inv(CopyRecordStep(s))
  {
    var s' := CopyRecordStep(s);
    if s.op.CopyingTables? && s.op.next < |s.order| && s.order[s.op.next] in s.op.done {
      SkipKeepsInv(s);
    } else if s' != s {
      RecordedPlans(s);
      assert FenceInv(s');
      assert OpInv(s');
    }
  }

  /** A table is recorded in its plan. */
  lemma RecordedPlans(s: State)
    requires Distinct(s.order) && PlansInv(s) && OpInv(s) && CopyRecordStep(s) != s
    requires s.op.CopyingTables? && s.op.next < |s.order| && s.order[s.op.next] !in s.op.done
    ensures PlansInv(CopyRecordStep(s))
    ensures var t := CopyRecordStep(s);
            PlanOf(t, s.op.job.id).unbroken && s.op.job.purpose.Migrate? ==> t.op.next <= |t.op.done|
  {
    var t := CopyRecordStep(s);
    var plan := PlanOf(s, s.op.job.id);
    assert PlanInv(s.order, s.databases, Calm(s, s.op.job.id), plan);
    if plan.unbroken && s.op.job.purpose.Migrate? {
      var rows := RowsOf(s.databases, plan.source, s.order[s.op.next]);
      RecordExtendsPrefix(s.order, s.databases, plan, s.op.next, rows);
    }
    forall id | id in t.plans ensures PlanInv(t.order, t.databases, Calm(t, id), t.plans[id]) {
      assert PlanInv(s.order, s.databases, Calm(s, id), s.plans[id]);
    }
  }

  lemma CopyFinishKeepsInv(s: State)
    requires Inv(s)
    ensures Inv(CopyFinishStep(s))
  {
    var s' := CopyFinishStep(s);
    if s' != s {
      forall id | id in s'.plans ensures PlanInv(s'.order, s'.databases, Calm(s', id), s'.plans[id]) {
        assert PlanInv(s.order, s.databases, Calm(s, id), s.plans[id]);
      }
      assert OpInv(s');
    }
  }

  lemma CheckTableKeepsInv(s: State)
    requires Inv(s)
    ensures Inv(CheckTableStep(s))
  {
  }

  lemma CheckFinishKeepsInv(s: State)
    requires Inv(s)
    ensures Inv(CheckFinishStep(s))
  {
    var s' := CheckFinishStep(s);
    if s' != s {
      var plan := PlanOf(s, s.op.job.id);
      assert Same(s.order, s.databases, plan.source, plan.destination);
      assert PlansInv(s');
      assert FenceInv(s');
    }
  }

  // ---------------------------------------------------------------------
  // Failure, release and the configuration file

  lemma DrainKeepsInv(s: State)
    requires Inv(s)
    ensures Inv(PauseQueuesStep(s)) && Inv(DrainDoneStep(s)) && Inv(DrainFailStep(s))
  {
  }

  lemma ThrowKeepsInv(s: State)
    requires Inv(s)
    ensures Inv(ThrowStep(s))
  {
    if InsideTry(s.op) {
      var job := s.op.job;
      var s' := ThrowStep(s);
      assert job.id in s.plans && s.fence == Some(job.id);
      assert OpInv(s') by {
        if job.purpose.Migrate? {
          assert PlanOf(s, job.id).status in {Planned, Copying, Copied, Failed};
        }
      }
    }
  }

  lemma FailSkipKeepsInv(s: State)
    requires Inv(s)
    ensures Inv(FailSkipStep(s))
  {
  }

  lemma FailRecordKeepsInv(s: State)
    requires Inv(s)
    ensures Inv(FailRecordStep(s))
  {
    var s' := FailRecordStep(s);
    if s' != s {
      assert PlansInv(s');
      assert FenceInv(s');
    }
  }

  lemma UnfenceKeepsInv(s: State, id: PlanId, op: Operation)
    requires Inv(s) && id in s.plans
    requires PlanOf(s, id).status in {Planned, Copying, Copied, Failed, Active, RolledBack}
    requires op == Idle || (op.RecordingCancel? && op.id == id && PlanOf(s, id).status in {Planned, Failed})
    ensures Inv(Unfence(s, id).(op := op))
  {
    var s' := Unfence(s, id).(op := op);
    UnfencePlans(s, id);
    assert PlansInv(s');
    assert FenceInv(s');
  }

  lemma UnfencePlans(s: State, id: PlanId)
    requires PlansInv(s) && id in s.plans
    requires PlanOf(s, id).status in {Planned, Copying, Copied, Failed, Active, RolledBack}
    ensures PlansInv(Unfence(s, id))
  {
    var t := Unfence(s, id);
    forall j | j in t.plans ensures PlanInv(t.order, t.databases, Calm(t, j), t.plans[j]) {
      assert PlanInv(s.order, s.databases, Calm(s, j), s.plans[j]);
    }
  }

  lemma CancelledPlans(s: State, id: PlanId)
    requires PlansInv(s) && id in s.plans && s.plans[id].status in {Planned, Failed}
    ensures PlansInv(WithStatus(s, id, Cancelled))
  {
    var t := WithStatus(s, id, Cancelled);
    forall j | j in t.plans ensures PlanInv(t.order, t.databases, Calm(t, j), t.plans[j]) {
      assert PlanInv(s.order, s.databases, Calm(s, j), s.plans[j]);
    }
  }

  lemma CancelRecordKeepsInv(s: State)
    requires Inv(s)
    ensures Inv(CancelRecordStep(s))
  {
    if s.op.RecordingCancel? {
      var id := s.op.id;
      CancelledPlans(s, id);
      var s' := CancelRecordStep(s);
      assert s'.plans == s.plans[id := PlanOf(s, id).(status := Cancelled)];
      assert PlansInv(s');
      assert FenceInv(s');
    }
  }

  lemma WriteConfigurationKeepsInv(s: State)
    requires Inv(s)
    ensures Inv(WriteConfigurationStep(s))
  {
    var s' := WriteConfigurationStep(s);
    if s.op.Configuring? {
      var plan := PlanOf(s, s.op.id);
      assert Same(s.order, s.databases, plan.source, plan.destination);
      assert FenceInv(s');
    }
  }

  // ---------------------------------------------------------------------
  // Every run

  lemma PointerKeepsInv(s: State)
    requires Inv(s)
    ensures Inv(Done(s)) && Inv(PlanPointerStep(s)) && Inv(CancelUnpointStep(s))
  {
  }

  predicate ByProcess(step: Step) {
    step.Restart? || step.Crash? || step.AppWrite? || step.MutationBegin? || step.MutationWrite? || step.MutationEnd?
    || step.JobLook? || step.JobPush? || step.JobBegin? || step.JobRetried?
  }

  lemma ProcessStepKeepsInv(s: State, step: Step)
    requires Inv(s) && ByProcess(step)
    ensures Inv(Next(s, step))
  {
    match step {
      case Restart(p) => RestartKeepsInv(s, p);
      case Crash => PointerKeepsInv(s);
      case AppWrite(p, w) => if p in s.loaded && s.fence.None? { WriteKeepsInv(s, p, w); }
      case MutationBegin(p) => MutationBeginKeepsInv(s, p);
      case MutationWrite(p, w) => if p in s.loaded && p in s.running { WriteKeepsInv(s, p, w); }
      case MutationEnd(p) => MutationEndKeepsInv(s, p);
      case JobLook => JobLookKeepsInv(s);
      case JobPush => JobPushKeepsInv(s);
      case JobBegin(p) => JobBeginKeepsInv(s, p);
      case JobRetried(p) => JobRetriedKeepsInv(s, p);
    }
  }

  predicate ByCommand(step: Step) {
    step.PlanFile? || step.BeginMigrate? || step.BeginVerify? || step.BeginActivate? || step.FinalizeActivation?
    || step.BeginRollback? || step.FinalizeRollback? || step.BeginCancel?
  }

  lemma CommandStepKeepsInv(s: State, step: Step)
    requires Inv(s) && Careful(s, step) && ByCommand(step)
    ensures Inv(Next(s, step))
  {
    match step {
      case PlanFile(p, id, destination) => PlanFileKeepsInv(s, p, id, destination);
      case BeginActivate(p, id) => BeginActivateKeepsInv(s, p, id);
      case FinalizeActivation(p, id) => FinalizeActivationKeepsInv(s, p, id);
      case FinalizeRollback(p, id) => FinalizeRollbackKeepsInv(s, p, id);
      case BeginMigrate(_, _) => BeginKeepsInv(s, step);
      case BeginVerify(_, _) => BeginKeepsInv(s, step);
      case BeginRollback(_, _) => BeginKeepsInv(s, step);
      case BeginCancel(_, _) => BeginKeepsInv(s, step);
    }
  }

  /** Up to the first table. */
  predicate ByStart(step: Step) {
    step.Engage? || step.PauseQueues? || step.DrainDone? || step.DrainFail? || step.StartCopy? || step.ResetTable?
    || step.ResetDone?
  }

  lemma DrainStepKeepsInv(s: State, step: Step)
    requires Inv(s) && (step.PauseQueues? || step.DrainDone? || step.DrainFail?)
    ensures Inv(Next(s, step))
  {
    DrainKeepsInv(s);
  }

  lemma StartStepKeepsInv(s: State, step: Step)
    requires Inv(s) && ByStart(step)
    ensures Inv(Next(s, step))
  {
    match step {
      case Engage => EngageKeepsInv(s);
      case PauseQueues => DrainStepKeepsInv(s, step);
      case DrainDone => DrainStepKeepsInv(s, step);
      case DrainFail => DrainStepKeepsInv(s, step);
      case StartCopy => StartCopyKeepsInv(s);
      case ResetTable => ResetKeepsInv(s);
      case ResetDone => ResetDoneKeepsInv(s);
    }
  }

  predicate ByCopy(step: Step) {
    step.CopyWrite? || step.CopyRecord? || step.CopyFinish? || step.CheckTable? || step.CheckFinish?
  }

  lemma CopyStepKeepsInv(s: State, step: Step)
    requires Inv(s) && ByCopy(step)
    ensures Inv(Next(s, step))
  {
    match step {
      case CopyWrite(rows) =>
        assert Next(s, step) == CopyWriteStep(s, rows);
        CopyWriteKeepsInv(s, rows);
      case CopyRecord =>
        assert Next(s, step) == CopyRecordStep(s);
        CopyRecordKeepsInv(s);
      case CopyFinish =>
        assert Next(s, step) == CopyFinishStep(s);
        CopyFinishKeepsInv(s);
      case CheckTable =>
        assert Next(s, step) == CheckTableStep(s);
        CheckTableKeepsInv(s);
      case CheckFinish =>
        assert Next(s, step) == CheckFinishStep(s);
        CheckFinishKeepsInv(s);
    }
  }

  lemma EndingStepKeepsInv(s: State, step: Step)
    requires Inv(s) && !ByProcess(step) && !ByCommand(step) && !ByStart(step) && !ByCopy(step)
    ensures Inv(Next(s, step))
  {
    match step {
      case Throw => ThrowKeepsInv(s);
      case FailSkip => FailSkipKeepsInv(s);
      case FailRecord => FailRecordKeepsInv(s);
      case ResumeQueues => ResumeKeepsInv(s);
      case Release => if s.op.Releasing? { UnfenceKeepsInv(s, s.op.id, Idle); }
      case WriteConfiguration => WriteConfigurationKeepsInv(s);
      case CancelRelease =>
        if s.op.Cancelling? && s.fence.Some? && s.fence != Some(s.op.id) {
          PointerKeepsInv(s);
        } else if s.op.Cancelling? {
          UnfenceKeepsInv(s, s.op.id, RecordingCancel(s.op.pid, s.op.id));
        }
      case CancelRecord => CancelRecordKeepsInv(s);
      case PlanPointer => PointerKeepsInv(s);
      case CancelUnpoint => PointerKeepsInv(s);
    }
  }

  /** Every step keeps the invariant. */
  lemma StepKeepsInv(s: State, step: Step)
    requires Inv(s) && Careful(s, step)
    ensures Inv(Next(s, step))
  {
    if ByProcess(step) { ProcessStepKeepsInv(s, step); }
    else if ByCommand(step) { CommandStepKeepsInv(s, step); }
    else if ByStart(step) { StartStepKeepsInv(s, step); }
    else if ByCopy(step) { CopyStepKeepsInv(s, step); }
    else { EndingStepKeepsInv(s, step); }
  }

  lemma {:induction false} RunKeepsInv(s: State, steps: seq<Step>)
    requires Inv(s) && CarefulRun(s, steps)
    ensures Inv(Run(s, steps))
    decreases |steps|
  {
    if steps != [] {
      StepKeepsInv(s, steps[0]);
      RunKeepsInv(Next(s, steps[0]), steps[1..]);
    }
  }
}
