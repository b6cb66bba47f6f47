/**
  Who owns the fence, and what a copy under one uninterrupted fence is worth, in
  every run, whatever the habits of the operators: an invariant of its own, weaker
  than that of careful runs, which says nothing of what the processes have loaded
  and of what a guarded plan's databases hold.
*/
module MigrationOwnership {
  import opened Base
  import opened MigrationProtocol
  import opened MigrationSafety

  // ---------------------------------------------------------------------
  // The invariant

  ghost predicate HeldPlan(order: seq<Table>, disk: Disk, calm: bool, plan: Plan) {
    && plan.source != plan.destination
    && (plan.status == Planned ==> plan.tables == map[])
    && (plan.unbroken ==> calm && UnbrokenInv(order, disk, plan))
  }

  ghost predicate HeldPlans(s: State) {
    forall id | id in s.plans :: HeldPlan(s.order, s.databases, Calm(s, id), s.plans[id])
  }

  /** Guarded plans hold the fence. */
  predicate GuardedHold(s: State) {
    forall id | id in s.plans && Guarded(s.plans[id].status) :: s.fence == Some(id)
  }

  predicate HeldFence(s: State) {
    s.fence.Some? ==> s.fence.value in s.plans && s.plans[s.fence.value].status != Cancelled
  }

  predicate HeldJob(s: State, job: Job, started: bool) {
    var status := PlanOf(s, job.id).status;
    && job.id in s.plans
    && match job.purpose
       case Migrate(from) => Migratable(from) && status == (if started then Copying else from)
       case Rollback => status == Active
       case Verify => started && status in {Copied, Verified}
  }

  /** The status a command found is still there, and from the drain on so is the
      fence. */
  ghost predicate HeldOp(s: State) {
    match s.op
    case Idle => true
    case Pointing(_, id) => true
    case Engaging(job) => HeldJob(s, job, false)
    case Draining(job) => HeldJob(s, job, false) && s.fence == Some(job.id)
    case Starting(job) => HeldJob(s, job, false) && Calm(s, job.id)
    case Resetting(job, left) =>
      HeldJob(s, job, true) && !job.purpose.Verify? && Calm(s, job.id)
      && (job.purpose.Migrate? ==> !PlanOf(s, job.id).unbroken)
    case CopyingTables(job, next, done) =>
      HeldJob(s, job, true) && !job.purpose.Verify? && Calm(s, job.id)
      && (PlanOf(s, job.id).unbroken && job.purpose.Migrate? ==>
            done == PlanOf(s, job.id).tables && next <= |done|)
    case Checking(job, _, _) => HeldJob(s, job, true) && !job.purpose.Migrate? && s.fence == Some(job.id)
    case Failing(job) => job.id in s.plans && s.fence == Some(job.id) && Migratable(PlanOf(s, job.id).status)
    case Releasing(_, id) => id in s.plans && !Guarded(PlanOf(s, id).status)
    case Configuring(_, id, _) =>
      id in s.plans && s.fence == Some(id)
      && PlanOf(s, id).status in {ActivationPendingRestart, RollbackPendingRestart}
    case Cancelling(_, id) => id in s.plans && PlanOf(s, id).status in {Planned, Failed}
    case RecordingCancel(_, id) => id in s.plans && PlanOf(s, id).status in {Planned, Failed} && s.fence != Some(id)
    case Unpointing(_, id) => true
  }

  ghost predicate Held(s: State) {
    && Distinct(s.order)
    && (s.queues.paused ==> s.fence.Some?)
    && HeldFence(s) && GuardedHold(s) && HeldPlans(s) && HeldOp(s)
  }

  lemma InitIsHeld(s: State)
    requires Init(s)
    ensures Held(s)
  {
  }

  // ---------------------------------------------------------------------
  // Every step keeps it

  /** Plans and databases stay, and whoever was calm still is. */
  ghost predicate SameHold(s: State, t: State) {
    && t.order == s.order && t.plans == s.plans && t.fence == s.fence && t.databases == s.databases
    && forall id | Calm(s, id) :: Calm(t, id)
  }

  lemma SameHoldKeepsPlans(s: State, t: State)
    requires HeldPlans(s) && GuardedHold(s) && SameHold(s, t)
    ensures HeldPlans(t) && GuardedHold(t)
  {
    forall id | id in t.plans ensures HeldPlan(t.order, t.databases, Calm(t, id), t.plans[id]) {
      assert HeldPlan(s.order, s.databases, Calm(s, id), s.plans[id]);
    }
  }

  /** Nothing but one plan changes, and no other plan is calm or guarded. */
  lemma OnePlanKeepsPlans(s: State, t: State, j: PlanId)
    requires HeldPlans(s) && GuardedHold(s)
    requires t.order == s.order && t.databases == s.databases
    requires j in t.plans && t.plans == s.plans[j := t.plans[j]]
    requires HeldPlan(t.order, t.databases, Calm(t, j), t.plans[j])
    requires Guarded(t.plans[j].status) ==> t.fence == Some(j)
    requires t.fence == s.fence || s.fence == Some(j)
    requires forall id | Calm(s, id) && id != j :: Calm(t, id)
    ensures HeldPlans(t) && GuardedHold(t)
  {
    forall id | id in t.plans ensures HeldPlan(t.order, t.databases, Calm(t, id), t.plans[id]) {
      assert id != j ==> HeldPlan(s.order, s.databases, Calm(s, id), s.plans[id]);
    }
  }

  /** A process can only write while no plan is calm. */
  lemma WriteKeepsHeld(s: State, p: Process, w: Write)
    requires Held(s) && p in s.loaded && (s.fence.None? || p in s.running)
    ensures Held(ApplyWrite(s, p, w))
  {
    var t := ApplyWrite(s, p, w);
    forall id | id in t.plans ensures HeldPlan(t.order, t.databases, Calm(t, id), t.plans[id]) {
      assert HeldPlan(s.order, s.databases, Calm(s, id), s.plans[id]);
    }
  }

  lemma ProcessKeepsHeld(s: State, step: Step)
    requires Held(s) && ByProcess(step)
    ensures Held(Next(s, step))
  {
    match step {
      case AppWrite(p, w) => if p in s.loaded && s.fence.None? { WriteKeepsHeld(s, p, w); }
      case MutationWrite(p, w) => if p in s.loaded && p in s.running { WriteKeepsHeld(s, p, w); }
      case _ =>
        ProcessKeepsHold(s, step);
        SameHoldKeepsPlans(s, Next(s, step));
    }
  }

  lemma ProcessKeepsHold(s: State, step: Step)
    requires ByProcess(step) && !step.AppWrite? && !step.MutationWrite?
    ensures var t := Next(s, step);
            SameHold(s, t) && (t.op == s.op || t.op == Idle) && (t.queues.paused ==> s.queues.paused)
  {
  }

  // ---------------------------------------------------------------------
  // Commands

  lemma PlanFileKeepsHeld(s: State, p: Process, id: PlanId, destination: Payload)
    requires Held(s)
    ensures Held(PlanFileStep(s, p, id, destination))
  {
    var t := PlanFileStep(s, p, id, destination);
    if t != s {
      OnePlanKeepsPlans(s, t, id);
    }
  }

  lemma BeginKeepsHeld(s: State, step: Step)
    requires Held(s) && (step.BeginMigrate? || step.BeginVerify? || step.BeginCancel? || step.BeginRollback?)
    ensures Held(Next(s, step))
  {
    var t := Next(s, step);
    assert t == s.(op := t.op);
    SameHoldKeepsPlans(s, t);
  }

  lemma BeginActivateKeepsHeld(s: State, p: Process, id: PlanId)
    requires Held(s)
    ensures Held(BeginActivateStep(s, p, id))
  {
    var t := BeginActivateStep(s, p, id);
    if t != s {
      assert HeldPlan(s.order, s.databases, Calm(s, id), s.plans[id]);
      OnePlanKeepsPlans(s, t, id);
    }
  }

  lemma FinalizeActivationKeepsHeld(s: State, p: Process, id: PlanId)
    requires Held(s)
    ensures Held(FinalizeActivationStep(s, p, id))
  {
    var t := FinalizeActivationStep(s, p, id);
    if t.plans != s.plans {
      assert HeldPlan(s.order, s.databases, Calm(s, id), s.plans[id]);
      OnePlanKeepsPlans(s, t, id);
    } else {
      SameHoldKeepsPlans(s, t);
    }
  }

  lemma FinalizeRollbackKeepsHeld(s: State, p: Process, id: PlanId)
    requires Held(s)
    ensures Held(FinalizeRollbackStep(s, p, id))
  {
    var t := FinalizeRollbackStep(s, p, id);
    if t.plans != s.plans {
      assert HeldPlan(s.order, s.databases, Calm(s, id), s.plans[id]);
      OnePlanKeepsPlans(s, t, id);
    } else {
      SameHoldKeepsPlans(s, t);
    }
  }

  lemma CommandKeepsHeld(s: State, step: Step)
    requires Held(s) && ByCommand(step)
    ensures Held(Next(s, step))
  {
    if step.PlanFile? { PlanFileKeepsHeld(s, step.p, step.id, step.destination); }
    else if step.BeginActivate? { BeginActivateKeepsHeld(s, step.p, step.id); }
    else if step.FinalizeActivation? { FinalizeActivationKeepsHeld(s, step.p, step.id); }
    else if step.FinalizeRollback? { FinalizeRollbackKeepsHeld(s, step.p, step.id); }
    else { BeginKeepsHeld(s, step); }
  }

  // ---------------------------------------------------------------------
  // Engaging, copying and checking

  lemma EngageKeepsHeld(s: State)
    requires Held(s)
    ensures Held(EngageStep(s))
  {
    var t := EngageStep(s);
    forall id | id in t.plans ensures HeldPlan(t.order, t.databases, Calm(t, id), t.plans[id]) {
      assert HeldPlan(s.order, s.databases, Calm(s, id), s.plans[id]);
    }
  }

  lemma DrainKeepsHeld(s: State)
    requires Held(s)
    ensures Held(PauseQueuesStep(s)) && Held(DrainDoneStep(s)) && Held(DrainFailStep(s))
  {
    SameHoldKeepsPlans(s, PauseQueuesStep(s));
    SameHoldKeepsPlans(s, DrainDoneStep(s));
    SameHoldKeepsPlans(s, DrainFailStep(s));
  }

  lemma StartKeepsHeld(s: State)
    requires Held(s)
    ensures Held(StartCopyStep(s))
  {
    var t := StartCopyStep(s);
    if t != s {
      assert HeldPlan(s.order, s.databases, Calm(s, s.op.job.id), s.plans[s.op.job.id]);
      OnePlanKeepsPlans(s, t, s.op.job.id);
    }
  }

  /** Rows put into the database copied to disturb no unbroken copy, if the
      plan's own is past recording them. */
  lemma PutKeepsHeld(s: State, job: Job, t: Table, rows: Rows)
    requires Held(s) && s.fence == Some(job.id) && HeldJob(s, job, true) && !job.purpose.Verify?
    requires PlanOf(s, job.id).unbroken && job.purpose.Migrate? ==> t !in PlanOf(s, job.id).tables
    ensures Held(PutRows(s, To(s, job), Write(t, rows)))
  {
    var u := PutRows(s, To(s, job), Write(t, rows));
    forall id | id in u.plans ensures HeldPlan(u.order, u.databases, Calm(u, id), u.plans[id]) {
      assert HeldPlan(s.order, s.databases, Calm(s, id), s.plans[id]);
    }
  }

  lemma ResetKeepsHeld(s: State, step: Step)
    requires Held(s) && (step.ResetTable? || step.ResetDone?)
    ensures Held(Next(s, step))
  {
    if step.ResetTable? && s.op.Resetting? && 0 < s.op.left <= |s.order| {
      PutKeepsHeld(s, s.op.job, s.order[s.op.left - 1], []);
    }
  }

  lemma CopyWriteKeepsHeld(s: State, rows: Rows)
    requires Held(s)
    ensures Held(CopyWriteStep(s, rows))
  {
    if s.op.CopyingTables? && s.op.next < |s.order| && s.order[s.op.next] !in s.op.done {
      PutKeepsHeld(s, s.op.job, s.order[s.op.next], rows);
    }
  }

  /** The record of an unbroken copy grows by the next table. */
  lemma CopyRecordKeepsHeld(s: State)
    requires Held(s)
    ensures Held(CopyRecordStep(s))
  {
    var t := CopyRecordStep(s);
    if t != s {
      var job := s.op.job;
      assert HeldPlan(s.order, s.databases, Calm(s, job.id), s.plans[job.id]);
      if s.order[s.op.next] in s.op.done {
        SkippedIsRecorded(s);
        SameHoldKeepsPlans(s, t);
      } else if job.purpose.Rollback? {
        SameHoldKeepsPlans(s, t);
      } else {
        RecordedIsHeld(s);
        OnePlanKeepsPlans(s, t, job.id);
      }
    }
  }

  lemma SkippedIsRecorded(s: State)
    requires HeldPlans(s) && HeldOp(s) && Distinct(s.order)
    requires s.op.CopyingTables? && s.op.next < |s.order| && s.order[s.op.next] in s.op.done
    ensures PlanOf(s, s.op.job.id).unbroken && s.op.job.purpose.Migrate? ==> s.op.next < |s.op.done|
  {
    var plan := PlanOf(s, s.op.job.id);
    assert HeldPlan(s.order, s.databases, Calm(s, s.op.job.id), plan);
    if plan.unbroken && s.op.job.purpose.Migrate? {
      assert s.order[s.op.next] in s.order[..|plan.tables|];
    }
  }

  lemma RecordedIsHeld(s: State)
    requires HeldPlans(s) && HeldOp(s) && Distinct(s.order) && CopyRecordStep(s) != s
    requires s.op.job.purpose.Migrate? && s.order[s.op.next] !in s.op.done
    ensures var t := CopyRecordStep(s); var id := s.op.job.id;
            && HeldPlan(t.order, t.databases, Calm(t, id), t.plans[id])
            && (PlanOf(s, id).unbroken ==> t.op.done == t.plans[id].tables && t.op.next <= |t.op.done|)
  {
    var plan := PlanOf(s, s.op.job.id);
    assert HeldPlan(s.order, s.databases, Calm(s, s.op.job.id), plan);
    if plan.unbroken {
      var rows := RowsOf(s.databases, plan.source, s.order[s.op.next]);
      RecordExtendsPrefix(s.order, s.databases, plan, s.op.next, rows);
    }
  }

  lemma CopyFinishKeepsHeld(s: State)
    requires Held(s)
    ensures Held(CopyFinishStep(s))
  {
    var t := CopyFinishStep(s);
    if t != s {
      assert HeldPlan(s.order, s.databases, Calm(s, s.op.job.id), s.plans[s.op.job.id]);
      if s.op.job.purpose.Rollback? {
        SameHoldKeepsPlans(s, t);
      } else {
        OnePlanKeepsPlans(s, t, s.op.job.id);
      }
    }
  }

  lemma CheckKeepsHeld(s: State)
    requires Held(s)
    ensures Held(CheckTableStep(s)) && Held(CheckFinishStep(s))
  {
    SameHoldKeepsPlans(s, CheckTableStep(s));
    var t := CheckFinishStep(s);
    if t != s {
      assert HeldPlan(s.order, s.databases, Calm(s, s.op.job.id), s.plans[s.op.job.id]);
      OnePlanKeepsPlans(s, t, s.op.job.id);
    }
  }

  // ---------------------------------------------------------------------
  // Failure, release and the files

  lemma FailureKeepsHeld(s: State)
    requires Held(s)
    ensures Held(ThrowStep(s)) && Held(FailSkipStep(s))
  {
    SameHoldKeepsPlans(s, ThrowStep(s));
    SameHoldKeepsPlans(s, FailSkipStep(s));
  }

  lemma FailRecordKeepsHeld(s: State)
    requires Held(s)
    ensures Held(FailRecordStep(s))
  {
    var t := FailRecordStep(s);
    if t != s {
      assert HeldPlan(s.order, s.databases, Calm(s, s.op.job.id), s.plans[s.op.job.id]);
      OnePlanKeepsPlans(s, t, s.op.job.id);
    }
  }

  lemma BrokenOffIsHeld(s: State, t: State, id: PlanId)
    requires HeldPlans(s) && GuardedHold(s) && id in s.plans && !Guarded(s.plans[id].status)
    requires t.order == s.order && t.databases == s.databases && t.plans == BrokenOff(s, id)
    requires t.fence == s.fence || s.fence == Some(id)
    requires s.fence != Some(id) ==> s.fence == t.fence && forall j | Calm(s, j) :: Calm(t, j)
    ensures HeldPlans(t) && GuardedHold(t)
  {
    if s.fence == Some(id) {
      assert HeldPlan(s.order, s.databases, Calm(s, id), s.plans[id]);
      OnePlanKeepsPlans(s, t, id);
    } else {
      SameHoldKeepsPlans(s, t);
    }
  }

  lemma ResumeKeepsHeld(s: State)
    requires Held(s)
    ensures Held(ResumeQueuesStep(s))
  {
    var t := ResumeQueuesStep(s);
    if t != s {
      BrokenOffIsHeld(s, t, s.op.id);
    }
  }

  lemma UnfenceKeepsHeld(s: State, step: Step)
    requires Held(s) && (step.Release? || step.CancelRelease?)
    ensures Held(Next(s, step))
  {
    var t := Next(s, step);
    if t != s {
      BrokenOffIsHeld(s, t, s.op.id);
    }
  }

  lemma RecordKeepsHeld(s: State, step: Step)
    requires Held(s) && (step.PlanPointer? || step.WriteConfiguration? || step.CancelUnpoint?)
    ensures Held(Next(s, step))
  {
    SameHoldKeepsPlans(s, Next(s, step));
  }

  lemma CancelRecordKeepsHeld(s: State)
    requires Held(s)
    ensures Held(CancelRecordStep(s))
  {
    var t := CancelRecordStep(s);
    if t != s {
      assert HeldPlan(s.order, s.databases, Calm(s, s.op.id), s.plans[s.op.id]);
      OnePlanKeepsPlans(s, t, s.op.id);
    }
  }

  lemma StepKeepsHeld(s: State, step: Step)
    requires Held(s)
    ensures Held(Next(s, step))
  {
    if ByProcess(step) { ProcessKeepsHeld(s, step); }
    else if ByCommand(step) { CommandKeepsHeld(s, step); }
    else {
      match step {
        case Engage => EngageKeepsHeld(s);
        case PauseQueues => DrainKeepsHeld(s);
        case DrainDone => DrainKeepsHeld(s);
        case DrainFail => DrainKeepsHeld(s);
        case StartCopy => StartKeepsHeld(s);
        case ResetTable => ResetKeepsHeld(s, step);
        case ResetDone => ResetKeepsHeld(s, step);
        case CopyWrite(rows) => CopyWriteKeepsHeld(s, rows);
        case CopyRecord => CopyRecordKeepsHeld(s);
        case CopyFinish => CopyFinishKeepsHeld(s);
        case CheckTable => CheckKeepsHeld(s);
        case CheckFinish => CheckKeepsHeld(s);
        case Throw => FailureKeepsHeld(s);
        case FailRecord => FailRecordKeepsHeld(s);
        case FailSkip => FailureKeepsHeld(s);
        case ResumeQueues => ResumeKeepsHeld(s);
        case Release => UnfenceKeepsHeld(s, step);
        case CancelRelease => UnfenceKeepsHeld(s, step);
        case CancelRecord => CancelRecordKeepsHeld(s);
        case _ => RecordKeepsHeld(s, step);
      }
    }
  }

  lemma {:induction false} RunKeepsHeld(s: State, steps: seq<Step>)
    requires Held(s)
    ensures Held(Run(s, steps))
    decreases |steps|
  {
    if steps != [] {
      StepKeepsHeld(s, steps[0]);
      RunKeepsHeld(Next(s, steps[0]), steps[1..]);
    }
  }

  // ---------------------------------------------------------------------
  // What it promises

  /** A guarded plan is the plan named in the fence file, so there is at most
      one; and as long as it stays guarded no step of any command on any plan
      releases or takes the fence, or resumes the queues. */
  lemma FenceOwnership(s: State, steps: seq<Step>, id: PlanId, other: PlanId, step: Step)
    requires Init(s)
    requires id in Run(s, steps).plans && Guarded(PlanOf(Run(s, steps), id).status)
    ensures var t := Run(s, steps);
            && t.fence == Some(id)
            && (other in t.plans && Guarded(PlanOf(t, other).status) ==> other == id)
            && Next(t, step).fence == t.fence && Next(t, step).queues.paused == t.queues.paused
  {
    InitIsHeld(s);
    RunKeepsHeld(s, steps);
    GuardedFenceStays(Run(s, steps), id, step);
  }

  predicate MovesTheFence(step: Step) {
    step.Engage? || step.PauseQueues? || step.ResumeQueues? || step.Release? || step.CancelRelease?
  }

  lemma FenceMovers(t: State, step: Step)
    requires !MovesTheFence(step)
    ensures Next(t, step).fence == t.fence && Next(t, step).queues.paused == t.queues.paused
  {
  }

  lemma GuardedFenceIsKept(t: State, id: PlanId, step: Step)
    requires HeldOp(t) && id in t.plans && Guarded(t.plans[id].status) && t.fence == Some(id) && MovesTheFence(step)
    ensures Next(t, step).fence == t.fence && Next(t, step).queues == t.queues
  {
  }

  lemma GuardedFenceStays(t: State, id: PlanId, step: Step)
    requires Held(t) && id in t.plans && Guarded(PlanOf(t, id).status)
    ensures Next(t, step).fence == t.fence && Next(t, step).queues.paused == t.queues.paused
  {
    if MovesTheFence(step) {
      GuardedFenceIsKept(t, id, step);
    } else {
      FenceMovers(t, step);
    }
  }

  /** A copy begun from Planned and resumed from Copying under one uninterrupted
      hold of the fence records a prefix of the table order, each table equal,
      and when it finishes every durable table is equal. */
  lemma UnbrokenCopyIsComplete(s: State, steps: seq<Step>, id: PlanId)
    requires Init(s)
    requires id in Run(s, steps).plans && PlanOf(Run(s, steps), id).unbroken
    ensures var t := Run(s, steps); var plan := PlanOf(t, id);
            && (plan.status == Copying ==> RecordedPrefix(t.order, t.databases, plan))
            && (plan.status == Copied ==> Same(t.order, t.databases, plan.source, plan.destination))
            && Calm(t, id)
  {
    InitIsHeld(s);
    RunKeepsHeld(s, steps);
    var t := Run(s, steps);
    assert HeldPlan(t.order, t.databases, Calm(t, id), t.plans[id]);
  }
}
