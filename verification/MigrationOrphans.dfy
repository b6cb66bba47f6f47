/**
  Exactly when a held fence can be given back, in every run, and a run in which it
  never can: a cutover finalized before every process was restarted lets a process
  on the old configuration plan from there, and the file never names a database of
  that plan again.
*/
module MigrationOrphans {
  import opened Base
  import opened MigrationProtocol
  import opened MigrationSafety
  import opened MigrationOwnership
  import opened MigrationGuarantees
  import opened MigrationRecovery

  /** The databases from which the commands that lead on can be given. */
  function Home(plan: Plan): set<Payload> {
    if plan.status in {ActivationPendingRestart, RollbackPendingRestart} then {plan.source, plan.destination}
    else {plan.source}
  }

  /** Between two commands the fence is held for this plan. */
  predicate HeldFor(s: State, id: PlanId) {
    && s.op.Idle? && s.fence == Some(id) && id in s.plans
    && s.plans[id].status != Cancelled && s.plans[id].source != s.plans[id].destination
  }

  predicate Over(status: Status) {
    status in {Active, RolledBack}
  }

  /** The plan is over, or the configuration in the file, or that of some process,
      is one the plan can go on from. */
  predicate Releasable(s: State, id: PlanId)
    requires id in s.plans
  {
    var plan := s.plans[id];
    Over(plan.status) || s.file in Home(plan) || exists p | p in s.loaded :: s.loaded[p] in Home(plan)
  }

  // ---------------------------------------------------------------------
  // If it is releasable, it is released

  ghost predicate Frees(s: State, steps: seq<Step>) {
    UnfailingRun(s, steps) && Run(s, steps).fence.None?
  }

  lemma FreesAfter(s: State, a: seq<Step>, b: seq<Step>)
    requires AllBenign(a) && Frees(Run(s, a), b)
    ensures Frees(s, a + b)
  {
    UnfailingConcat(s, a, b);
    RunConcat(s, a, b);
  }

  lemma ThreeFree(s: State, a: Step, b: Step, c: Step) returns (steps: seq<Step>)
    requires Benign(a) && Benign(b) && Benign(c) && Next(Next(Next(s, a), b), c).fence.None?
    ensures Frees(s, steps)
  {
    steps := [a, b, c];
    RunThree(s, a, b, c);
    BenignIsUnfailing(s, steps);
  }

  lemma TwoFree(s: State, a: Step, b: Step) returns (steps: seq<Step>)
    requires Benign(a) && Benign(b) && Next(Next(s, a), b).fence.None?
    ensures Frees(s, steps)
  {
    steps := [a, b];
    RunTwoSteps(s, a, b);
    BenignIsUnfailing(s, steps);
  }

  /** The file names where the plan is going: any process restarts and finalizes. */
  lemma ActivationFinishes(s: State, id: PlanId) returns (steps: seq<Step>)
    requires HeldFor(s, id) && s.plans[id].status == ActivationPendingRestart && s.file == s.plans[id].destination
    ensures Frees(s, steps)
  {
    steps := ThreeFree(s, Restart(0), FinalizeActivation(0, id), Step.Release);
  }

  lemma RollbackFinishes(s: State, id: PlanId) returns (steps: seq<Step>)
    requires HeldFor(s, id) && s.plans[id].status == RollbackPendingRestart && s.file == s.plans[id].source
    ensures Frees(s, steps)
  {
    steps := ThreeFree(s, Restart(0), FinalizeRollback(0, id), Step.Release);
  }

  lemma OverFrees(s: State, id: PlanId) returns (steps: seq<Step>)
    requires HeldFor(s, id) && Over(s.plans[id].status)
    ensures Frees(s, steps)
  {
    if s.plans[id].status == Active {
      steps := ThreeFree(s, Restart(0), FinalizeActivation(0, id), Step.Release);
    } else {
      steps := ThreeFree(s, Restart(0), FinalizeRollback(0, id), Step.Release);
    }
  }

  lemma ActivateFrees(s: State, p: Process, id: PlanId) returns (steps: seq<Step>)
    requires HeldFor(s, id) && s.plans[id].status in {Verified, ActivationPendingRestart}
    requires HasLoaded(s, p, s.plans[id].source)
    ensures Frees(s, steps)
  {
    var write := ActivateWrites(s, p, id);
    var finish := ActivationFinishes(Run(s, write), id);
    FreesAfter(s, write, finish);
    steps := write + finish;
  }

  lemma RollbackFrees(s: State, p: Process, id: PlanId) returns (steps: seq<Step>)
    requires HeldFor(s, id) && s.plans[id].status == RollbackPendingRestart
    requires HasLoaded(s, p, s.plans[id].destination)
    ensures Frees(s, steps)
  {
    var write := RollbackWrites(s, p, id);
    var finish := RollbackFinishes(Run(s, write), id);
    FreesAfter(s, write, finish);
    steps := write + finish;
  }

  lemma PendingFrees(s: State, p: Process, id: PlanId) returns (steps: seq<Step>)
    requires HeldFor(s, id) && s.plans[id].status in {ActivationPendingRestart, RollbackPendingRestart}
    requires p in s.loaded && s.loaded[p] in Home(s.plans[id])
    ensures Frees(s, steps)
  {
    var plan := s.plans[id];
    if plan.status == ActivationPendingRestart && s.loaded[p] == plan.destination {
      steps := TwoFree(s, FinalizeActivation(p, id), Step.Release);
    } else if plan.status == ActivationPendingRestart {
      steps := ActivateFrees(s, p, id);
    } else if s.loaded[p] == plan.source {
      steps := TwoFree(s, FinalizeRollback(p, id), Step.Release);
    } else {
      steps := RollbackFrees(s, p, id);
    }
  }

  /** A verified plan is what a migration that nothing disturbs arrives at. */
  lemma UntilVerified(s: State, p: Process, id: PlanId) returns (steps: seq<Step>)
    requires CanEngage(s, p, id) && s.running == {} && s.queues.waiting == 0
    ensures AllBenign(steps)
    ensures var t := Run(s, steps);
            && CopyFrame(s.(fence := Some(id), queues := s.queues.(paused := true)), t, id)
            && t.op.Idle? && t.plans[id].status == Verified
    decreases s.plans[id].status == Copying
  {
    var migrate := MigrationRuns(s, p, id);
    var t := Run(s, migrate);
    var rest;
    if s.plans[id].status == Copying {
      rest := UntilVerified(t, p, id);
    } else {
      rest := VerifyAll(p, id, |t.order|);
      VerifyRuns(t, p, id);
      VerifyAllIsBenign(p, id, |t.order|);
    }
    RunConcat(s, migrate, rest);
    steps := migrate + rest;
  }

  lemma VerifyAllIsBenign(p: Process, id: PlanId, n: nat)
    ensures AllBenign(VerifyAll(p, id, n))
  {
    forall step | step in VerifyAll(p, id, n) ensures Benign(step) {
      assert step == BeginVerify(p, id) || step in Repeat(CheckTable, n) || step == CheckFinish;
    }
  }

  lemma QuietCopyFrees(s: State, p: Process, id: PlanId) returns (steps: seq<Step>)
    requires HeldFor(s, id) && CanEngage(s, p, id) && s.running == {}
    requires s.queues.paused || s.queues.waiting == 0
    ensures Frees(s, steps)
  {
    if CannotDrain(s) {
      var engage := EngageForMigration(s, p, id);
      var t := Run(s, engage);
      var giveUp := [DrainFail, Step.Release];
      RunTwoSteps(t, DrainFail, Step.Release);
      BenignIsUnfailing(Next(t, DrainFail), [Step.Release]);
      assert giveUp[1..] == [Step.Release];
      FreesAfter(s, engage, giveUp);
      steps := engage + giveUp;
    } else {
      var verify := UntilVerified(s, p, id);
      var activate := ActivateFrees(Run(s, verify), p, id);
      FreesAfter(s, verify, activate);
      steps := verify + activate;
    }
  }

  /** What runs comes to its end, what can be worked off is, and the copy is taken
      up again. */
  lemma CopyFrees(s: State, p: Process, id: PlanId) returns (steps: seq<Step>)
    requires HeldFor(s, id) && s.plans[id].status in {Copying, Copied} && HasLoaded(s, p, s.plans[id].source)
    ensures Frees(s, steps)
  {
    var end := EndEach(s, s.running);
    var t := Run(s, end);
    assert t.running == {};
    if !t.queues.paused {
      var work := WorkOff(t, p);
      RunConcat(s, end, work);
      end := end + work;
    }
    var copy := QuietCopyFrees(Run(s, end), p, id);
    FreesAfter(s, end, copy);
    steps := end + copy;
  }

  /** A process on a configuration the plan can go on from sees to it. */
  lemma ProcessFrees(s: State, p: Process, id: PlanId) returns (steps: seq<Step>)
    requires HeldFor(s, id) && p in s.loaded && s.loaded[p] in Home(s.plans[id])
    ensures Frees(s, steps)
  {
    match s.plans[id].status {
      case Planned => steps := TwoFree(s, BeginCancel(p, id), CancelRelease);
      case Failed => steps := TwoFree(s, BeginCancel(p, id), CancelRelease);
      case Copying => steps := CopyFrees(s, p, id);
      case Copied => steps := CopyFrees(s, p, id);
      case Verified => steps := ActivateFrees(s, p, id);
      case ActivationPendingRestart => steps := PendingFrees(s, p, id);
      case RollbackPendingRestart => steps := PendingFrees(s, p, id);
      case _ => steps := OverFrees(s, id);
    }
  }

  lemma ReleasableIsReleased(s: State, id: PlanId) returns (steps: seq<Step>)
    requires HeldFor(s, id) && Releasable(s, id)
    ensures Frees(s, steps)
  {
    if Over(s.plans[id].status) {
      steps := OverFrees(s, id);
    } else if p :| p in s.loaded && s.loaded[p] in Home(s.plans[id]) {
      steps := ProcessFrees(s, p, id);
    } else {
      RunOne(s, Restart(0));
      var rest := ProcessFrees(RestartStep(s, 0), 0, id);
      FreesAfter(s, [Restart(0)], rest);
      steps := [Restart(0)] + rest;
    }
  }

  // ---------------------------------------------------------------------
  // If it is not, it never is

  /** A command about another plan, which the fence keeps from doing anything, or a
      verification, which needs no configuration. */
  predicate OpAside(s: State, id: PlanId) {
    match s.op
    case Idle => true
    case Pointing(_, j) => j != id
    case Engaging(job) => job.id != id
    case Releasing(_, j) => j != id
    case Cancelling(_, j) => j != id
    case Checking(job, _, _) => job.id == id && job.purpose.Verify? && PlanOf(s, id).status in {Copied, Verified}
    case _ => false
  }

  /** Neither the file nor any process has a configuration the plan can go on from. */
  ghost predicate Orphaned(s: State, id: PlanId) {
    && s.fence == Some(id) && id in s.plans && !Over(s.plans[id].status) && s.plans[id].status != Cancelled
    && s.file !in Home(s.plans[id]) && (forall p | p in s.loaded :: s.loaded[p] !in Home(s.plans[id]))
    && OpAside(s, id)
  }

  lemma OrphanedByProcess(s: State, id: PlanId, step: Step)
    requires Orphaned(s, id) && ByProcess(step)
    ensures Orphaned(Next(s, step), id)
  {
  }

  lemma OrphanedByCommand(s: State, id: PlanId, step: Step)
    requires Orphaned(s, id) && ByCommand(step)
    ensures Orphaned(Next(s, step), id)
  {
  }

  lemma OrphanedByStart(s: State, id: PlanId, step: Step)
    requires Orphaned(s, id) && ByStart(step)
    ensures Orphaned(Next(s, step), id)
  {
  }

  lemma OrphanedByCopy(s: State, id: PlanId, step: Step)
    requires Orphaned(s, id) && ByCopy(step)
    ensures Orphaned(Next(s, step), id)
  {
  }

  lemma OrphanedByEnding(s: State, id: PlanId, step: Step)
    requires Orphaned(s, id) && !ByProcess(step) && !ByCommand(step) && !ByStart(step) && !ByCopy(step)
    ensures Orphaned(Next(s, step), id)
  {
  }

  /** Then nothing anybody does releases the fence, in any run. */
  lemma {:induction false} OrphanedForever(s: State, id: PlanId, steps: seq<Step>)
    requires Orphaned(s, id)
    ensures Orphaned(Run(s, steps), id)
    decreases |steps|
  {
    if steps != [] {
      var step := steps[0];
      if ByProcess(step) { OrphanedByProcess(s, id, step); }
      else if ByCommand(step) { OrphanedByCommand(s, id, step); }
      else if ByStart(step) { OrphanedByStart(s, id, step); }
      else if ByCopy(step) { OrphanedByCopy(s, id, step); }
      else { OrphanedByEnding(s, id, step); }
      OrphanedForever(Next(s, step), id, steps[1..]);
    }
  }

  /** A held fence can be released by some steps exactly when it is releasable, and
      then by steps of which none fails but a drain that has to. */
  lemma {:induction false} ReleasableExactly(s: State, id: PlanId)
    requires HeldFor(s, id)
    ensures (exists steps :: Run(s, steps).fence.None?) <==> Releasable(s, id)
    ensures (exists steps :: Frees(s, steps)) <==> Releasable(s, id)
  {
    if Releasable(s, id) {
      var steps := ReleasableIsReleased(s, id);
      assert Frees(s, steps);
      assert Run(s, steps).fence.None?;
    } else {
      forall steps ensures Run(s, steps).fence == Some(id) {
        OrphanedForever(s, id, steps);
      }
    }
  }

  // ---------------------------------------------------------------------
  // Every run

  /** Where a run stops, by a crash at the latest, with the fence held. */
  lemma CrashedIsHeld(s: State, steps: seq<Step>)
    requires Init(s) && Run(s, steps).fence.Some?
    ensures var t := Done(Run(s, steps)); HeldFor(t, t.fence.value)
  {
    InitIsHeld(s);
    RunKeepsHeld(s, steps);
    var t := Run(s, steps);
    assert HeldPlan(t.order, t.databases, Calm(t, t.fence.value), t.plans[t.fence.value]);
  }

  /** After every run from the start, crash states included, the fence can be given
      back exactly when it is releasable. */
  lemma FenceIsReleasableExactly(s: State, steps: seq<Step>)
    requires Init(s) && Run(s, steps).fence.Some?
    ensures var t := Done(Run(s, steps)); var id := t.fence.value;
            && id in t.plans
            && ((exists rest :: Run(t, rest).fence.None?) <==> Releasable(t, id))
            && ((exists rest :: Frees(t, rest)) <==> Releasable(t, id))
  {
    CrashedIsHeld(s, steps);
    ReleasableExactly(Done(Run(s, steps)), Run(s, steps).fence.value);
  }

  /** After a careful run it always is: what FenceIsNeverOrphaned says. */
  lemma CarefulIsReleasable(s: State, steps: seq<Step>)
    requires Init(s) && CarefulRun(s, steps) && Run(s, steps).fence.Some?
    ensures var t := Run(s, steps); t.fence.value in t.plans && Releasable(t, t.fence.value)
  {
    RunKeepsInv(s, steps);
  }

  // ---------------------------------------------------------------------
  // One careless finalization

  /** Process 0 has activated plan 7, and process 1 is still on its source. */
  ghost predicate Laggard(s: State) {
    && s.op.Idle? && s.fence.None? && s.order == START.order && s.running == {} && s.queues == NONE
    && s.file == 1 && s.loaded == map[0 := 1, 1 := 0]
    && s.plans.Keys == {7} && s.plans[7].status == Active && s.current == Some(7)
    && s.databases.Keys <= {0, 1}
  }

  lemma FinalizedTooEarly(s: State) returns (steps: seq<Step>)
    requires s.op.Idle? && s.fence == Some(7) && s.order == START.order && s.running == {}
    requires s.queues == PAUSED && s.file == 1 && s.loaded == map[0 := 0, 1 := 0]
    requires s.plans.Keys == {7} && s.plans[7].status == ActivationPendingRestart && s.plans[7].destination == 1
    requires s.current == Some(7) && s.databases.Keys <= {0, 1}
    ensures Laggard(Run(s, steps))
  {
    steps := [Restart(0), FinalizeActivation(0, 7), Step.Release];
    RunThree(s, Restart(0), FinalizeActivation(0, 7), Step.Release);
    assert s.running - {0} == {};
  }

  /** Plan 7 has been made. */
  const MADE := START.(plans := map[7 := PLANNED], current := Some(7))

  lemma SevenIsVerified() returns (steps: seq<Step>)
    ensures var t := Run(MADE, steps);
            && t.op.Idle? && t.fence == Some(7) && t.order == START.order && t.running == {} && t.queues == PAUSED
            && t.file == 0 && t.loaded == START.loaded && t.current == Some(7) && t.databases.Keys <= {0, 1}
            && t.plans.Keys == {7} && t.plans[7].status == Verified
            && t.plans[7].source == 0 && t.plans[7].destination == 1
  {
    steps := UntilVerified(MADE, 0, 7);
    var t := Run(MADE, steps);
    assert forall x :: x in t.databases - {0, 1} <==> x in MADE.databases - {0, 1};
    assert forall j :: j in t.plans - {7} <==> j in MADE.plans - {7};
    assert t.plans.Keys == {7} by {
      assert forall j | j in t.plans && j != 7 :: j in t.plans - {7};
    }
    assert forall x | x in t.databases && x !in {0, 1} :: x in t.databases - {0, 1};
  }

  lemma ActivatedTooEarly() returns (steps: seq<Step>)
    ensures Laggard(Run(START, steps))
  {
    var plan := [PlanFile(0, 7, 1), PlanPointer];
    RunTwoSteps(START, PlanFile(0, 7, 1), PlanPointer);
    assert Run(START, plan) == MADE;
    var verify := SevenIsVerified();
    var late := ActivatedAndFinalized(Run(MADE, verify));
    RunConcat(MADE, verify, late);
    RunConcat(START, plan, verify + late);
    steps := plan + (verify + late);
  }

  lemma ActivatedAndFinalized(s: State) returns (steps: seq<Step>)
    requires s.op.Idle? && s.fence == Some(7) && s.order == START.order && s.running == {} && s.queues == PAUSED
    requires s.file == 0 && s.loaded == START.loaded && s.current == Some(7) && s.databases.Keys <= {0, 1}
    requires s.plans.Keys == {7} && s.plans[7].status == Verified
    requires s.plans[7].source == 0 && s.plans[7].destination == 1
    ensures Laggard(Run(s, steps))
  {
    var write := ActivateWrites(s, 0, 7);
    var t := Run(s, write);
    assert forall j :: j in t.plans - {7} <==> j in s.plans - {7};
    assert forall j | j in t.plans && j != 7 :: j in t.plans - {7};
    var finish := FinalizedTooEarly(t);
    RunConcat(s, write, finish);
    steps := write + finish;
  }

  /** Process 1 plans from the old configuration. */
  lemma LaggardPlans(s: State) returns (steps: seq<Step>)
    requires Laggard(s)
    ensures var plan := Plan(Planned, 0, 2, map[], false);
            Run(s, steps) == s.(plans := s.plans[8 := plan], current := Some(8))
  {
    steps := [PlanFile(1, 8, 2), PlanPointer];
    assert 2 !in s.databases;
    RunTwoSteps(s, PlanFile(1, 8, 2), PlanPointer);
  }

  /** Its activation is cut short between the status and the file, and it restarts. */
  lemma LaggardIsCutShort(s: State) returns (steps: seq<Step>)
    requires s.op.Idle? && s.fence == Some(8) && 8 in s.plans && s.plans[8].status == Verified
    requires s.plans[8].source == 0 && s.plans[8].destination == 2
    requires s.file == 1 && s.loaded == map[0 := 1, 1 := 0]
    ensures var t := Run(s, steps);
            HeldFor(t, 8) && t.plans[8].status == ActivationPendingRestart && !Releasable(t, 8)
  {
    steps := [BeginActivate(1, 8), Crash, Restart(1)];
    RunThree(s, BeginActivate(1, 8), Crash, Restart(1));
  }

  /** From the start: plan 7 is activated and finalized while process 1 still runs
      on its source; process 1 plans, migrates and verifies from there, and dies
      within its activation. The fence is held for ever after. */
  lemma {:induction false} CarelessFinalizationOrphansTheFence() returns (steps: seq<Step>)
    ensures Init(START) && HeldFor(Run(START, steps), 8)
    ensures forall rest :: Run(Run(START, steps), rest).fence == Some(8)
  {
    var activate := ActivatedTooEarly();
    var s := Run(START, activate);
    var plan := LaggardPlans(s);
    var t := Run(s, plan);
    var verify := UntilVerified(t, 1, 8);
    var u := Run(t, verify);
    var cut := LaggardIsCutShort(u);
    RunConcat(t, verify, cut);
    RunConcat(s, plan, verify + cut);
    RunConcat(START, activate, plan + (verify + cut));
    steps := activate + (plan + (verify + cut));
    var orphaned := Run(START, steps);
    forall rest ensures Run(orphaned, rest).fence == Some(8) {
      OrphanedForever(orphaned, 8, rest);
    }
  }
}
