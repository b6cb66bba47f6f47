/**
  Whole cutovers with the fence free at both ends: a plan that can be migrated
  takes the active database from its source to its destination, an active one
  takes it back, and plans are followed one after the other.
*/
module MigrationMoves {
  import opened Base
  import opened MigrationProtocol
  import opened MigrationSafety
  import opened MigrationGuarantees
  import opened MigrationRecovery

  /** Between two operations: nobody holds the fence, no command runs. */
  ghost predicate AtRest(s: State) {
    Inv(s) && s.op.Idle? && s.fence.None?
  }

  lemma LeadsToRest(s: State, steps: seq<Step>, id: PlanId, file: Payload, status: Status)
    requires Inv(s) && Leads(s, steps, id, file, status)
    ensures AtRest(Run(s, steps))
  {
    RunKeepsInv(s, steps);
  }

  lemma RestartedAtRest(s: State, id: PlanId) returns (steps: seq<Step>)
    requires AtRest(s) && id in s.plans
    ensures AllBenign(steps) && CarefulRun(s, steps)
    ensures var t := Run(s, steps);
            SameDisk(s, t) && Kept(s, t, id) && Quiet(t, 0) && t.queues == NONE
  {
    steps := RestartAll(s);
  }

  /** Migrate, verify, activate, restart, finalize. */
  lemma MoveForward(s: State, id: PlanId) returns (steps: seq<Step>)
    requires AtRest(s) && id in s.plans && Migratable(s.plans[id].status) && s.plans[id].source == s.file
    ensures Leads(s, steps, id, s.plans[id].destination, Active)
  {
    var restart := RestartedAtRest(s, id);
    var t := Run(s, restart);
    FreeFenceCanBegin(t, id);
    var migrate := MigrationRecovers(t, id);
    LeadsAfter(s, restart, migrate, id, s.plans[id].destination, Active);
    steps := restart + migrate;
  }

  // ---------------------------------------------------------------------
  // Rolling back

  lemma DrainedForRollback(s: State, id: PlanId) returns (steps: seq<Step>)
    requires Quiet(s, 0) && s.fence.None? && s.queues == NONE && id in s.plans
    requires s.plans[id].status == Active && s.plans[id].destination == s.file
    ensures forall step | step in steps :: Benign(step) && Uneventful(step)
    ensures Run(s, steps) == s.(fence := Some(id), queues := PAUSED, op := Resetting(Job(0, id, Rollback), |s.order|))
  {
    var job := Job(0, id, Rollback);
    assert Next(s, BeginRollback(0, id)) == s.(op := Engaging(job));
    var engaged := s.(fence := Some(id), op := Draining(job));
    RunTwoSteps(s, BeginRollback(0, id), Engage);
    assert Run(s, [BeginRollback(0, id), Engage]) == engaged;
    var drain := Drains(engaged);
    RunConcat(s, [BeginRollback(0, id), Engage], drain);
    steps := [BeginRollback(0, id), Engage] + drain;
  }

  /** Everything is copied back, and the check of it begins. */
  lemma CopiedBack(s: State, id: PlanId) returns (steps: seq<Step>)
    requires s.op == Resetting(Job(0, id, Rollback), |s.order|) && id in s.plans
    requires s.plans[id].source != s.plans[id].destination
    ensures forall step | step in steps :: Benign(step) && Uneventful(step)
    ensures var t := Run(s, steps);
            && CopyFrame(s, t, id) && t.op.Checking? && t.op.job == s.op.job && t.op.next == 0
            && forall table | table in t.order :: Passes(t, table)
  {
    var copy := ResetAndCopied(s, id);
    var u := Run(s, copy);
    RunOne(u, CopyFinish);
    RunConcat(s, copy, [CopyFinish]);
    steps := copy + [CopyFinish];
    CopiedPasses(u, id);
  }

  lemma ResetAndCopied(s: State, id: PlanId) returns (steps: seq<Step>)
    requires s.op == Resetting(Job(0, id, Rollback), |s.order|) && id in s.plans
    requires s.plans[id].source != s.plans[id].destination
    ensures forall step | step in steps :: Benign(step) && Uneventful(step)
    ensures var t := Run(s, steps);
            && CopyFrame(s, t, id) && MidCopy(t, id) && CopiedAlready(t)
            && t.op.job == s.op.job && t.op.next == |t.order|
  {
    var reset := ResetRest(s, id);
    var t := Run(s, reset);
    var copy := CopyRest(t, id);
    RunConcat(s, reset, copy);
    steps := reset + copy;
  }

  /** What a check asks of a table. */
  predicate Passes(s: State, table: Table)
    requires s.op.Checking?
  {
    var rows := RowsOf(s.databases, From(s, s.op.job), table);
    rows == RowsOf(s.databases, To(s, s.op.job), table)
    && (table in s.op.expected ==> s.op.expected[table] == rows)
  }

  lemma CopiedPasses(s: State, id: PlanId)
    requires MidCopy(s, id) && s.op.job.purpose.Rollback? && CopiedAlready(s) && s.op.next == |s.order|
    ensures var t := Next(s, CopyFinish);
            && t == s.(op := Checking(s.op.job, 0, s.op.done))
            && forall table | table in t.order :: Passes(t, table)
  {
  }

  lemma CheckedBack(s: State, id: PlanId) returns (steps: seq<Step>)
    requires s.op.Checking? && s.op.job == Job(0, id, Rollback) && s.op.next == 0 && id in s.plans
    requires forall table | table in s.order :: Passes(s, table)
    ensures forall step | step in steps :: Benign(step) && Uneventful(step)
    ensures Run(s, steps) == s.(plans := s.plans[id := s.plans[id].(status := RollbackPendingRestart)],
                                file := s.plans[id].source, op := Idle)
  {
    var n := |s.order|;
    var checks := Repeat(CheckTable, n);
    ChecksRun(s, n);
    var t := s.(op := Checking(s.op.job, n, s.op.expected));
    var record := RecordedAndWritten(t, id);
    RunConcat(s, checks, record);
    steps := checks + record;
    assert forall step | step in checks :: step == CheckTable;
  }

  lemma RecordedAndWritten(s: State, id: PlanId) returns (steps: seq<Step>)
    requires s.op.Checking? && s.op.job == Job(0, id, Rollback) && s.op.next == |s.order| && id in s.plans
    ensures forall step | step in steps :: Benign(step) && Uneventful(step)
    ensures Run(s, steps) == s.(plans := s.plans[id := s.plans[id].(status := RollbackPendingRestart)],
                                file := s.plans[id].source, op := Idle)
  {
    steps := [CheckFinish, WriteConfiguration];
    RunTwoSteps(s, CheckFinish, WriteConfiguration);
  }

  /** Copy back, check, record, write the configuration. */
  lemma RollbackCommand(s: State, id: PlanId) returns (steps: seq<Step>)
    requires Quiet(s, 0) && s.fence.None? && s.queues == NONE && id in s.plans
    requires s.plans[id].status == Active && s.plans[id].destination == s.file
    ensures forall step | step in steps :: Benign(step) && Uneventful(step)
    ensures var t := Run(s, steps);
            && Kept(s, t, id) && t.op.Idle? && t.fence == Some(id) && t.file == s.plans[id].source
            && t.plans[id].status == RollbackPendingRestart
  {
    assert PlanInv(s.order, s.databases, Calm(s, id), s.plans[id]);
    var drain := DrainedForRollback(s, id);
    var t := Run(s, drain);
    var copy := CopiedBack(t, id);
    var u := Run(t, copy);
    var check := CheckedBack(u, id);
    RunConcat(s, drain, copy);
    RunConcat(s, drain + copy, check);
    steps := drain + copy + check;
  }

  /** Roll back, restart, finalize. */
  lemma MoveBack(s: State, id: PlanId) returns (steps: seq<Step>)
    requires AtRest(s) && id in s.plans && s.plans[id].status == Active && s.plans[id].destination == s.file
    ensures Leads(s, steps, id, s.plans[id].source, RolledBack)
  {
    var restart := RestartedAtRest(s, id);
    var t := Run(s, restart);
    var command := RollbackCommand(t, id);
    UneventfulRunIsCareful(t, command);
    RunKeepsInv(t, command);
    var u := Run(t, command);
    var again := RestartAll(u);
    var finish := FinalizeRollbackRecovers(Run(u, again), id);
    LeadsAfter(u, again, finish, id, u.file, RolledBack);
    LeadsAfter(t, command, again + finish, id, u.file, RolledBack);
    LeadsAfter(s, restart, command + (again + finish), id, u.file, RolledBack);
    steps := restart + (command + (again + finish));
  }

  // ---------------------------------------------------------------------
  // Where the active database can be taken

  /** Where a plan takes the active database from here. */
  function Onward(plan: Plan, file: Payload): Option<Payload> {
    if Migratable(plan.status) && plan.source == file then Some(plan.destination)
    else if plan.status == Active && plan.destination == file then Some(plan.source)
    else None
  }

  /** Plans other than `id` that take it from one database to another. */
  predicate Path(plans: map<PlanId, Plan>, id: PlanId, file: Payload, path: seq<PlanId>, target: Payload)
    decreases |path|
  {
    if path == [] then file == target
    else
      && path[0] != id && path[0] in plans && Onward(plans[path[0]], file).Some?
      && Path(plans, id, Onward(plans[path[0]], file).value, path[1..], target)
  }

  predicate Once(path: seq<PlanId>) {
    forall i, j | 0 <= i < j < |path| :: path[i] != path[j]
  }

  ghost predicate Reaches(plans: map<PlanId, Plan>, id: PlanId, file: Payload, target: Payload) {
    exists path: seq<PlanId> :: Once(path) && Path(plans, id, file, path, target)
  }

  lemma OneMove(s: State, j: PlanId) returns (steps: seq<Step>)
    requires AtRest(s) && j in s.plans && Onward(s.plans[j], s.file).Some?
    ensures AllBenign(steps) && CarefulRun(s, steps)
    ensures var t := Run(s, steps);
            && AtRest(t) && t.file == Onward(s.plans[j], s.file).value
            && t.current == s.current && t.plans - {j} == s.plans - {j}
  {
    var plan := s.plans[j];
    if Migratable(plan.status) {
      steps := MoveForward(s, j);
      LeadsToRest(s, steps, j, plan.destination, Active);
    } else {
      steps := MoveBack(s, j);
      LeadsToRest(s, steps, j, plan.source, RolledBack);
    }
  }

  lemma {:induction false} PathKept(before: map<PlanId, Plan>, after: map<PlanId, Plan>, j: PlanId,
                                    id: PlanId, file: Payload, path: seq<PlanId>, target: Payload)
    requires after - {j} == before - {j} && j !in path && Path(before, id, file, path, target)
    ensures Path(after, id, file, path, target)
    decreases |path|
  {
    if path != [] {
      var k := path[0];
      assert k in before - {j} && k in after - {j};
      assert after[k] == (after - {j})[k] == (before - {j})[k] == before[k];
      PathKept(before, after, j, id, Onward(before[k], file).value, path[1..], target);
    }
  }

  /** Every path can be followed. */
  lemma {:induction false} FollowPath(s: State, id: PlanId, path: seq<PlanId>,
                                      target: Payload) returns (steps: seq<Step>)
    requires AtRest(s) && id in s.plans && Once(path) && Path(s.plans, id, s.file, path, target)
    ensures AllBenign(steps) && CarefulRun(s, steps)
    ensures var t := Run(s, steps);
            && AtRest(t) && t.file == target && id in t.plans && t.plans[id] == s.plans[id] && t.current == s.current
    decreases |path|
  {
    if path == [] {
      steps := [];
    } else {
      var j := path[0];
      var move := OneMove(s, j);
      var t := Run(s, move);
      PathKept(s.plans, t.plans, j, id, t.file, path[1..], target);
      assert id in s.plans - {j} && id in t.plans - {j};
      assert t.plans[id] == (t.plans - {j})[id] == (s.plans - {j})[id] == s.plans[id];
      var rest := FollowPath(t, id, path[1..], target);
      CarefulConcat(s, move, rest);
      RunConcat(s, move, rest);
      steps := move + rest;
    }
  }

  // ---------------------------------------------------------------------
  // What can be reached is closed

  lemma {:induction false} PathAppend(plans: map<PlanId, Plan>, id: PlanId, file: Payload, path: seq<PlanId>,
                                      node: Payload, j: PlanId)
    requires Path(plans, id, file, path, node) && j in plans && j != id && Onward(plans[j], node).Some?
    ensures Path(plans, id, file, path + [j], Onward(plans[j], node).value)
    decreases |path|
  {
    if path == [] {
      assert ([j])[1..] == [];
    } else {
      assert (path + [j])[1..] == path[1..] + [j];
      PathAppend(plans, id, Onward(plans[path[0]], file).value, path[1..], node, j);
    }
  }

  /** A path that uses a plan passes through the only database the plan leads on
      from. */
  lemma {:induction false} PathThrough(plans: map<PlanId, Plan>, id: PlanId, file: Payload, path: seq<PlanId>,
                                       target: Payload, i: nat)
    requires Path(plans, id, file, path, target) && i < |path|
    ensures path[i] in plans && path[i] != id
    ensures exists node :: Onward(plans[path[i]], node).Some?
                           && Path(plans, id, file, path[..i + 1], Onward(plans[path[i]], node).value)
    decreases |path|
  {
    var next := Onward(plans[path[0]], file).value;
    if i == 0 {
      assert path[..1][1..] == [];
      assert Path(plans, id, file, path[..1], next);
    } else {
      PathThrough(plans, id, next, path[1..], target, i - 1);
      assert path[1..][..i] == path[..i + 1][1..];
      var node :| Onward(plans[path[i]], node).Some?
                  && Path(plans, id, next, path[1..][..i], Onward(plans[path[i]], node).value);
      assert Path(plans, id, file, path[..i + 1], Onward(plans[path[i]], node).value);
    }
  }

  lemma ReachedIsClosed(plans: map<PlanId, Plan>, id: PlanId, file: Payload, node: Payload, j: PlanId)
    requires Reaches(plans, id, file, node) && j in plans && j != id && Onward(plans[j], node).Some?
    ensures Reaches(plans, id, file, Onward(plans[j], node).value)
  {
    var path :| Once(path) && Path(plans, id, file, path, node);
    if i :| 0 <= i < |path| && path[i] == j {
      PathThrough(plans, id, file, path, node, i);
      assert Once(path[..i + 1]);
    } else {
      PathAppend(plans, id, file, path, node, j);
      assert Once(path + [j]);
    }
  }
}
