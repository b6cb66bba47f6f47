/**
  The migration commands as they are written: a class whose fields are the
  persisted files and databases, each method making one persisted write after
  the other. A ghost trace names every write as a step of the state machine, and
  what is proved of all careful runs of the machine is shown to hold at every
  write of every command, and wherever a crash cuts one short.
*/
module MigrationManagers {
  import opened Base
  import opened MigrationProtocol
  import opened MigrationSafety
  import opened MigrationOwnership
  import opened MigrationRecovery
  import opened MigrationOrphans

  datatype Refusal =
    | NotFound
    | WrongStatus
    | SourceChanged
    | FenceNotHeld
    | FenceHeldByOther
    | SameDatabase
    | DestinationNotEmpty
    | StillInProgress
    | NotRestarted
    | CopyFailed
    | DrainFailed
    | VerificationFailed

  /** How a drain ends: what is waited for does not come to its end in time, or
      the looks behind the pause find something, or all is quiet. */
  datatype Drain = TimesOut | FailsBehindThePause | Empties

  /** What the surroundings of a long command do to it: whether the fence
      drains, at which table an exception is thrown, and which rows the
      destination ends up with when given some. */
  datatype Conditions = Conditions(
    drain: Drain,
    throwAt: Option<nat>,
    failureIsRecorded: bool,
    store: (Table, Rows) -> Rows)
  {
    predicate ThrowsBefore(n: nat) {
      throwAt.Some? && throwAt.value < n
    }
  }

  /** The steps made so far, latest last. */
  datatype Trace = Origin(s: State) | Then(before: Trace, step: Step)

  function End(trace: Trace): State {
    match trace
    case Origin(s) => s
    case Then(before, step) => Next(End(before), step)
  }

  function Start(trace: Trace): State {
    match trace
    case Origin(s) => s
    case Then(before, _) => Start(before)
  }

  function Steps(trace: Trace): seq<Step> {
    match trace
    case Origin(_) => []
    case Then(before, step) => Steps(before) + [step]
  }

  /** What `release` writes: the queues are resumed before the fence is
      unlinked, or neither happens. */
  function Released(trace: Trace, mine: bool): Trace {
    Then(if mine then Then(trace, ResumeQueues) else trace, Release)
  }

  predicate Extends(trace: Trace, before: Trace) {
    trace == before || (trace.Then? && Extends(trace.before, before))
  }

  lemma {:induction false} ReleasedExtends(trace: Trace, mine: bool)
    ensures Extends(Released(trace, mine), trace)
  {
    var resumed := if mine then Then(trace, ResumeQueues) else trace;
    assert Extends(resumed, trace);
  }

  lemma {:induction false} ThreeExtend(trace: Trace, a: Step, b: Step, c: Step)
    ensures Extends(Then(Then(Then(trace, a), b), c), trace)
  {
    assert Extends(Then(trace, a), trace);
    assert Extends(Then(Then(trace, a), b), trace);
  }

  /** A trace is a run of the machine. */
  lemma {:induction false} TraceIsRun(trace: Trace)
    ensures End(trace) == Run(Start(trace), Steps(trace))
  {
    match trace
    case Origin(_) =>
    case Then(before, step) =>
      TraceIsRun(before);
      RunConcat(Start(trace), Steps(before), [step]);
      RunCons(End(before), step, []);
      assert [step] + [] == [step];
  }

  lemma {:induction false} EarlierIsPrefix(trace: Trace, before: Trace) returns (rest: seq<Step>)
    requires Extends(trace, before)
    ensures Start(trace) == Start(before) && Steps(trace) == Steps(before) + rest
  {
    if trace == before {
      rest := [];
    } else {
      var earlier := EarlierIsPrefix(trace.before, before);
      rest := earlier + [trace.step];
    }
  }

  lemma {:induction false} CarefulSoFar(s: State, a: seq<Step>, b: seq<Step>)
    requires CarefulRun(s, a + b)
    ensures CarefulRun(s, a)
    decreases |a|
  {
    if a != [] {
      assert (a + b)[1..] == a[1..] + b;
      CarefulSoFar(Next(s, a[0]), a[1..], b);
    }
  }

  /** At every write of every command nothing is lost, as long as the runs of
      the commands and of everything between them are careful. */
  lemma HoldsAtEveryWrite(trace: Trace, before: Trace)
    requires Init(Start(trace)) && CarefulRun(Start(trace), Steps(trace)) && Extends(trace, before)
    ensures Inv(End(before)) && NothingLost(End(before))
  {
    var s := Start(trace);
    var rest := EarlierIsPrefix(trace, before);
    CarefulSoFar(s, Steps(before), rest);
    InitKeepsInv(s);
    RunKeepsInv(s, Steps(before));
    TraceIsRun(before);
  }

  /** A command that dies behind any of its writes leaves a fence that can be
      released exactly when it is releasable. */
  lemma CutShort(trace: Trace, before: Trace)
    requires Init(Start(trace)) && Extends(trace, before) && End(before).fence.Some?
    ensures Held(End(before))
    ensures var dead := Next(End(before), Crash); var id := dead.fence.value;
            && id in dead.plans
            && ((exists recovery :: Frees(dead, recovery)) <==> Releasable(dead, id))
  {
    var rest := EarlierIsPrefix(trace, before);
    TraceIsRun(before);
    InitIsHeld(Start(trace));
    RunKeepsHeld(Start(trace), Steps(before));
    FenceIsReleasableExactly(Start(trace), Steps(before));
  }

  /** With care it always is, and nothing is lost over it. */
  lemma CutShortWithCare(trace: Trace, before: Trace) returns (recovery: seq<Step>)
    requires Init(Start(trace)) && CarefulRun(Start(trace), Steps(trace)) && Extends(trace, before)
    requires End(before).fence.Some?
    ensures UnfailingRun(Next(End(before), Crash), recovery)
    ensures var t := Run(Next(End(before), Crash), recovery);
            t.fence.None? && Inv(t) && NothingLost(t)
  {
    var s := Start(trace);
    var rest := EarlierIsPrefix(trace, before);
    CarefulSoFar(s, Steps(before), rest);
    TraceIsRun(before);
    var dead := Then(before, Crash);
    TraceIsRun(dead);
    assert CarefulRun(Next(Run(s, Steps(before)), Crash), []);
    CarefulConcat(s, Steps(before), [Crash]);
    recovery := FenceIsNeverOrphaned(s, Steps(dead));
    RunConcat(s, Steps(dead), recovery);
  }

  /** One more table is recorded as verified. */
  function Recorded(plan: Plan, t: Table, rows: Rows): Plan {
    plan.(tables := plan.tables[t := rows])
  }

  /** No database but this one differs. */
  predicate OnlyDatabase(before: Disk, after: Disk, payload: Payload) {
    after - {payload} == before - {payload}
  }

  /** Of the plans, only the record of tables of this one differs. */
  predicate OnlyRecord(before: map<PlanId, Plan>, after: map<PlanId, Plan>, id: PlanId) {
    && after - {id} == before - {id}
    && id in before && id in after
    && after[id].(tables := before[id].tables) == before[id]
  }

  lemma OtherDatabase(before: Disk, after: Disk, payload: Payload, other: Payload, t: Table)
    requires OnlyDatabase(before, after, payload) && other != payload
    ensures RowsOf(after, other, t) == RowsOf(before, other, t)
  {
    assert other in before <==> other in before - {payload};
    assert other in after <==> other in after - {payload};
    if other in before {
      assert (before - {payload})[other] == (after - {payload})[other];
    }
  }

  /** Of the first n tables, none that is still to be copied makes the copy throw,
      and each is stored as it stands in the source. */
  ghost predicate Copyable(order: seq<Table>, n: nat, completed: map<Table, Rows>, disk: Disk, source: Payload,
                           c: Conditions)
    requires n <= |order|
  {
    forall j | 0 <= j < n && order[j] !in completed && order[j] !in order[..j] ::
      c.throwAt != Some(j) && c.store(order[j], RowsOf(disk, source, order[j])) == RowsOf(disk, source, order[j])
  }

  /** What is recorded once n tables are. */
  ghost function RecordedBy(order: seq<Table>, n: nat, completed: map<Table, Rows>): set<Table>
    requires n <= |order|
  {
    completed.Keys + (set t | t in order[..n])
  }

  /** One turn, made with the rows the source has by then. */
  lemma TurnDecides(order: seq<Table>, n: nat, completed: map<Table, Rows>, before: Disk, now: Disk,
                    destination: Payload, source: Payload, c: Conditions)
    requires n < |order| && OnlyDatabase(before, now, destination) && source != destination
    requires Copyable(order, n, completed, before, source, c)
    ensures var t := order[n];
            var ok := || t in RecordedBy(order, n, completed)
                      || (c.throwAt != Some(n) && c.store(t, RowsOf(now, source, t)) == RowsOf(now, source, t));
            if ok then Copyable(order, n + 1, completed, before, source, c)
            else !Copyable(order, |order|, completed, before, source, c)
    ensures RecordedBy(order, n + 1, completed) == RecordedBy(order, n, completed) + {order[n]}
  {
    OtherDatabase(before, now, destination, source, order[n]);
    assert order[..n + 1] == order[..n] + [order[n]];
  }

  /** It is a matter of the source's rows alone. */
  lemma CopyableStays(order: seq<Table>, completed: map<Table, Rows>, before: Disk, after: Disk, destination: Payload,
                      source: Payload, c: Conditions)
    requires OnlyDatabase(before, after, destination) && source != destination
    ensures Copyable(order, |order|, completed, before, source, c)
       <==> Copyable(order, |order|, completed, after, source, c)
  {
    forall t ensures RowsOf(before, source, t) == RowsOf(after, source, t) {
      OtherDatabase(before, after, destination, source, t);
    }
  }

  /** A rollback copies every table and then looks at each again. */
  ghost predicate CopyableBack(order: seq<Table>, disk: Disk, source: Payload, c: Conditions) {
    && !(c.throwAt.Some? && c.throwAt.value < |order|)
    && forall t | t in order :: c.store(t, RowsOf(disk, source, t)) == RowsOf(disk, source, t)
  }

  lemma CopyableBackIs(order: seq<Table>, disk: Disk, source: Payload, c: Conditions)
    ensures CopyableBack(order, disk, source, c)
       <==> !c.ThrowsBefore(|order|) && Copyable(order, |order|, map[], disk, source, c)
  {
    if Copyable(order, |order|, map[], disk, source, c) {
      forall t | t in order ensures c.store(t, RowsOf(disk, source, t)) == RowsOf(disk, source, t) {
        var j := FirstPlace(order, t);
        assert order[j] == t;
      }
    }
  }

  lemma {:induction false} FirstPlace(order: seq<Table>, t: Table) returns (j: nat)
    requires t in order
    ensures j < |order| && order[j] == t && t !in order[..j]
    decreases |order|
  {
    if t in order[..|order| - 1] {
      j := FirstPlace(order[..|order| - 1], t);
      assert order[..|order| - 1][..j] == order[..j];
    } else {
      j := |order| - 1;
    }
  }

  /** No other table of any database differs. */
  ghost predicate OnlyTable(before: Disk, after: Disk, payload: Payload, t: Table) {
    && OnlyDatabase(before, after, payload)
    && forall u | u != t :: RowsOf(after, payload, u) == RowsOf(before, payload, u)
  }

  lemma {:induction false} ExtendsTransitive(a: Trace, b: Trace, c: Trace)
    requires Extends(b, a) && Extends(c, b)
    ensures Extends(c, a)
  {
    if c != b {
      ExtendsTransitive(a, b, c.before);
    }
  }

  class MigrationManager {
    const order: seq<Table>
    var plans: map<PlanId, Plan>
    var current: Option<PlanId>
    var fence: Option<PlanId>
    var file: Payload
    var databases: Disk
    var loaded: map<Process, Payload>
    var queues: Queues
    ghost var running: set<Process>
    ghost var committed: seq<Write>
    ghost var op: Operation
    ghost var trace: Trace

    ghost function View(): State
      reads this
    {
      State(order, plans, current, fence, file, databases, loaded, running, queues, op, committed)
    }

    /** The fields are what the machine reaches by the steps in the trace. */
    ghost predicate Valid()
      reads this
    {
      View() == End(trace)
    }

    constructor (s: State)
      ensures View() == s && trace == Origin(s) && Valid()
    {
      order := s.order;
      plans, current, fence, file := s.plans, s.current, s.fence, s.file;
      databases, loaded := s.databases, s.loaded;
      running, queues, committed, op := s.running, s.queues, s.committed, s.op;
      trace := Origin(s);
    }

    /** Names the write just made. */
    ghost method Log(step: Step)
      requires View() == Next(End(trace), step)
      modifies `trace
      ensures trace == Then(old(trace), step) && Valid()
    {
      trace := Then(trace, step);
    }

    /** A plan file that does not exist reads as a plan that allows nothing. */
    function ReadPlan(id: PlanId): Plan
      reads `plans
    {
      if id in plans then plans[id] else Plan(Cancelled, 0, 0, map[], false)
    }

    /** The configuration the process runs on. */
    predicate RunsOn(pid: Process, payload: Payload)
      reads `loaded
    {
      pid in loaded && loaded[pid] == payload
    }

    // -----------------------------------------------------------------
    // Single writes

    /** The command goes on without writing anything. */
    ghost method Proceed(step: Step, next: Operation)
      requires Valid() && Next(View(), step) == View().(op := next)
      modifies `op, `trace
      ensures Valid() && op == next && trace == Then(old(trace), step)
    {
      op := next;
      Log(step);
    }

    method Transition(id: PlanId, status: Status, ghost step: Step, ghost next: Operation)
      requires Valid() && Next(View(), step) == WithStatus(View(), id, status).(op := next)
      modifies `plans, `op, `trace
      ensures Valid() && op == next && trace == Then(old(trace), step)
      ensures plans == old(plans)[id := old(ReadPlan(id)).(status := status)]
    {
      plans := plans[id := ReadPlan(id).(status := status)];
      op := next;
      Log(step);
    }

    method DropFence(id: PlanId, ghost step: Step, ghost next: Operation)
      requires Valid() && Next(View(), step) == Unfence(View(), id).(op := next)
      requires fence == Some(id) && !queues.paused
      modifies `plans, `fence, `op, `trace
      ensures Valid() && op == next && trace == Then(old(trace), step) && fence == None
      ensures plans == old(plans)[id := old(ReadPlan(id)).(unbroken := false)]
    {
      ghost var after := Unfence(View(), id).(op := next);
      plans := plans[id := ReadPlan(id).(unbroken := false)];
      fence := None;
      op := next;
      assert plans == after.plans && queues == after.queues;
      assert View() == after;
      Log(step);
    }

    method UnlinkFence(id: PlanId, ghost step: Step, ghost next: Operation)
      requires Valid() && Next(View(), step) == Unfence(View(), id).(op := next)
      requires fence == Some(id) ==> !queues.paused
      modifies `plans, `fence, `op, `trace
      ensures Valid() && op == next && trace == Then(old(trace), step)
      ensures if old(fence) == Some(id)
              then fence == None && plans == old(plans)[id := old(ReadPlan(id)).(unbroken := false)]
              else fence == old(fence) && plans == old(plans)
    {
      if fence == Some(id) {
        DropFence(id, step, next);
      } else {
        Proceed(step, next);
      }
    }

    /** `resumeQueues`. That ends an unbroken copy is history. */
    method Resume(id: PlanId)
      requires Valid() && (op.Releasing? || op.Cancelling?) && op.id == id && (fence.None? || fence == Some(id))
      modifies `plans, `queues, `trace
      ensures Valid() && trace == Then(old(trace), ResumeQueues)
      ensures queues == old(queues).(paused := false)
      ensures plans == old(BrokenOff(View(), id))
    {
      queues := queues.(paused := false);
      if fence == Some(id) {
        plans := plans[id := ReadPlan(id).(unbroken := false)];
      }
      Log(ResumeQueues);
    }

    method WriteActiveConfiguration(payload: Payload)
      requires Valid() && op.Configuring? && op.payload == payload
      modifies `file, `op, `trace
      ensures Valid() && op.Idle? && file == payload && trace == Then(old(trace), WriteConfiguration)
    {
      file := payload;
      op := Idle;
      Log(WriteConfiguration);
    }

    method ClearCurrent(id: PlanId) returns (cleared: bool)
      requires Valid() && op.Unpointing? && op.id == id
      modifies `current, `op, `trace
      ensures Valid() && op.Idle? && trace == Then(old(trace), CancelUnpoint)
      ensures current == if old(current) == Some(id) then None else old(current)
      ensures cleared == (old(current).None? || old(current) == Some(id))
    {
      cleared := current.None? || current == Some(id);
      if current == Some(id) {
        current := None;
      }
      op := Idle;
      Log(CancelUnpoint);
    }

    // -----------------------------------------------------------------
    // plan

    predicate MayPlan(pid: Process, destination: Payload)
      reads this
    {
      && pid in loaded && loaded[pid] != destination
      && (forall t | t in order :: RowsOf(databases, destination, t) == [])
      && (current.None? || ReadPlan(current.value).status in {Active, RolledBack, Cancelled})
    }

    method WritePlan(pid: Process, id: PlanId, destination: Payload)
      requires Valid() && op.Idle? && id !in plans && MayPlan(pid, destination)
      modifies `plans, `op, `trace
      ensures Valid() && op == Pointing(pid, id) && trace == Then(old(trace), PlanFile(pid, id, destination))
      ensures plans == old(plans)[id := Plan(Planned, loaded[pid], destination, map[], false)]
    {
      plans := plans[id := Plan(Planned, loaded[pid], destination, map[], false)];
      op := Pointing(pid, id);
      Log(PlanFile(pid, id, destination));
    }

    method WritePointer(id: PlanId)
      requires Valid() && op.Pointing? && op.id == id
      modifies `current, `op, `trace
      ensures Valid() && op.Idle? && current == Some(id) && trace == Then(old(trace), PlanPointer)
    {
      current := Some(id);
      op := Idle;
      Log(PlanPointer);
    }

    /** `plan` with a fresh id. */
    method CreatePlan(pid: Process, id: PlanId, destination: Payload) returns (r: Result<PlanId, Refusal>)
      requires Valid() && op.Idle? && pid in loaded && id !in plans
      modifies `plans, `current, `op, `trace
      ensures Valid() && op.Idle?
      ensures r.Ok? <==> old(MayPlan(pid, destination))
      ensures r.Ok? ==>
                && r.value == id && current == Some(id)
                && plans == old(plans)[id := Plan(Planned, loaded[pid], destination, map[], false)]
                && trace == Then(Then(old(trace), PlanFile(pid, id, destination)), PlanPointer)
      ensures r.Err? ==> View() == old(View()) && trace == old(trace)
    {
      if loaded[pid] == destination {
        return Err(SameDatabase);
      }
      if exists t | t in order :: RowsOf(databases, destination, t) != [] {
        return Err(DestinationNotEmpty);
      }
      if current.Some? && !Terminal(ReadPlan(current.value).status) {
        return Err(StillInProgress);
      }
      WritePlan(pid, id, destination);
      WritePointer(id);
      return Ok(id);
    }

    // -----------------------------------------------------------------
    // cancel

    predicate MayCancel(pid: Process, id: PlanId)
      reads this
    {
      id in plans && ReadPlan(id).status in {Planned, Failed}
      && RunsOn(pid, ReadPlan(id).source) && (fence.None? || fence == Some(id))
    }

    method Cancel(pid: Process, id: PlanId) returns (r: Result<PlanId, Refusal>)
      requires Valid() && op.Idle?
      modifies `plans, `fence, `queues, `current, `op, `trace
      ensures Valid() && op.Idle?
      ensures old(MayCancel(pid, id)) ==>
                && trace == Then(Then(Then(Then(Then(old(trace), BeginCancel(pid, id)), ResumeQueues), CancelRelease),
                                      CancelRecord), CancelUnpoint)
                && fence == None
                && ReadPlan(id).status == Cancelled && plans - {id} == old(plans) - {id}
                && current == (if old(current) == Some(id) then None else old(current))
                && (r.Ok? <==> old(current).None? || old(current) == Some(id))
      ensures !old(MayCancel(pid, id)) ==> r.Err? && View() == old(View()) && trace == old(trace)
    {
      if id !in plans {
        return Err(NotFound);
      }
      if ReadPlan(id).status !in {Planned, Failed} {
        return Err(WrongStatus);
      }
      if !RunsOn(pid, ReadPlan(id).source) {
        return Err(SourceChanged);
      }
      if fence.Some? && fence != Some(id) {
        return Err(FenceHeldByOther);
      }
      CancelFence(pid, id);
      r := RecordCancel(pid, id);
    }

    method RecordCancel(pid: Process, id: PlanId) returns (r: Result<PlanId, Refusal>)
      requires Valid() && op == RecordingCancel(pid, id)
      modifies `plans, `current, `op, `trace
      ensures Valid() && op.Idle? && trace == Then(Then(old(trace), CancelRecord), CancelUnpoint)
      ensures plans == old(plans)[id := old(ReadPlan(id)).(status := Cancelled)]
      ensures current == if old(current) == Some(id) then None else old(current)
      ensures r.Ok? <==> old(current).None? || old(current) == Some(id)
    {
      Transition(id, Cancelled, CancelRecord, Unpointing(pid, id));
      var cleared := ClearCurrent(id);
      return if cleared then Ok(id) else Err(StillInProgress);
    }

    ghost method BeginCancelling(pid: Process, id: PlanId)
      requires Valid() && op.Idle? && MayCancel(pid, id)
      modifies `op, `trace
      ensures Valid() && op == Cancelling(pid, id) && trace == Then(old(trace), BeginCancel(pid, id))
    {
      Proceed(BeginCancel(pid, id), Cancelling(pid, id));
    }

    method CancelFence(pid: Process, id: PlanId)
      requires Valid() && op.Idle? && MayCancel(pid, id)
      modifies `plans, `fence, `queues, `op, `trace
      ensures Valid() && op == RecordingCancel(pid, id)
      ensures trace == Then(Then(Then(old(trace), BeginCancel(pid, id)), ResumeQueues), CancelRelease)
      ensures fence == None
      ensures if old(fence) == Some(id)
              then plans == old(plans)[id := old(ReadPlan(id)).(unbroken := false)]
              else plans == old(plans)
    {
      BeginCancelling(pid, id);
      Resume(id);
      UnlinkFence(id, CancelRelease, RecordingCancel(pid, id));
    }

    // -----------------------------------------------------------------
    // activate

    method Activate(pid: Process, id: PlanId) returns (r: Result<Status, Refusal>)
      requires Valid() && op.Idle?
      modifies `plans, `file, `op, `trace
      ensures Valid() && op.Idle?
      ensures var plan := old(ReadPlan(id));
              var ready := id in old(plans) && fence == Some(id) && plan.status in {Verified, ActivationPendingRestart};
              var active := plan.status == ActivationPendingRestart && RunsOn(pid, plan.destination);
              if ready && !active && RunsOn(pid, plan.source)
              then trace == Then(Then(old(trace), BeginActivate(pid, id)), WriteConfiguration)
                   && r == Ok(ActivationPendingRestart) && file == plan.destination
                   && plans == old(plans)[id := plan.(status := ActivationPendingRestart)]
              else View() == old(View()) && trace == old(trace) && (r.Ok? <==> ready && active)
    {
      if id !in plans {
        return Err(NotFound);
      }
      var plan := ReadPlan(id);
      if fence != Some(id) {
        return Err(FenceNotHeld);
      }
      if plan.status !in {Verified, ActivationPendingRestart} {
        return Err(WrongStatus);
      }
      if plan.status == ActivationPendingRestart && RunsOn(pid, plan.destination) {
        return Ok(plan.status);
      }
      if !RunsOn(pid, plan.source) {
        return Err(SourceChanged);
      }
      Transition(id, ActivationPendingRestart, BeginActivate(pid, id), Configuring(pid, id, plan.destination));
      WriteActiveConfiguration(plan.destination);
      return Ok(ActivationPendingRestart);
    }

    /** `release`: a fence of another plan makes it throw. */
    method ReleaseFence(id: PlanId) returns (released: bool)
      requires Valid() && op.Releasing? && op.id == id
      modifies `plans, `fence, `queues, `op, `trace
      ensures Valid() && op.Idle? && trace == Released(old(trace), released)
      ensures released == (old(fence).None? || old(fence) == Some(id))
      ensures if old(fence) == Some(id)
              then fence == None && plans == old(plans)[id := old(ReadPlan(id)).(unbroken := false)]
              else fence == old(fence) && plans == old(plans)
    {
      released := fence.None? || fence == Some(id);
      if released {
        Resume(id);
      }
      UnlinkFence(id, Release, Idle);
    }

    predicate MayFinalizeActivation(pid: Process, id: PlanId)
      reads this
    {
      var plan := ReadPlan(id);
      id in plans && pid in loaded
      && (plan.status == Active
          || (plan.status == ActivationPendingRestart && fence == Some(id) && RunsOn(pid, plan.destination)))
    }

    /** `activate --finalize`. */
    method FinalizeActivate(pid: Process, id: PlanId) returns (r: Result<Status, Refusal>)
      requires Valid() && op.Idle? && pid in loaded
      modifies `plans, `fence, `queues, `op, `trace
      ensures Valid() && op.Idle?
      ensures old(MayFinalizeActivation(pid, id)) ==>
                && trace == Released(Then(old(trace), FinalizeActivation(pid, id)), fence == None)
                && ReadPlan(id).status == Active
                && fence == (if old(fence) == Some(id) then None else old(fence))
                && (r.Ok? <==> fence == None)
      ensures !old(MayFinalizeActivation(pid, id)) ==> r.Err? && View() == old(View()) && trace == old(trace)
    {
      if id !in plans {
        return Err(NotFound);
      }
      var plan := ReadPlan(id);
      if plan.status == Active {
        Proceed(FinalizeActivation(pid, id), Releasing(pid, id));
      } else {
        if fence != Some(id) {
          return Err(FenceNotHeld);
        }
        if plan.status != ActivationPendingRestart {
          return Err(WrongStatus);
        }
        if !RunsOn(pid, plan.destination) {
          return Err(NotRestarted);
        }
        Transition(id, Active, FinalizeActivation(pid, id), Releasing(pid, id));
      }
      var released := ReleaseFence(id);
      return if released then Ok(Active) else Err(FenceHeldByOther);
    }

    // -----------------------------------------------------------------
    // Engaging the fence

    method WriteFence(job: Job)
      requires Valid() && op == Engaging(job) && (fence.None? || fence == Some(job.id))
      modifies `fence, `op, `trace
      ensures Valid() && op == Draining(job) && fence == Some(job.id) && trace == Then(old(trace), Step.Engage)
    {
      fence := Some(job.id);
      op := Draining(job);
      Log(Step.Engage);
    }

    /** `pauseQueues`. */
    method PauseQueues()
      requires Valid() && op.Draining?
      modifies `queues, `trace
      ensures Valid() && trace == Then(old(trace), Step.PauseQueues) && queues == old(queues).(paused := true)
    {
      queues := queues.(paused := true);
      Log(Step.PauseQueues);
    }

    /** The last look: the queues are empty and nobody writes any more. */
    ghost method LookAgain(job: Job)
      requires Valid() && op == Draining(job) && running == {} && queues.waiting == 0 && queues.paused
      modifies `op, `trace
      ensures Valid() && trace == Then(old(trace), DrainDone)
      ensures op == if job.purpose.Rollback? then Resetting(job, |order|) else Starting(job)
    {
      Proceed(DrainDone, if job.purpose.Rollback? then Resetting(job, |order|) else Starting(job));
    }

    /** What `engage` does when the drain fails: resume the queues, unlink. */
    method GiveBack(job: Job)
      requires Valid() && op == Draining(job) && fence == Some(job.id)
      modifies `plans, `fence, `queues, `op, `trace
      ensures Valid() && op.Idle? && fence == None && trace == Released(Then(old(trace), DrainFail), true)
      ensures plans == old(plans)[job.id := old(ReadPlan(job.id)).(unbroken := false)]
    {
      Proceed(DrainFail, Releasing(job.pid, job.id));
      var released := ReleaseFence(job.id);
    }

    /** What `engage` has written when a drain fails. */
    function Undrained(before: Trace, drain: Drain): Trace {
      var engaged := Then(before, Step.Engage);
      if drain.FailsBehindThePause? then Then(engaged, Step.PauseQueues) else engaged
    }

    lemma {:induction false} GiveBackExtends(before: Trace, drain: Drain)
      ensures Extends(Released(Then(Undrained(before, drain), DrainFail), true), before)
    {
      var failed := Then(Undrained(before, drain), DrainFail);
      assert Extends(Then(before, Step.Engage), before);
      assert Extends(Undrained(before, drain), before);
      assert Extends(failed, before);
      ReleasedExtends(failed, true);
      ExtendsTransitive(before, failed, Released(failed, true));
    }

    /** Engage and drain; a drain that fails gives the fence back. */
    method Engage(job: Job, drain: Drain) returns (r: Result<PlanId, Refusal>)
      requires Valid() && op == Engaging(job) && !job.purpose.Verify?
      requires drain.Empties? ==> running == {} && queues.waiting == 0
      modifies `plans, `fence, `queues, `op, `trace
      ensures Valid()
      ensures r.Ok? <==> (old(fence).None? || old(fence) == Some(job.id)) && drain.Empties?
      ensures r.Ok? ==>
                && trace == Then(Then(Then(old(trace), Step.Engage), Step.PauseQueues), DrainDone)
                && fence == Some(job.id) && plans == old(plans)
                && op == (if job.purpose.Rollback? then Resetting(job, |order|) else Starting(job))
      ensures r.Err? ==> op.Idle?
      ensures r == Err(FenceHeldByOther) <==> old(fence).Some? && old(fence) != Some(job.id)
      ensures r == Err(FenceHeldByOther) ==>
                fence == old(fence) && plans == old(plans) && trace == Then(old(trace), Step.Engage)
      ensures r.Err? && r != Err(FenceHeldByOther) ==>
                && r == Err(DrainFailed) && fence == None
                && plans == old(plans)[job.id := old(ReadPlan(job.id)).(unbroken := false)]
                && trace == Released(Then(Undrained(old(trace), drain), DrainFail), true)
      ensures Extends(trace, old(trace))
    {
      if fence.Some? && fence != Some(job.id) {
        Proceed(Step.Engage, Idle);
        return Err(FenceHeldByOther);
      }
      WriteFence(job);
      if !drain.TimesOut? {
        PauseQueues();
      }
      if !drain.Empties? {
        GiveBackExtends(old(trace), drain);
        GiveBack(job);
        return Err(DrainFailed);
      }
      LookAgain(job);
      ThreeExtend(old(trace), Step.Engage, Step.PauseQueues, DrainDone);
      return Ok(job.id);
    }

    // -----------------------------------------------------------------
    // Resetting, copying and checking tables

    /** Replaces the rows of one table of one database. */
    method PutTable(payload: Payload, t: Table, rows: Rows, ghost step: Step, ghost next: Operation)
      requires Valid() && Next(View(), step) == PutRows(View(), payload, Write(t, rows)).(op := next)
      modifies `databases, `op, `trace
      ensures Valid() && op == next && trace == Then(old(trace), step)
      ensures databases == Put(old(databases), payload, Write(t, rows))
    {
      databases := Put(databases, payload, Write(t, rows));
      op := next;
      Log(step);
    }

    method ResetOne(job: Job, to: Payload, left: nat)
      requires Valid() && op == Resetting(job, left) && 0 < left <= |order| && to == To(View(), job)
      modifies `databases, `op, `trace
      ensures Valid() && op == Resetting(job, left - 1) && trace == Then(old(trace), ResetTable)
      ensures databases == Put(old(databases), to, Write(order[left - 1], []))
    {
      PutTable(to, order[left - 1], [], ResetTable, Resetting(job, left - 1));
    }

    /** `resetDestinationTables`: referencing tables are emptied first. */
    method ResetDestination(job: Job, to: Payload)
      requires Valid() && op == Resetting(job, |order|) && to == To(View(), job)
      modifies `databases, `op, `trace
      ensures Valid() && op == CopyingTables(job, 0, map[]) && Extends(trace, old(trace))
      ensures OnlyDatabase(old(databases), databases, to)
      ensures forall t | t in order :: RowsOf(databases, to, t) == []
    {
      var left: nat := |order|;
      while left > 0
        invariant left <= |order| && Valid() && op == Resetting(job, left)
        invariant Extends(trace, old(trace)) && OnlyDatabase(old(databases), databases, to)
        invariant forall j | left <= j < |order| :: RowsOf(databases, to, order[j]) == []
      {
        ResetOne(job, to, left);
        left := left - 1;
      }
      Proceed(ResetDone, CopyingTables(job, 0, map[]));
    }

    method RecordTable(job: Job, t: Table, rows: Rows)
      requires Valid() && op.CopyingTables? && op.job == job && op.next < |order| && order[op.next] == t
      requires t !in op.done && rows == RowsOf(databases, From(View(), job), t) == RowsOf(databases, To(View(), job), t)
      modifies `plans, `op, `trace
      ensures Valid() && trace == Then(old(trace), CopyRecord)
      ensures op == CopyingTables(job, old(op).next + 1, old(op).done[t := rows])
      ensures plans == if job.purpose.Rollback? then old(plans)
                       else old(plans)[job.id := Recorded(old(ReadPlan(job.id)), t, rows)]
    {
      ghost var further := CopyingTables(job, op.next + 1, op.done[t := rows]);
      if job.purpose.Rollback? {
        Proceed(CopyRecord, further);
      } else {
        plans := plans[job.id := Recorded(ReadPlan(job.id), t, rows)];
        op := further;
        Log(CopyRecord);
      }
    }

    // The databases a job copies between, read from its plan.

    function Source(job: Job): Payload
      reads `plans
    {
      if job.purpose.Rollback? then ReadPlan(job.id).destination else ReadPlan(job.id).source
    }

    function Destination(job: Job): Payload
      reads `plans
    {
      if job.purpose.Rollback? then ReadPlan(job.id).source else ReadPlan(job.id).destination
    }

    /** One write to the table being copied. */
    method WriteRows(job: Job, to: Payload, t: Table, rows: Rows)
      requires Valid() && op.CopyingTables? && op.job == job && op.next < |order| && order[op.next] == t
      requires t !in op.done && to == Destination(job)
      modifies `databases, `op, `trace
      ensures Valid() && op == old(op) && trace == Then(old(trace), CopyWrite(rows))
      ensures databases == Put(old(databases), to, Write(t, rows))
    {
      PutTable(to, t, rows, CopyWrite(rows), op);
    }

    /** Clear the table unless the destination was reset, then insert. */
    method FillTable(job: Job, to: Payload, t: Table, clears: bool, rows: Rows)
      requires Valid() && op.CopyingTables? && op.job == job && op.next < |order| && order[op.next] == t
      requires t !in op.done && to == Destination(job)
      modifies `databases, `op, `trace
      ensures Valid() && op == old(op) && Extends(trace, old(trace))
      ensures RowsOf(databases, to, t) == rows && OnlyTable(old(databases), databases, to, t)
    {
      if clears {
        WriteRows(job, to, t, []);
      }
      WriteRows(job, to, t, rows);
    }

    /** `copyTable`: fill, compare the two copies, record. */
    method CopyTable(job: Job, t: Table, clears: bool, stored: Rows) returns (copied: bool)
      requires Valid() && op.CopyingTables? && op.job == job && op.next < |order| && order[op.next] == t
      requires t !in op.done && Source(job) != Destination(job)
      modifies `databases, `op, `plans, `trace
      ensures Valid() && Extends(trace, old(trace)) && OnlyTable(old(databases), databases, old(Destination(job)), t)
      ensures copied <==> stored == RowsOf(old(databases), old(Source(job)), t)
      ensures RowsOf(databases, old(Destination(job)), t) == stored
      ensures copied ==> RowsOf(databases, old(Source(job)), t) == stored
      ensures copied ==> op == CopyingTables(job, old(op).next + 1, old(op).done[t := stored])
      ensures copied && !job.purpose.Rollback? ==>
                plans == old(plans)[job.id := Recorded(old(ReadPlan(job.id)), t, stored)]
      ensures copied && job.purpose.Rollback? ==> plans == old(plans)
      ensures !copied ==> op == old(op) && plans == old(plans)
    {
      FillTable(job, Destination(job), t, clears, stored);
      OtherDatabase(old(databases), databases, Destination(job), Source(job), t);
      copied := RowsOf(databases, Destination(job), t) == RowsOf(databases, Source(job), t);
      if copied {
        RecordTable(job, t, stored);
      }
    }

    /** The first n tables are recorded: with what an earlier copy recorded, or
        with rows now equal in both databases. */
    ghost predicate CopiedSoFar(job: Job, before: map<Table, Rows>, done: map<Table, Rows>, n: nat)
      requires n <= |order|
      reads this
    {
      && (forall j | 0 <= j < n :: order[j] in done)
      && (forall t | t in before :: t in done && done[t] == before[t])
      && (forall t | t in done && t !in before ::
            done[t] == RowsOf(databases, Source(job), t) == RowsOf(databases, Destination(job), t))
    }

    /** The destination stores the rows the source has. */
    ghost predicate StoredAsRead(job: Job, t: Table, c: Conditions)
      reads this
    {
      c.store(t, RowsOf(databases, Source(job), t)) == RowsOf(databases, Source(job), t)
    }

    /** One turn of the copy loop: a table recorded before is skipped. */
    method CopyNext(job: Job, ghost before: map<Table, Rows>, done: map<Table, Rows>, next: nat, clears: bool,
                    c: Conditions) returns (ok: bool, done': map<Table, Rows>)
      requires Valid() && op == CopyingTables(job, next, done) && next < |order|
      requires job.id in plans && Source(job) != Destination(job) && CopiedSoFar(job, before, done, next)
      modifies `databases, `op, `plans, `trace
      ensures Valid() && Extends(trace, old(trace))
      ensures OnlyDatabase(old(databases), databases, Destination(job)) && OnlyRecord(old(plans), plans, job.id)
      ensures ok <==> order[next] in done || (c.throwAt != Some(next) && old(StoredAsRead(job, order[next], c)))
      ensures ok ==> op == CopyingTables(job, next + 1, done') && CopiedSoFar(job, before, done', next + 1)
      ensures ok ==> done'.Keys == done.Keys + {order[next]}
      ensures !ok ==> op == CopyingTables(job, next, done)
    {
      if order[next] in done {
        SkipRecorded(job, done, next);
        return true, done;
      }
      if c.throwAt == Some(next) {
        return false, done;
      }
      ok, done' := CopyUnrecorded(job, before, done, next, clears, c);
    }

    ghost method SkipRecorded(job: Job, done: map<Table, Rows>, next: nat)
      requires Valid() && op == CopyingTables(job, next, done) && next < |order| && order[next] in done
      modifies `op, `trace
      ensures Valid() && op == CopyingTables(job, next + 1, done) && trace == Then(old(trace), CopyRecord)
    {
      Proceed(CopyRecord, CopyingTables(job, next + 1, done));
    }

    method CopyUnrecorded(job: Job, ghost before: map<Table, Rows>, done: map<Table, Rows>, next: nat, clears: bool,
                          c: Conditions) returns (ok: bool, done': map<Table, Rows>)
      requires Valid() && op == CopyingTables(job, next, done) && next < |order| && order[next] !in done
      requires job.id in plans && Source(job) != Destination(job) && CopiedSoFar(job, before, done, next)
      modifies `databases, `op, `plans, `trace
      ensures Valid() && Extends(trace, old(trace))
      ensures OnlyDatabase(old(databases), databases, Destination(job)) && OnlyRecord(old(plans), plans, job.id)
      ensures ok <==> old(StoredAsRead(job, order[next], c))
      ensures ok ==> op == CopyingTables(job, next + 1, done') && CopiedSoFar(job, before, done', next + 1)
      ensures ok ==> done'.Keys == done.Keys + {order[next]}
      ensures !ok ==> op == CopyingTables(job, next, done)
    {
      var t := order[next];
      var rows := c.store(t, RowsOf(databases, Source(job), t));
      ok := CopyTable(job, t, clears, rows);
      done' := if ok then done[t := rows] else done;
      if ok {
        KeptByCopy(job, before, done, old(databases), old(plans), t, next);
      }
    }

    /** Copying a table that was not recorded leaves the recorded ones equal. */
    lemma KeptByCopy(job: Job, before: map<Table, Rows>, done: map<Table, Rows>,
                     disk: Disk, was: map<PlanId, Plan>, t: Table, next: nat)
      requires next < |order| && t == order[next] && t !in done && job.id in was
      requires OnlyRecord(was, plans, job.id) && OnlyTable(disk, databases, Destination(job), t)
      requires Source(job) != Destination(job)
      requires forall j | 0 <= j < next :: order[j] in done
      requires forall u | u in before :: u in done && done[u] == before[u]
      requires forall u | u in done && u !in before ::
                 done[u] == RowsOf(disk, Source(job), u) == RowsOf(disk, Destination(job), u)
      requires RowsOf(databases, Source(job), t) == RowsOf(databases, Destination(job), t)
      ensures CopiedSoFar(job, before, done[t := RowsOf(databases, Source(job), t)], next + 1)
    {
      forall u | u in done && u !in before
        ensures done[u] == RowsOf(databases, Source(job), u) == RowsOf(databases, Destination(job), u)
      {
        OtherDatabase(disk, databases, Destination(job), Source(job), u);
      }
    }

    /** The copy loop. It stops at a table whose copies differ, or where an
        exception is thrown, and completes when there is no such table. */
    method CopyTables(job: Job, completed: map<Table, Rows>, clears: bool, c: Conditions)
      returns (ok: bool, done: map<Table, Rows>)
      requires Valid() && op == CopyingTables(job, 0, completed)
      requires job.id in plans && Source(job) != Destination(job)
      modifies `databases, `op, `plans, `trace
      ensures Valid() && op.CopyingTables? && op.job == job && Extends(trace, old(trace))
      ensures OnlyDatabase(old(databases), databases, Destination(job)) && OnlyRecord(old(plans), plans, job.id)
      ensures ok <==> Copyable(order, |order|, completed, old(databases), old(Source(job)), c)
      ensures ok ==> op == CopyingTables(job, |order|, done) && CopiedSoFar(job, completed, done, |order|)
    {
      done := completed;
      ghost var source := Source(job);
      var next: nat := 0;
      while next < |order|
        invariant next <= |order| && Valid() && op == CopyingTables(job, next, done)
        invariant Extends(trace, old(trace)) && job.id in plans && Source(job) == source != Destination(job)
        invariant OnlyDatabase(old(databases), databases, Destination(job))
        invariant OnlyRecord(old(plans), plans, job.id)
        invariant CopiedSoFar(job, completed, done, next)
        invariant done.Keys == RecordedBy(order, next, completed)
        invariant Copyable(order, next, completed, old(databases), source, c)
      {
        ghost var before := trace;
        TurnDecides(order, next, completed, old(databases), databases, Destination(job), source, c);
        ok, done := CopyNext(job, completed, done, next, clears, c);
        ExtendsTransitive(old(trace), before, trace);
        if !ok {
          return;
        }
        next := next + 1;
      }
      ok := true;
    }

    // -----------------------------------------------------------------
    // verify

    /** What makes verification of one table pass. */
    predicate TableVerifies(job: Job, expected: map<Table, Rows>, t: Table)
      reads this
    {
      var rows := RowsOf(databases, Source(job), t);
      rows == RowsOf(databases, Destination(job), t) && (t in expected ==> expected[t] == rows)
    }

    method CheckNext(job: Job, expected: map<Table, Rows>, next: nat) returns (ok: bool)
      requires Valid() && op == Checking(job, next, expected) && next < |order|
      modifies `op, `trace
      ensures Valid()
      ensures ok <==> TableVerifies(job, expected, order[next])
      ensures if ok then op == Checking(job, next + 1, expected) && trace == Then(old(trace), CheckTable)
              else op == old(op) && trace == old(trace)
    {
      ok := TableVerifies(job, expected, order[next]);
      if ok {
        Proceed(CheckTable, Checking(job, next + 1, expected));
      }
    }

    predicate AllVerify(job: Job, expected: map<Table, Rows>, n: nat)
      requires n <= |order|
      reads this
    {
      forall j | 0 <= j < n :: TableVerifies(job, expected, order[j])
    }

    /** The verification loop: it writes nothing, and passes exactly when every
        table does and no exception is thrown. */
    method CheckTables(job: Job, expected: map<Table, Rows>, c: Conditions) returns (ok: bool)
      requires Valid() && op == Checking(job, 0, expected)
      modifies `op, `trace
      ensures Valid() && Extends(trace, old(trace))
      ensures ok <==> AllVerify(job, expected, |order|) && !c.ThrowsBefore(|order|)
      ensures ok ==> op == Checking(job, |order|, expected)
      ensures !ok ==> op.Checking? && op.job == job
    {
      var next: nat := 0;
      while next < |order|
        invariant next <= |order| && Valid() && op == Checking(job, next, expected) && Extends(trace, old(trace))
        invariant AllVerify(job, expected, next) && !c.ThrowsBefore(next)
      {
        if c.throwAt == Some(next) {
          return false;
        }
        ok := CheckNext(job, expected, next);
        if !ok {
          return;
        }
        next := next + 1;
      }
      ok := true;
    }

    /** The plan is Verified, and its record is every durable table of the source
        as it stands. */
    predicate VerifiedNow(before: map<PlanId, Plan>, id: PlanId)
      reads this
    {
      && SamePlan(before, id)
      && ReadPlan(id).status == Verified && ReadPlan(id).tables.Keys == (set t | t in order)
      && forall t | t in order :: ReadPlan(id).tables[t] == RowsOf(databases, ReadPlan(id).source, t)
    }

    method RecordVerified(job: Job, expected: map<Table, Rows>)
      requires Valid() && op == Checking(job, |order|, expected) && job.purpose.Verify? && job.id in plans
      modifies `plans, `op, `trace
      ensures Valid() && op.Idle? && trace == Then(old(trace), CheckFinish)
      ensures VerifiedNow(old(plans), job.id)
    {
      var plan := ReadPlan(job.id);
      var tables := map t | t in order :: RowsOf(databases, plan.source, t);
      plans := plans[job.id := plan.(status := Verified, tables := tables)];
      op := Idle;
      Log(CheckFinish);
    }

    predicate MayVerify(id: PlanId)
      reads this
    {
      id in plans && ReadPlan(id).status in {Copied, Verified} && fence == Some(id)
    }

    method Verify(pid: Process, id: PlanId, c: Conditions) returns (r: Result<Status, Refusal>)
      requires Valid() && op.Idle? && pid in loaded
      modifies `plans, `op, `trace
      ensures Valid() && op.Idle? && Extends(trace, old(trace))
      ensures r.Ok? <==>
                && old(MayVerify(id)) && !(c.throwAt.Some? && c.throwAt.value < |order|)
                && var plan := old(plans)[id];
                   forall t | t in order ::
                     && RowsOf(databases, plan.source, t) == RowsOf(databases, plan.destination, t)
                     && (t in plan.tables ==> plan.tables[t] == RowsOf(databases, plan.source, t))
      ensures r.Ok? ==> VerifiedNow(old(plans), id)
      ensures r.Err? ==> plans == old(plans)
    {
      if id !in plans {
        return Err(NotFound);
      }
      if ReadPlan(id).status !in {Copied, Verified} {
        return Err(WrongStatus);
      }
      if fence != Some(id) {
        return Err(FenceNotHeld);
      }
      var job := Job(pid, id, Purpose.Verify);
      AllVerifyIs(job, ReadPlan(id).tables);
      var ok := VerifyTables(job, c);
      return if ok then Ok(Verified) else Err(VerificationFailed);
    }

    lemma AllVerifyIs(job: Job, expected: map<Table, Rows>)
      ensures AllVerify(job, expected, |order|) <==>
                forall t | t in order ::
                  && RowsOf(databases, Source(job), t) == RowsOf(databases, Destination(job), t)
                  && (t in expected ==> expected[t] == RowsOf(databases, Source(job), t))
    {
      if AllVerify(job, expected, |order|) {
        forall t | t in order ensures TableVerifies(job, expected, t) {
          var j :| 0 <= j < |order| && order[j] == t;
          assert TableVerifies(job, expected, order[j]);
        }
      } else {
        var j :| 0 <= j < |order| && !TableVerifies(job, expected, order[j]);
        assert order[j] in order;
      }
    }

    method VerifyTables(job: Job, c: Conditions) returns (ok: bool)
      requires Valid() && op.Idle? && job.pid in loaded && job.purpose.Verify? && MayVerify(job.id)
      modifies `plans, `op, `trace
      ensures Valid() && op.Idle? && Extends(trace, old(trace))
      ensures ok <==> old(AllVerify(job, ReadPlan(job.id).tables, |order|)) && !c.ThrowsBefore(|order|)
      ensures ok ==> VerifiedNow(old(plans), job.id)
      ensures !ok ==> plans == old(plans)
    {
      var expected := ReadPlan(job.id).tables;
      StartVerify(job);
      ghost var begun := trace;
      ok := CheckTables(job, expected, c);
      ExtendsTransitive(old(trace), begun, trace);
      if ok {
        RecordVerified(job, expected);
      } else {
        AbandonVerify(job);
      }
    }

    ghost method StartVerify(job: Job)
      requires Valid() && op.Idle? && job.pid in loaded && job.purpose.Verify? && MayVerify(job.id)
      modifies `op, `trace
      ensures Valid() && op == Checking(job, 0, ReadPlan(job.id).tables)
      ensures trace == Then(old(trace), BeginVerify(job.pid, job.id))
    {
      Proceed(BeginVerify(job.pid, job.id), Checking(job, 0, ReadPlan(job.id).tables));
    }

    ghost method AbandonVerify(job: Job)
      requires Valid() && op.Checking? && op.job == job && job.purpose.Verify?
      modifies `op, `trace
      ensures Valid() && op.Idle? && trace == Then(old(trace), Throw)
    {
      Proceed(Throw, Idle);
    }

    // -----------------------------------------------------------------
    // migrate

    /** The status becomes Copying, whatever it was. */
    method StartCopying(job: Job, from: Status)
      requires Valid() && op == Starting(job) && job.purpose == Purpose.Migrate(from)
      modifies `plans, `op, `trace
      ensures Valid() && trace == Then(old(trace), StartCopy)
      ensures ReadPlan(job.id) == old(ReadPlan(job.id)).(status := Copying,
                unbroken := from == Planned || (from == Copying && old(ReadPlan(job.id)).unbroken))
      ensures job.id in plans && plans - {job.id} == old(plans) - {job.id}
      ensures op == if from == Copied || from == Failed then Resetting(job, |order|)
                    else CopyingTables(job, 0, old(ReadPlan(job.id)).tables)
    {
      var plan := ReadPlan(job.id);
      var unbroken := from == Planned || (from == Copying && plan.unbroken);
      plans := plans[job.id := plan.(status := Copying, unbroken := unbroken)];
      op := if from == Copied || from == Failed then Resetting(job, |order|) else CopyingTables(job, 0, plan.tables);
      Log(StartCopy);
    }

    method FinishCopying(job: Job, done: map<Table, Rows>)
      requires Valid() && op == CopyingTables(job, |order|, done) && job.purpose.Migrate?
      modifies `plans, `op, `trace
      ensures Valid() && op.Idle? && trace == Then(old(trace), CopyFinish)
      ensures plans == old(plans)[job.id := old(ReadPlan(job.id)).(status := Copied, tables := done)]
    {
      plans := plans[job.id := ReadPlan(job.id).(status := Copied, tables := done)];
      op := Idle;
      Log(CopyFinish);
    }

    method RecordFailure(job: Job, recorded: bool)
      requires Valid() && op == Failing(job)
      modifies `plans, `op, `trace
      ensures Valid() && op == Releasing(job.pid, job.id)
      ensures trace == Then(old(trace), if recorded then FailRecord else FailSkip)
      ensures plans == if recorded then old(plans)[job.id := old(ReadPlan(job.id)).(status := Status.Failed)]
                       else old(plans)
    {
      if recorded {
        MarkFailed(job);
      } else {
        Proceed(FailSkip, Releasing(job.pid, job.id));
      }
    }

    method MarkFailed(job: Job)
      requires Valid() && op == Failing(job)
      modifies `plans, `op, `trace
      ensures Valid() && op == Releasing(job.pid, job.id) && trace == Then(old(trace), FailRecord)
      ensures plans == old(plans)[job.id := old(ReadPlan(job.id)).(status := Status.Failed)]
    {
      Transition(job.id, Status.Failed, FailRecord, Releasing(job.pid, job.id));
    }

    /** The catch block: record the failure if that succeeds, and release. */
    method FailCopy(job: Job, recorded: bool)
      requires Valid() && op.CopyingTables? && op.job == job && job.purpose.Migrate? && fence == Some(job.id)
      requires job.id in plans
      modifies `plans, `fence, `queues, `op, `trace
      ensures Valid() && op.Idle? && fence == None && job.id in plans && Extends(trace, old(trace))
      ensures trace == Released(Then(Then(old(trace), Throw), if recorded then FailRecord else FailSkip), true)
      ensures ReadPlan(job.id) == old(ReadPlan(job.id)).(unbroken := false,
                status := if recorded then Status.Failed else old(ReadPlan(job.id)).status)
      ensures plans - {job.id} == old(plans) - {job.id}
    {
      Proceed(Throw, Failing(job));
      RecordFailure(job, recorded);
      assert Extends(trace, old(trace));
      var released := ReleaseFence(job.id);
    }

    /** The plan keeps its two databases, and no other plan differs. */
    predicate SamePlan(before: map<PlanId, Plan>, id: PlanId)
      reads `plans
    {
      && id in before && id in plans && plans - {id} == before - {id}
      && plans[id].source == before[id].source && plans[id].destination == before[id].destination
    }

    /** What a copy restarted from this status takes as already done. */
    function Completed(id: PlanId, from: Status): map<Table, Rows>
      reads `plans
    {
      if from == Copied || from == Failed then map[] else ReadPlan(id).tables
    }

    method PrepareCopy(job: Job, from: Status)
      requires Valid() && op == Starting(job) && job.purpose == Purpose.Migrate(from) && job.id in plans
      modifies `plans, `databases, `op, `trace
      ensures Valid() && op == CopyingTables(job, 0, old(Completed(job.id, from))) && Extends(trace, old(trace))
      ensures OnlyDatabase(old(databases), databases, Destination(job))
      ensures SamePlan(old(plans), job.id) && ReadPlan(job.id).status == Copying
    {
      StartCopying(job, from);
      if from == Copied || from == Failed {
        ghost var before := trace;
        ResetDestination(job, Destination(job));
        ExtendsTransitive(old(trace), before, trace);
      }
    }

    method EndCopy(job: Job, ok: bool, done: map<Table, Rows>, recorded: bool)
      requires Valid() && op.CopyingTables? && op.job == job && job.purpose.Migrate? && fence == Some(job.id)
      requires job.id in plans && (ok ==> op == CopyingTables(job, |order|, done))
      modifies `plans, `fence, `queues, `op, `trace
      ensures Valid() && op.Idle? && Extends(trace, old(trace)) && SamePlan(old(plans), job.id)
      ensures ok ==> fence == Some(job.id) && ReadPlan(job.id).status == Copied && ReadPlan(job.id).tables == done
      ensures !ok ==> fence == None && !ReadPlan(job.id).unbroken
      ensures !ok ==> ReadPlan(job.id).status == if recorded then Status.Failed else old(ReadPlan(job.id)).status
    {
      if ok {
        FinishCopying(job, done);
      } else {
        FailCopy(job, recorded);
      }
    }

    /** From the start of the copy to its end, inside the try block. */
    method MigrateTables(job: Job, from: Status, c: Conditions) returns (ok: bool)
      requires Valid() && op == Starting(job) && job.purpose == Purpose.Migrate(from) && fence == Some(job.id)
      requires job.id in plans && ReadPlan(job.id).source != ReadPlan(job.id).destination
      modifies `plans, `databases, `fence, `queues, `op, `trace
      ensures Valid() && op.Idle? && Extends(trace, old(trace)) && SamePlan(old(plans), job.id)
      ensures OnlyDatabase(old(databases), databases, Destination(job))
      ensures ok <==> Copyable(order, |order|, old(Completed(job.id, from)), old(databases), old(Source(job)), c)
      ensures ok ==> fence == Some(job.id) && ReadPlan(job.id).status == Copied
      ensures ok ==> CopiedSoFar(job, old(Completed(job.id, from)), ReadPlan(job.id).tables, |order|)
      ensures !ok ==> fence == None && !ReadPlan(job.id).unbroken
      ensures !ok ==> ReadPlan(job.id).status == if c.failureIsRecorded then Status.Failed else Copying
    {
      var done;
      ok, done := PrepareAndCopy(job, from, c);
      ghost var copied := trace;
      EndCopy(job, ok, done, c.failureIsRecorded);
      ExtendsTransitive(old(trace), copied, trace);
    }

    method PrepareAndCopy(job: Job, from: Status, c: Conditions) returns (ok: bool, done: map<Table, Rows>)
      requires Valid() && op == Starting(job) && job.purpose == Purpose.Migrate(from)
      requires job.id in plans && ReadPlan(job.id).source != ReadPlan(job.id).destination
      modifies `plans, `databases, `op, `trace
      ensures Valid() && Extends(trace, old(trace)) && op.CopyingTables? && op.job == job
      ensures SamePlan(old(plans), job.id) && OnlyDatabase(old(databases), databases, Destination(job))
      ensures ReadPlan(job.id).status == Copying
      ensures ok <==> Copyable(order, |order|, old(Completed(job.id, from)), old(databases), old(Source(job)), c)
      ensures ok ==> op == CopyingTables(job, |order|, done)
      ensures ok ==> CopiedSoFar(job, old(Completed(job.id, from)), done, |order|)
    {
      var completed := Completed(job.id, from);
      PrepareCopy(job, from);
      ghost var prepared := trace;
      CopyableStays(order, completed, old(databases), databases, Destination(job), Source(job), c);
      ok, done := CopyTables(job, completed, !(from == Copied || from == Failed), c);
      ExtendsTransitive(old(trace), prepared, trace);
    }

    predicate MayMigrate(pid: Process, id: PlanId)
      reads this
    {
      id in plans && ReadPlan(id).status in {Planned, Copying, Copied, Failed} && RunsOn(pid, ReadPlan(id).source)
    }

    /** The status a migration that failed leaves: the one it found when it never
        got to the copy. */
    predicate FailedWith(error: Refusal, from: Status, id: PlanId, c: Conditions)
      reads `plans
    {
      ReadPlan(id).status ==
        if error != CopyFailed then from else if c.failureIsRecorded then Status.Failed else Copying
    }

    /** `migrate`: it succeeds exactly when the plan may be migrated, the fence is
        free or its own, the drain passes, and every table still to be copied is
        stored as the source has it, nothing being thrown. */
    method Migrate(pid: Process, id: PlanId, c: Conditions) returns (r: Result<Status, Refusal>)
      requires Valid() && op.Idle? && (c.drain.Empties? ==> running == {} && queues.waiting == 0)
      requires id in plans ==> ReadPlan(id).source != ReadPlan(id).destination
      modifies `plans, `databases, `fence, `queues, `op, `trace
      ensures Valid() && op.Idle? && Extends(trace, old(trace))
      ensures old(MayMigrate(pid, id)) ==>
                var plan := old(plans)[id];
                var recorded := if plan.status in {Copied, Status.Failed} then map[] else plan.tables;
                && SamePlan(old(plans), id) && OnlyDatabase(old(databases), databases, plan.destination)
                && r == (if old(fence).Some? && old(fence) != Some(id) then Err(FenceHeldByOther)
                         else if !c.drain.Empties? then Err(DrainFailed)
                         else if Copyable(order, |order|, recorded, old(databases), plan.source, c)
                         then Ok(Copied) else Err(CopyFailed))
      ensures r.Ok? ==> old(MayMigrate(pid, id)) && fence == Some(id) && ReadPlan(id).status == Copied
      ensures r.Err? && r != Err(CopyFailed) ==> databases == old(databases)
      ensures r.Ok? ==> CopiedSoFar(Job(pid, id, Purpose.Migrate(old(ReadPlan(id)).status)),
                                    old(Completed(id, ReadPlan(id).status)),
                                    ReadPlan(id).tables, |order|)
      ensures !old(MayMigrate(pid, id)) ==> r.Err? && View() == old(View())
      ensures r.Err? && old(MayMigrate(pid, id)) ==>
                fence == if old(fence).Some? && old(fence) != Some(id) then old(fence) else None
      ensures r.Err? && old(MayMigrate(pid, id)) ==> FailedWith(r.error, old(ReadPlan(id)).status, id, c)
    {
      if id !in plans {
        return Err(NotFound);
      }
      var from := ReadPlan(id).status;
      if from !in {Planned, Copying, Copied, Failed} {
        return Err(WrongStatus);
      }
      if !RunsOn(pid, ReadPlan(id).source) {
        return Err(SourceChanged);
      }
      var job := Job(pid, id, Purpose.Migrate(from));
      r := EngageAndCopy(job, from, c);
    }

    method EngageAndCopy(job: Job, from: Status, c: Conditions) returns (r: Result<Status, Refusal>)
      requires Valid() && op.Idle? && (c.drain.Empties? ==> running == {} && queues.waiting == 0)
      requires MayMigrate(job.pid, job.id) && from == ReadPlan(job.id).status && job.purpose == Purpose.Migrate(from)
      requires ReadPlan(job.id).source != ReadPlan(job.id).destination
      modifies `plans, `databases, `fence, `queues, `op, `trace
      ensures Valid() && op.Idle? && Extends(trace, old(trace))
      ensures r == if old(fence).Some? && old(fence) != Some(job.id) then Err(FenceHeldByOther)
                   else if !c.drain.Empties? then Err(DrainFailed)
                   else if Copyable(order, |order|, old(Completed(job.id, from)), old(databases), old(Source(job)), c)
                   then Ok(Copied) else Err(CopyFailed)
      ensures r.Ok? ==> fence == Some(job.id) && ReadPlan(job.id).status == Copied
      ensures SamePlan(old(plans), job.id) && OnlyDatabase(old(databases), databases, Destination(job))
      ensures r.Err? && r != Err(CopyFailed) ==> databases == old(databases)
      ensures r.Ok? ==> CopiedSoFar(job, old(Completed(job.id, from)), ReadPlan(job.id).tables, |order|)
      ensures r.Err? ==> fence == if old(fence).Some? && old(fence) != Some(job.id) then old(fence) else None
      ensures r.Err? ==> FailedWith(r.error, from, job.id, c)
    {
      Proceed(BeginMigrate(job.pid, job.id), Engaging(job));
      ghost var begun := trace;
      var engaged := Engage(job, c.drain);
      ExtendsTransitive(old(trace), begun, trace);
      if engaged.Err? {
        return Err(engaged.error);
      }
      ghost var drained := trace;
      var ok := MigrateTables(job, from, c);
      ExtendsTransitive(old(trace), drained, trace);
      return if ok then Ok(Copied) else Err(CopyFailed);
    }

    // -----------------------------------------------------------------
    // rollback

    method RecordRollback(job: Job, ghost expected: map<Table, Rows>)
      requires Valid() && op == Checking(job, |order|, expected) && job.purpose.Rollback?
      modifies `plans, `op, `trace
      ensures Valid() && trace == Then(old(trace), CheckFinish)
      ensures op == Configuring(job.pid, job.id, ReadPlan(job.id).source)
      ensures plans == old(plans)[job.id := old(ReadPlan(job.id)).(status := RollbackPendingRestart)]
    {
      plans := plans[job.id := ReadPlan(job.id).(status := RollbackPendingRestart)];
      op := Configuring(job.pid, job.id, ReadPlan(job.id).source);
      Log(CheckFinish);
    }

    /** The catch block of a rollback copy: release, and keep the status. */
    method FailRollback(job: Job)
      requires Valid() && (op.CopyingTables? || op.Checking?) && op.job == job && job.purpose.Rollback?
      requires fence == Some(job.id) && job.id in plans
      modifies `plans, `fence, `queues, `op, `trace
      ensures Valid() && op.Idle? && fence == None && trace == Released(Then(old(trace), Throw), true)
      ensures Extends(trace, old(trace))
      ensures plans == old(plans)[job.id := old(ReadPlan(job.id)).(unbroken := false)]
    {
      Proceed(Throw, Releasing(job.pid, job.id));
      ghost var thrown := trace;
      var released := ReleaseFence(job.id);
      ReleasedExtends(thrown, true);
      ExtendsTransitive(old(trace), thrown, trace);
    }

    /** Reset the source, copy everything back into it. */
    method CopyBack(job: Job, c: Conditions) returns (ok: bool, done: map<Table, Rows>)
      requires Valid() && op == Resetting(job, |order|) && job.purpose.Rollback? && job.id in plans
      requires Source(job) != Destination(job)
      modifies `plans, `databases, `op, `trace
      ensures Valid() && Extends(trace, old(trace)) && op.CopyingTables? && op.job == job
      ensures OnlyDatabase(old(databases), databases, Destination(job)) && OnlyRecord(old(plans), plans, job.id)
      ensures ok <==> Copyable(order, |order|, map[], old(databases), old(Source(job)), c)
      ensures ok ==> op == CopyingTables(job, |order|, done) && CopiedSoFar(job, map[], done, |order|)
    {
      ResetDestination(job, Destination(job));
      ghost var reset := trace;
      CopyableStays(order, map[], old(databases), databases, Destination(job), Source(job), c);
      ok, done := CopyTables(job, map[], false, c);
      ExtendsTransitive(old(trace), reset, trace);
    }

    lemma CopiedVerifies(job: Job, done: map<Table, Rows>)
      requires CopiedSoFar(job, map[], done, |order|)
      ensures AllVerify(job, done, |order|)
      ensures forall t | t in order ::
                RowsOf(databases, Source(job), t) == RowsOf(databases, Destination(job), t)
    {
      assert forall j | 0 <= j < |order| :: TableVerifies(job, done, order[j]);
    }

    /** The copy, checked once more against the record it made. */
    method RollbackTables(job: Job, c: Conditions) returns (ok: bool)
      requires Valid() && op == Resetting(job, |order|) && job.purpose.Rollback? && job.id in plans
      requires Source(job) != Destination(job)
      modifies `plans, `databases, `op, `trace
      ensures Valid() && Extends(trace, old(trace)) && (op.CopyingTables? || op.Checking?) && op.job == job
      ensures OnlyDatabase(old(databases), databases, Destination(job)) && OnlyRecord(old(plans), plans, job.id)
      ensures ok <==> CopyableBack(order, old(databases), old(Source(job)), c)
      ensures ok ==> op.Checking? && op.next == |order|
      ensures ok ==> forall t | t in order ::
                       RowsOf(databases, Source(job), t) == RowsOf(databases, Destination(job), t)
    {
      var done;
      CopyableBackIs(order, databases, Source(job), c);
      ok, done := CopyBack(job, c);
      if !ok {
        return;
      }
      ghost var copied := trace;
      ok := CheckBack(job, done, c);
      ExtendsTransitive(old(trace), copied, trace);
    }

    method CheckBack(job: Job, done: map<Table, Rows>, c: Conditions) returns (ok: bool)
      requires Valid() && op == CopyingTables(job, |order|, done) && job.purpose.Rollback?
      requires CopiedSoFar(job, map[], done, |order|)
      modifies `op, `trace
      ensures Valid() && Extends(trace, old(trace)) && op.Checking? && op.job == job
      ensures ok <==> !c.ThrowsBefore(|order|)
      ensures ok ==> op.next == |order|
      ensures forall t | t in order :: RowsOf(databases, Source(job), t) == RowsOf(databases, Destination(job), t)
    {
      CopiedVerifies(job, done);
      Proceed(CopyFinish, Checking(job, 0, done));
      ghost var begun := trace;
      ok := CheckTables(job, done, c);
      ExtendsTransitive(old(trace), begun, trace);
    }

    predicate MayStartRollback(pid: Process, id: PlanId)
      reads this
    {
      id in plans && ReadPlan(id).status == Active && RunsOn(pid, ReadPlan(id).destination)
    }

    predicate MayRepeatRollback(pid: Process, id: PlanId)
      reads this
    {
      id in plans && ReadPlan(id).status == RollbackPendingRestart && fence == Some(id)
    }

    /** `rollback`, not finalizing: from Active the destination is copied back and
        checked; once pending, only the configuration is written again. */
    method RollBack(pid: Process, id: PlanId, c: Conditions) returns (r: Result<Status, Refusal>)
      requires Valid() && op.Idle? && (c.drain.Empties? ==> running == {} && queues.waiting == 0)
      requires id in plans ==> ReadPlan(id).source != ReadPlan(id).destination
      modifies `plans, `databases, `fence, `queues, `file, `op, `trace
      ensures Valid() && op.Idle? && Extends(trace, old(trace))
      ensures old(MayRepeatRollback(pid, id)) ==>
                && plans == old(plans) && databases == old(databases) && fence == old(fence) && queues == old(queues)
                && file == (if RunsOn(pid, ReadPlan(id).destination) && !RunsOn(pid, ReadPlan(id).source)
                            then ReadPlan(id).source else old(file))
                && (r.Ok? <==> RunsOn(pid, ReadPlan(id).source) || RunsOn(pid, ReadPlan(id).destination))
      ensures old(MayStartRollback(pid, id)) ==>
                var plan := old(plans)[id];
                && SamePlan(old(plans), id) && OnlyDatabase(old(databases), databases, plan.source)
                && r == (if old(fence).Some? && old(fence) != Some(id) then Err(FenceHeldByOther)
                         else if !c.drain.Empties? then Err(DrainFailed)
                         else if CopyableBack(order, old(databases), plan.destination, c)
                         then Ok(RollbackPendingRestart) else Err(CopyFailed))
      ensures old(MayStartRollback(pid, id)) && r.Err? ==>
                && ReadPlan(id).status == Active && (r != Err(CopyFailed) ==> databases == old(databases))
                && fence == if old(fence).Some? && old(fence) != Some(id) then old(fence) else None
      ensures !old(MayStartRollback(pid, id)) && !old(MayRepeatRollback(pid, id)) ==> r.Err? && View() == old(View())
      ensures r.Ok? ==> ReadPlan(id).status == RollbackPendingRestart && fence == Some(id)
      ensures r.Ok? && old(MayStartRollback(pid, id)) ==>
                && file == ReadPlan(id).source
                && forall t | t in order ::
                     RowsOf(databases, ReadPlan(id).source, t) == RowsOf(databases, ReadPlan(id).destination, t)
      ensures r.Err? ==> file == old(file)
    {
      if id !in plans {
        return Err(NotFound);
      }
      var plan := ReadPlan(id);
      if plan.status == RollbackPendingRestart {
        if fence != Some(id) {
          return Err(FenceNotHeld);
        }
        if RunsOn(pid, plan.source) {
          return Ok(RollbackPendingRestart);
        }
        if !RunsOn(pid, plan.destination) {
          return Err(SourceChanged);
        }
        Proceed(BeginRollback(pid, id), Configuring(pid, id, plan.source));
        WriteActiveConfiguration(plan.source);
        return Ok(RollbackPendingRestart);
      }
      if plan.status != Active {
        return Err(WrongStatus);
      }
      if !RunsOn(pid, plan.destination) {
        return Err(SourceChanged);
      }
      r := EngageAndRollBack(Job(pid, id, Purpose.Rollback), c);
    }

    method EngageAndRollBack(job: Job, c: Conditions) returns (r: Result<Status, Refusal>)
      requires Valid() && op.Idle? && job.purpose.Rollback?
      requires c.drain.Empties? ==> running == {} && queues.waiting == 0
      requires MayStartRollback(job.pid, job.id) && Source(job) != Destination(job)
      modifies `plans, `databases, `fence, `queues, `file, `op, `trace
      ensures Valid() && op.Idle? && Extends(trace, old(trace))
      ensures r == if old(fence).Some? && old(fence) != Some(job.id) then Err(FenceHeldByOther)
                   else if !c.drain.Empties? then Err(DrainFailed)
                   else if CopyableBack(order, old(databases), old(Source(job)), c)
                   then Ok(RollbackPendingRestart) else Err(CopyFailed)
      ensures SamePlan(old(plans), job.id) && OnlyDatabase(old(databases), databases, Destination(job))
      ensures r.Ok? ==> ReadPlan(job.id).status == RollbackPendingRestart && fence == Some(job.id)
      ensures r.Ok? ==> file == Destination(job)
      ensures r.Err? ==> && ReadPlan(job.id).status == Active && (r != Err(CopyFailed) ==> databases == old(databases))
                         && fence == if old(fence).Some? && old(fence) != Some(job.id) then old(fence) else None
      ensures r.Ok? ==> forall t | t in order ::
                          RowsOf(databases, Destination(job), t) == RowsOf(databases, Source(job), t)
      ensures r.Err? ==> file == old(file)
    {
      Proceed(BeginRollback(job.pid, job.id), Engaging(job));
      ghost var begun := trace;
      var engaged := Engage(job, c.drain);
      ExtendsTransitive(old(trace), begun, trace);
      if engaged.Err? {
        return Err(engaged.error);
      }
      ghost var drained := trace;
      var ok := RollBackEngaged(job, c);
      ExtendsTransitive(old(trace), drained, trace);
      return if ok then Ok(RollbackPendingRestart) else Err(CopyFailed);
    }

    /** Inside the try block, the fence being held and drained. */
    method RollBackEngaged(job: Job, c: Conditions) returns (ok: bool)
      requires Valid() && op == Resetting(job, |order|) && job.purpose.Rollback? && job.id in plans
      requires fence == Some(job.id) && Source(job) != Destination(job)
      modifies `plans, `databases, `fence, `queues, `file, `op, `trace
      ensures Valid() && op.Idle? && Extends(trace, old(trace))
      ensures ok <==> CopyableBack(order, old(databases), old(Source(job)), c)
      ensures SamePlan(old(plans), job.id) && OnlyDatabase(old(databases), databases, Destination(job))
      ensures ok ==> ReadPlan(job.id).status == RollbackPendingRestart && fence == old(fence)
      ensures ok ==> file == Destination(job)
      ensures ok ==> forall t | t in order ::
                       RowsOf(databases, Destination(job), t) == RowsOf(databases, Source(job), t)
      ensures !ok ==> file == old(file) && fence == None && ReadPlan(job.id).status == old(ReadPlan(job.id)).status
    {
      ok := RollbackTables(job, c);
      ghost var checked := trace;
      EndRollback(job, ok);
      ExtendsTransitive(old(trace), checked, trace);
    }

    method EndRollback(job: Job, ok: bool)
      requires Valid() && (op.CopyingTables? || op.Checking?) && op.job == job && job.purpose.Rollback?
      requires fence == Some(job.id) && job.id in plans && (ok ==> op.Checking? && op.next == |order|)
      modifies `plans, `fence, `queues, `file, `op, `trace
      ensures Valid() && op.Idle? && Extends(trace, old(trace)) && SamePlan(old(plans), job.id)
      ensures ok ==> ReadPlan(job.id).status == RollbackPendingRestart && fence == old(fence)
      ensures ok ==> file == ReadPlan(job.id).source
      ensures !ok ==> file == old(file) && fence == None && ReadPlan(job.id).status == old(ReadPlan(job.id)).status
    {
      if ok {
        FinishRollback(job);
      } else {
        FailRollback(job);
      }
    }

    method FinishRollback(job: Job)
      requires Valid() && op.Checking? && op.job == job && op.next == |order|
      requires job.purpose.Rollback? && job.id in plans
      modifies `plans, `file, `op, `trace
      ensures Valid() && op.Idle? && file == ReadPlan(job.id).source
      ensures trace == Then(Then(old(trace), CheckFinish), WriteConfiguration)
      ensures plans == old(plans)[job.id := old(ReadPlan(job.id)).(status := RollbackPendingRestart)]
    {
      RecordRollback(job, op.expected);
      WriteActiveConfiguration(ReadPlan(job.id).source);
    }

    predicate MayFinalizeRollback(pid: Process, id: PlanId)
      reads this
    {
      var plan := ReadPlan(id);
      id in plans && pid in loaded
      && (plan.status == RolledBack || (plan.status == RollbackPendingRestart && RunsOn(pid, plan.source)))
    }

    /** `rollback --finalize`. */
    method FinalizeRollBack(pid: Process, id: PlanId) returns (r: Result<Status, Refusal>)
      requires Valid() && op.Idle? && pid in loaded
      modifies `plans, `fence, `queues, `op, `trace
      ensures Valid() && op.Idle?
      ensures old(MayFinalizeRollback(pid, id)) ==>
                && trace == Released(Then(old(trace), FinalizeRollback(pid, id)), fence == None)
                && ReadPlan(id).status == RolledBack
                && fence == (if old(fence) == Some(id) then None else old(fence))
                && (r.Ok? <==> fence == None)
      ensures !old(MayFinalizeRollback(pid, id)) ==> r.Err? && View() == old(View()) && trace == old(trace)
    {
      if id !in plans {
        return Err(NotFound);
      }
      var plan := ReadPlan(id);
      if plan.status == RolledBack {
        Proceed(FinalizeRollback(pid, id), Releasing(pid, id));
      } else {
        if plan.status != RollbackPendingRestart {
          return Err(WrongStatus);
        }
        if !RunsOn(pid, plan.source) {
          return Err(NotRestarted);
        }
        Transition(id, RolledBack, FinalizeRollback(pid, id), Releasing(pid, id));
      }
      var released := ReleaseFence(id);
      return if released then Ok(RolledBack) else Err(FenceHeldByOther);
    }
  }
}
