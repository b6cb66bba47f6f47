/**
  The fenced control-database migration as a state machine.

  One step is one persisted write (a plan file, the plan pointer, the fence
  file, the configuration file, one table of one database), or one purely
  volatile decision of the command that holds the operation lock. Steps of
  application processes and of scheduled mutations may fall between any two of
  them, and so may a crash.

  Next is total: a step that is not enabled leaves the state as it is, so a run
  is any list of steps.
*/
module MigrationProtocol {
  import opened Base

  /** A configuration payload. Fingerprints are taken to be injective, so a
      payload also stands for its fingerprint and for the database it names. */
  type Payload = nat
  type Process = nat
  type PlanId = nat
  type Table = string

  /** The canonical rows of one table, in key order. */
  type Rows = seq<string>
  type Database = map<Table, Rows>
  type Disk = map<Payload, Database>

  datatype Status =
    | Planned
    | Copying
    | Copied
    | Verified
    | ActivationPendingRestart
    | Active
    | RollbackPendingRestart
    | RolledBack
    | Failed
    | Cancelled

  predicate Terminal(status: Status) {
    status in {Active, RolledBack, Cancelled}
  }

  /** From which `migrate` may be given. */
  predicate Migratable(status: Status) {
    status in {Planned, Copying, Copied, Failed}
  }

  /** `tables` is the persisted record of verified tables. `unbroken` is
      history, not data: the copy began from Planned and the fence has been
      held ever since. */
  datatype Plan = Plan(
    status: Status,
    source: Payload,
    destination: Payload,
    tables: map<Table, Rows>,
    unbroken: bool)

  datatype Purpose = Migrate(from: Status) | Rollback | Verify

  /** A long operation: the process running it, its plan and what it is for. */
  datatype Job = Job(pid: Process, id: PlanId, purpose: Purpose)

  /** Where the command holding the operation lock stands. */
  datatype Operation =
    | Idle
    | Pointing(pid: Process, id: PlanId)
    | Engaging(job: Job)
    | Draining(job: Job)
    | Starting(job: Job)
    | Resetting(job: Job, left: nat)
    | CopyingTables(job: Job, next: nat, done: map<Table, Rows>)
    | Checking(job: Job, next: nat, expected: map<Table, Rows>)
    | Failing(job: Job)
    | Releasing(pid: Process, id: PlanId)
    | Configuring(pid: Process, id: PlanId, payload: Payload)
    | Cancelling(pid: Process, id: PlanId)
    | RecordingCancel(pid: Process, id: PlanId)
    | Unpointing(pid: Process, id: PlanId)

  datatype Write = Write(table: Table, rows: Rows)

  /** The job queues: how many jobs wait, whether the queues are paused, and how
      many more jobs are being pushed by those who looked while the fence was free. */
  datatype Queues = Queues(waiting: nat, paused: bool, pushing: nat)

  /** No job can start, whoever is still pushing one. */
  predicate NoneMayStart(queues: Queues) {
    queues.paused || (queues.waiting == 0 && queues.pushing == 0)
  }

  /** `order` is the list of durable tables, referenced tables first. `loaded`
      is the configuration each live process read when it booted. `running` are
      the processes inside a scheduled mutation that was admitted while the
      fence was free, or inside a job whose queueing was. `committed` is
      history: every application write so far. */
  datatype State = State(
    order: seq<Table>,
    plans: map<PlanId, Plan>,
    current: Option<PlanId>,
    fence: Option<PlanId>,
    file: Payload,
    databases: Disk,
    loaded: map<Process, Payload>,
    running: set<Process>,
    queues: Queues,
    op: Operation,
    committed: seq<Write>)

  datatype Step =
    // Processes and application writes
    | Restart(p: Process)
    | Crash
    | AppWrite(p: Process, write: Write)
    | MutationBegin(p: Process)
    | MutationWrite(p: Process, write: Write)
    | MutationEnd(p: Process)
    | JobLook
    | JobPush
    | JobBegin(p: Process)
    | JobRetried(p: Process)
    // Commands: the checks made before the first write
    | PlanFile(p: Process, id: PlanId, destination: Payload)
    | BeginMigrate(p: Process, id: PlanId)
    | BeginVerify(p: Process, id: PlanId)
    | BeginActivate(p: Process, id: PlanId)
    | FinalizeActivation(p: Process, id: PlanId)
    | BeginRollback(p: Process, id: PlanId)
    | FinalizeRollback(p: Process, id: PlanId)
    | BeginCancel(p: Process, id: PlanId)
    // Progress of the running command
    | PlanPointer
    | Engage
    | PauseQueues
    | DrainDone
    | DrainFail
    | StartCopy
    | ResetTable
    | ResetDone
    | CopyWrite(rows: Rows)
    | CopyRecord
    | CopyFinish
    | CheckTable
    | CheckFinish
    | Throw
    | FailRecord
    | FailSkip
    | ResumeQueues
    | Release
    | WriteConfiguration
    | CancelRelease
    | CancelRecord
    | CancelUnpoint

  /** An id without a plan file reads as a plan that allows nothing. */
  function PlanOf(s: State, id: PlanId): Plan {
    if id in s.plans then s.plans[id] else Plan(Cancelled, 0, 0, map[], false)
  }

  function RowsOf(disk: Disk, payload: Payload, table: Table): Rows {
    if payload in disk && table in disk[payload] then disk[payload][table] else []
  }

  function Put(disk: Disk, payload: Payload, write: Write): Disk {
    var database := if payload in disk then disk[payload] else map[];
    disk[payload := database[write.table := write.rows]]
  }

  function PutRows(s: State, payload: Payload, write: Write): State {
    s.(databases := Put(s.databases, payload, write))
  }

  /** A command finishes, normally or with an exception. */
  function Done(s: State): State {
    s.(op := Idle)
  }

  function WithStatus(s: State, id: PlanId, status: Status): State {
    s.(plans := s.plans[id := PlanOf(s, id).(status := status)])
  }

  /** The two databases of a copy; a rollback copies the other way. */
  function From(s: State, job: Job): Payload {
    if job.purpose.Rollback? then PlanOf(s, job.id).destination else PlanOf(s, job.id).source
  }

  function To(s: State, job: Job): Payload {
    if job.purpose.Rollback? then PlanOf(s, job.id).source else PlanOf(s, job.id).destination
  }

  predicate HasLoaded(s: State, p: Process, payload: Payload) {
    p in s.loaded && s.loaded[p] == payload
  }

  /** The process a command runs in. */
  function Runner(op: Operation): Process {
    match op
    case Idle => 0
    case Pointing(pid, _) => pid
    case Engaging(job) => job.pid
    case Draining(job) => job.pid
    case Starting(job) => job.pid
    case Resetting(job, _) => job.pid
    case CopyingTables(job, _, _) => job.pid
    case Checking(job, _, _) => job.pid
    case Failing(job) => job.pid
    case Releasing(pid, _) => pid
    case Configuring(pid, _, _) => pid
    case Cancelling(pid, _) => pid
    case RecordingCancel(pid, _) => pid
    case Unpointing(pid, _) => pid
  }

  // ---------------------------------------------------------------------
  // Processes and application writes

  /** A process (re)boots: it reads the configuration file, and whatever it was
      doing is gone. */
  function RestartStep(s: State, p: Process): State {
    s.(loaded := s.loaded[p := s.file],
       running := s.running - {p},
       op := if Runner(s.op) == p then Idle else s.op)
  }

  function ApplyWrite(s: State, p: Process, write: Write): State
    requires p in s.loaded
  {
    PutRows(s, s.loaded[p], write).(committed := s.committed + [write])
  }

  function AppWriteStep(s: State, p: Process, write: Write): State {
    if p in s.loaded && s.fence.None? then ApplyWrite(s, p, write) else s
  }

  function MutationBeginStep(s: State, p: Process): State {
    if p in s.loaded && s.fence.None? then s.(running := s.running + {p}) else s
  }

  function MutationWriteStep(s: State, p: Process, write: Write): State {
    if p in s.loaded && p in s.running then ApplyWrite(s, p, write) else s
  }

  /** Whoever queues a job looks at the fence first, and goes no further while it
      is up. */
  function JobLookStep(s: State): State {
    if s.fence.None? then s.(queues := s.queues.(pushing := s.queues.pushing + 1)) else s
  }

  /** The push does not look again. */
  function JobPushStep(s: State): State {
    if s.queues.pushing > 0
    then s.(queues := s.queues.(pushing := s.queues.pushing - 1, waiting := s.queues.waiting + 1))
    else s
  }

  /** A waiting job starts whether or not the fence is up, unless its queue is
      paused. It then writes and ends like a mutation. */
  function JobBeginStep(s: State, p: Process): State {
    if p in s.loaded && p !in s.running && s.queues.waiting > 0 && !s.queues.paused
    then s.(running := s.running + {p}, queues := s.queues.(waiting := s.queues.waiting - 1))
    else s
  }

  /** A job that throws goes back to its queue; the fence does not stop that. */
  function JobRetriedStep(s: State, p: Process): State {
    if p in s.running
    then s.(running := s.running - {p}, queues := s.queues.(waiting := s.queues.waiting + 1))
    else s
  }

  // ---------------------------------------------------------------------
  // Commands

  function PlanFileStep(s: State, p: Process, id: PlanId, destination: Payload): State {
    if s.op.Idle? && p in s.loaded && id !in s.plans && s.loaded[p] != destination
       && (forall t | t in s.order :: RowsOf(s.databases, destination, t) == [])
       && (s.current.None? || Terminal(PlanOf(s, s.current.value).status))
    then s.(plans := s.plans[id := Plan(Planned, s.loaded[p], destination, map[], false)],
            op := Pointing(p, id))
    else s
  }

  function PlanPointerStep(s: State): State {
    if s.op.Pointing? then s.(current := Some(s.op.id), op := Idle) else s
  }

  function BeginMigrateStep(s: State, p: Process, id: PlanId): State {
    var plan := PlanOf(s, id);
    if s.op.Idle? && id in s.plans && plan.status in {Planned, Copying, Copied, Failed}
       && HasLoaded(s, p, plan.source)
    then s.(op := Engaging(Job(p, id, Migrate(plan.status))))
    else s
  }

  function BeginVerifyStep(s: State, p: Process, id: PlanId): State {
    var plan := PlanOf(s, id);
    if s.op.Idle? && id in s.plans && p in s.loaded && plan.status in {Copied, Verified}
       && s.fence == Some(id)
    then s.(op := Checking(Job(p, id, Verify), 0, plan.tables))
    else s
  }

  /** `activate` without --finalize. */
  function BeginActivateStep(s: State, p: Process, id: PlanId): State {
    var plan := PlanOf(s, id);
    if s.op.Idle? && id in s.plans && s.fence == Some(id)
       && plan.status in {Verified, ActivationPendingRestart} && HasLoaded(s, p, plan.source)
    then WithStatus(s, id, ActivationPendingRestart).(op := Configuring(p, id, plan.destination))
    else s
  }

  function FinalizeActivationStep(s: State, p: Process, id: PlanId): State {
    var plan := PlanOf(s, id);
    if !(s.op.Idle? && id in s.plans && p in s.loaded) then s
    else if plan.status == Active then s.(op := Releasing(p, id))
    else if s.fence == Some(id) && plan.status == ActivationPendingRestart
            && HasLoaded(s, p, plan.destination)
    then WithStatus(s, id, Active).(op := Releasing(p, id))
    else s
  }

  /** `rollback` without --finalize. */
  function BeginRollbackStep(s: State, p: Process, id: PlanId): State {
    var plan := PlanOf(s, id);
    if !(s.op.Idle? && id in s.plans && HasLoaded(s, p, plan.destination)) then s
    else if plan.status == Active then s.(op := Engaging(Job(p, id, Rollback)))
    else if plan.status == RollbackPendingRestart && s.fence == Some(id)
    then s.(op := Configuring(p, id, plan.source))
    else s
  }

  function FinalizeRollbackStep(s: State, p: Process, id: PlanId): State {
    var plan := PlanOf(s, id);
    if !(s.op.Idle? && id in s.plans && p in s.loaded) then s
    else if plan.status == RolledBack then s.(op := Releasing(p, id))
    else if plan.status == RollbackPendingRestart && HasLoaded(s, p, plan.source)
    then WithStatus(s, id, RolledBack).(op := Releasing(p, id))
    else s
  }

  function BeginCancelStep(s: State, p: Process, id: PlanId): State {
    var plan := PlanOf(s, id);
    if s.op.Idle? && id in s.plans && plan.status in {Planned, Failed} && HasLoaded(s, p, plan.source)
    then s.(op := Cancelling(p, id))
    else s
  }

  // ---------------------------------------------------------------------
  // Engaging and draining

  function EngageStep(s: State): State {
    if !s.op.Engaging? then s
    else if s.fence.None? || s.fence == Some(s.op.job.id)
    then s.(fence := Some(s.op.job.id), op := Draining(s.op.job))
    else Done(s)
  }

  /** The queues are paused in a write of their own, on the way to the last look. */
  function PauseQueuesStep(s: State): State {
    if s.op.Draining? then s.(queues := s.queues.(paused := true)) else s
  }

  /** The last look: behind paused queues no mutation and no job is left. */
  function DrainDoneStep(s: State): State {
    if s.op.Draining? && s.running == {} && s.queues.waiting == 0 && s.queues.paused
    then s.(op := if s.op.job.purpose.Rollback? then Resetting(s.op.job, |s.order|) else Starting(s.op.job))
    else s
  }

  /** A failed engage resumes the queues and gives the fence back. */
  function DrainFailStep(s: State): State {
    if s.op.Draining? then s.(op := Releasing(s.op.job.pid, s.op.job.id)) else s
  }

  // ---------------------------------------------------------------------
  // Copying

  /** A copy restarted from Copied or Failed empties the destination first, but
      keeps the old record of verified tables. */
  function StartCopyStep(s: State): State {
    if !(s.op.Starting? && s.op.job.purpose.Migrate?) then s
    else
      var job := s.op.job;
      var plan := PlanOf(s, job.id);
      var from := job.purpose.from;
      s.(plans := s.plans[job.id := plan.(status := Copying,
                                          unbroken := from == Planned || (from == Copying && plan.unbroken))],
         op := if from in {Copied, Failed} then Resetting(job, |s.order|) else CopyingTables(job, 0, plan.tables))
  }

  function ResetTableStep(s: State): State {
    if s.op.Resetting? && 0 < s.op.left <= |s.order|
    then PutRows(s, To(s, s.op.job), Write(s.order[s.op.left - 1], [])).(op := Resetting(s.op.job, s.op.left - 1))
    else s
  }

  function ResetDoneStep(s: State): State {
    if s.op.Resetting? && s.op.left == 0 then s.(op := CopyingTables(s.op.job, 0, map[])) else s
  }

  /** Clearing the table or inserting a chunk: the rows are unconstrained. */
  function CopyWriteStep(s: State, rows: Rows): State {
    if s.op.CopyingTables? && s.op.next < |s.order| && s.order[s.op.next] !in s.op.done
    then PutRows(s, To(s, s.op.job), Write(s.order[s.op.next], rows))
    else s
  }

  /** A table already recorded is skipped; any other is recorded when the
      hashes of its two copies agree. */
  function CopyRecordStep(s: State): State {
    if !(s.op.CopyingTables? && s.op.next < |s.order|) then s
    else
      var job := s.op.job;
      var t := s.order[s.op.next];
      if t in s.op.done then s.(op := CopyingTables(job, s.op.next + 1, s.op.done))
      else if RowsOf(s.databases, From(s, job), t) != RowsOf(s.databases, To(s, job), t) then s
      else
        var rows := RowsOf(s.databases, From(s, job), t);
        var plan := PlanOf(s, job.id);
        s.(plans := if job.purpose.Rollback? then s.plans
                    else s.plans[job.id := plan.(tables := plan.tables[t := rows])],
           op := CopyingTables(job, s.op.next + 1, s.op.done[t := rows]))
  }

  function CopyFinishStep(s: State): State {
    if !(s.op.CopyingTables? && s.op.next == |s.order|) then s
    else if s.op.job.purpose.Rollback? then s.(op := Checking(s.op.job, 0, s.op.done))
    else
      s.(plans := s.plans[s.op.job.id := PlanOf(s, s.op.job.id).(status := Copied, tables := s.op.done)],
         op := Idle)
  }

  function CheckTableStep(s: State): State {
    if !(s.op.Checking? && s.op.next < |s.order|) then s
    else
      var t := s.order[s.op.next];
      var rows := RowsOf(s.databases, From(s, s.op.job), t);
      if rows == RowsOf(s.databases, To(s, s.op.job), t) && (t in s.op.expected ==> s.op.expected[t] == rows)
      then s.(op := Checking(s.op.job, s.op.next + 1, s.op.expected))
      else s
  }

  function VerifiedTables(s: State, payload: Payload): map<Table, Rows> {
    map t | t in s.order :: RowsOf(s.databases, payload, t)
  }

  function CheckFinishStep(s: State): State {
    if !(s.op.Checking? && s.op.next == |s.order|) then s
    else
      var job := s.op.job;
      var plan := PlanOf(s, job.id);
      if job.purpose.Rollback? then
        s.(plans := s.plans[job.id := plan.(status := RollbackPendingRestart)],
           op := Configuring(job.pid, job.id, plan.source))
      else
        s.(plans := s.plans[job.id := plan.(status := Verified, tables := VerifiedTables(s, plan.source))],
           op := Idle)
  }

  // ---------------------------------------------------------------------
  // Failure, release and the configuration file

  predicate InsideTry(op: Operation) {
    op.Starting? || op.Resetting? || op.CopyingTables? || op.Checking?
  }

  /** An exception inside the copy: a migration records Failed and releases, a
      rollback only releases, a verification leaves everything as it was. */
  function ThrowStep(s: State): State {
    if !InsideTry(s.op) then s
    else match s.op.job.purpose
      case Migrate(_) => s.(op := Failing(s.op.job))
      case Rollback => s.(op := Releasing(s.op.job.pid, s.op.job.id))
      case Verify => Done(s)
  }

  function FailRecordStep(s: State): State {
    if s.op.Failing?
    then WithStatus(s, s.op.job.id, Status.Failed).(op := Releasing(s.op.job.pid, s.op.job.id))
    else s
  }

  /** The update to Failed itself fails; the fence is released regardless. */
  function FailSkipStep(s: State): State {
    if s.op.Failing? then s.(op := Releasing(s.op.job.pid, s.op.job.id)) else s
  }

  /** The copy of the plan that holds the fence is not unbroken any more. */
  function BrokenOff(s: State, id: PlanId): map<PlanId, Plan> {
    if s.fence == Some(id) then s.plans[id := PlanOf(s, id).(unbroken := false)] else s.plans
  }

  /** The queues are resumed before the fence is unlinked, in a write of their
      own, and jobs may start from then on; a fence held by another plan stops
      both. */
  function ResumeQueuesStep(s: State): State {
    if (s.op.Releasing? || s.op.Cancelling?) && (s.fence.None? || s.fence == Some(s.op.id))
    then s.(queues := s.queues.(paused := false), plans := BrokenOff(s, s.op.id))
    else s
  }

  /** Unlinking the fence of one's own plan. By then the queues are resumed. */
  function Unfence(s: State, id: PlanId): State {
    if s.fence == Some(id)
    then s.(fence := None, queues := s.queues.(paused := false), plans := BrokenOff(s, id))
    else s
  }

  function ReleaseStep(s: State): State {
    if s.op.Releasing? then Done(Unfence(s, s.op.id)) else s
  }

  function WriteConfigurationStep(s: State): State {
    if s.op.Configuring? then s.(file := s.op.payload, op := Idle) else s
  }

  /** A fence held by another plan makes `release` throw before anything is
      written. */
  function CancelReleaseStep(s: State): State {
    if !s.op.Cancelling? then s
    else if s.fence.Some? && s.fence != Some(s.op.id) then Done(s)
    else Unfence(s, s.op.id).(op := RecordingCancel(s.op.pid, s.op.id))
  }

  function CancelRecordStep(s: State): State {
    if s.op.RecordingCancel?
    then WithStatus(s, s.op.id, Cancelled).(op := Unpointing(s.op.pid, s.op.id))
    else s
  }

  function CancelUnpointStep(s: State): State {
    if s.op.Unpointing?
    then s.(current := if s.current == Some(s.op.id) then None else s.current, op := Idle)
    else s
  }

  function Next(s: State, step: Step): State {
    match step
    case Restart(p) => RestartStep(s, p)
    case Crash => Done(s)
    case AppWrite(p, write) => AppWriteStep(s, p, write)
    case MutationBegin(p) => MutationBeginStep(s, p)
    case MutationWrite(p, write) => MutationWriteStep(s, p, write)
    case MutationEnd(p) => s.(running := s.running - {p})
    case JobLook => JobLookStep(s)
    case JobPush => JobPushStep(s)
    case JobBegin(p) => JobBeginStep(s, p)
    case JobRetried(p) => JobRetriedStep(s, p)
    case PlanFile(p, id, destination) => PlanFileStep(s, p, id, destination)
    case BeginMigrate(p, id) => BeginMigrateStep(s, p, id)
    case BeginVerify(p, id) => BeginVerifyStep(s, p, id)
    case BeginActivate(p, id) => BeginActivateStep(s, p, id)
    case FinalizeActivation(p, id) => FinalizeActivationStep(s, p, id)
    case BeginRollback(p, id) => BeginRollbackStep(s, p, id)
    case FinalizeRollback(p, id) => FinalizeRollbackStep(s, p, id)
    case BeginCancel(p, id) => BeginCancelStep(s, p, id)
    case PlanPointer => PlanPointerStep(s)
    case Engage => EngageStep(s)
    case PauseQueues => PauseQueuesStep(s)
    case DrainDone => DrainDoneStep(s)
    case DrainFail => DrainFailStep(s)
    case StartCopy => StartCopyStep(s)
    case ResetTable => ResetTableStep(s)
    case ResetDone => ResetDoneStep(s)
    case CopyWrite(rows) => CopyWriteStep(s, rows)
    case CopyRecord => CopyRecordStep(s)
    case CopyFinish => CopyFinishStep(s)
    case CheckTable => CheckTableStep(s)
    case CheckFinish => CheckFinishStep(s)
    case Throw => ThrowStep(s)
    case FailRecord => FailRecordStep(s)
    case FailSkip => FailSkipStep(s)
    case ResumeQueues => ResumeQueuesStep(s)
    case Release => ReleaseStep(s)
    case WriteConfiguration => WriteConfigurationStep(s)
    case CancelRelease => CancelReleaseStep(s)
    case CancelRecord => CancelRecordStep(s)
    case CancelUnpoint => CancelUnpointStep(s)
  }

  /** The state after a list of steps. */
  function Run(s: State, steps: seq<Step>): State
    decreases |steps|
  {
    if steps == [] then s else Run(Next(s, steps[0]), steps[1..])
  }

  /** The contents every committed application write has led to. */
  function Replay(writes: seq<Write>): Database
    decreases |writes|
  {
    if writes == [] then map[]
    else var last := writes[|writes| - 1]; Replay(writes[..|writes| - 1])[last.table := last.rows]
  }

  function Expected(writes: seq<Write>, table: Table): Rows {
    var d := Replay(writes);
    if table in d then d[table] else []
  }

  lemma {:induction false} RunConcat(s: State, a: seq<Step>, b: seq<Step>)
    ensures Run(s, a + b) == Run(Run(s, a), b)
    decreases |a|
  {
    if a == [] {
      assert a + b == b;
    } else {
      assert (a + b)[1..] == a[1..] + b;
      RunConcat(Next(s, a[0]), a[1..], b);
    }
  }

  lemma RunCons(s: State, step: Step, steps: seq<Step>)
    ensures Run(s, [step] + steps) == Run(Next(s, step), steps)
  {
    assert ([step] + steps)[1..] == steps;
  }

  lemma RunThree(s: State, a: Step, b: Step, c: Step)
    ensures Run(s, [a, b, c]) == Next(Next(Next(s, a), b), c)
  {
    RunCons(s, a, [b, c]);
    RunCons(Next(s, a), b, [c]);
    RunCons(Next(Next(s, a), b), c, []);
    assert [a, b, c] == [a] + [b, c];
    assert [b, c] == [b] + [c];
    assert [c] == [c] + [];
  }
}
