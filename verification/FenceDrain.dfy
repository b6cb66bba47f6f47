/**
  The maintenance fence, the lock that scheduled mutations share, and the job
  queues, at the grain at which processes meet there.

  A mutation takes the shared lock, then looks at the fence, then runs, then
  unlocks; a process that dies loses its lock. Engaging writes the fence file,
  waits for one moment in which the exclusive lock can be had, waits for the
  queues to be empty, pauses them and looks once more. Whoever queues a job looks
  at the fence and then pushes. Acts of any number of mutators, pushers and workers
  fall between the operator's.
*/
module FenceDrain {
  import opened Base
  import opened MigrationProtocol
  import opened MigrationSafety

  /** Where a scheduled mutation stands; Refused and Finished still hold the lock. */
  datatype Phase = Locked | Refused | Admitted | Finished

  /** How far `engage` has got. */
  datatype Operator =
    | Resting
    | Waiting(id: PlanId)
    | Exclusive(id: PlanId)
    | Emptying(id: PlanId)
    | Pausing(id: PlanId)
    | Rechecking(id: PlanId)
    | GivingBack(id: PlanId)

  /** `working` are the processes inside a job. `drained` is history: a wait for
      the mutations has returned since the fence was engaged. */
  datatype Fence = Fence(
    holder: Option<PlanId>,
    mutators: map<Process, Phase>,
    working: set<Process>,
    queues: Queues,
    operator: Operator,
    drained: bool)

  datatype Act =
    // Mutators
    | Lock(p: Process)
    | Look(p: Process)
    | Finish(p: Process)
    | Unlock(p: Process)
    // Workers
    | LookToQueue
    | PushJob
    | StartJob(p: Process)
    | EndJob(p: Process)
    | RetryJob(p: Process)
    // Either
    | Die(p: Process)
    // The operator
    | Engage(id: PlanId)
    | TryExclusive
    | UnlockExclusive
    | SeeEmpty
    | Pause
    | Recheck
    | Fail
    | OperatorDies
    | Resume(id: PlanId)
    | Release(id: PlanId)

  /** Processes inside a mutation. */
  function Inside(f: Fence): set<Process> {
    set p | p in f.mutators && f.mutators[p].Admitted?
  }

  /** No job waits and none runs: the queue sizes count both, and nothing that is
      yet to be pushed. */
  predicate Empty(f: Fence) {
    f.working == {} && f.queues.waiting == 0
  }

  function Advance(f: Fence, p: Process, from: Phase, to: Phase): Fence {
    if p in f.mutators && f.mutators[p] == from then f.(mutators := f.mutators[p := to]) else f
  }

  function Unlocked(f: Fence, p: Process): Fence {
    f.(mutators := f.mutators - {p})
  }

  predicate CanStart(f: Fence, p: Process) {
    p !in f.mutators && p !in f.working && f.queues.waiting > 0 && !f.queues.paused
  }

  /** A job that throws, or whose worker dies, goes back to its queue. */
  function BackToQueue(f: Fence, p: Process): Fence {
    if p in f.working
    then f.(working := f.working - {p}, queues := f.queues.(waiting := f.queues.waiting + 1))
    else f
  }

  predicate Free(f: Fence, id: PlanId) {
    f.holder.None? || f.holder == Some(id)
  }

  predicate MayRelease(operator: Operator, id: PlanId) {
    operator.Resting? || operator == GivingBack(id)
  }

  function PerformMutator(f: Fence, act: Act): Fence
    requires Background(act)
  {
    match act
    case Lock(p) =>
      if p !in f.mutators && p !in f.working && !f.operator.Exclusive?
      then f.(mutators := f.mutators[p := Locked])
      else f
    case Look(p) => Advance(f, p, Locked, if f.holder.Some? then Refused else Admitted)
    case Finish(p) => Advance(f, p, Admitted, Finished)
    case Unlock(p) => if p in f.mutators && f.mutators[p] in {Refused, Finished} then Unlocked(f, p) else f
    case LookToQueue => if f.holder.None? then f.(queues := f.queues.(pushing := f.queues.pushing + 1)) else f
    case PushJob =>
      if f.queues.pushing > 0
      then f.(queues := f.queues.(pushing := f.queues.pushing - 1, waiting := f.queues.waiting + 1))
      else f
    case StartJob(p) =>
      if CanStart(f, p)
      then f.(working := f.working + {p}, queues := f.queues.(waiting := f.queues.waiting - 1))
      else f
    case EndJob(p) => f.(working := f.working - {p})
    case RetryJob(p) => BackToQueue(f, p)
    case Die(p) => if p in f.working then BackToQueue(f, p) else Unlocked(f, p)
  }

  function Perform(f: Fence, act: Act): Fence {
    match act
    case Engage(id) =>
      if f.operator.Resting? && Free(f, id) then f.(holder := Some(id), operator := Waiting(id)) else f
    case TryExclusive =>
      if f.operator.Waiting? && f.mutators == map[] then f.(operator := Exclusive(f.operator.id)) else f
    case UnlockExclusive =>
      if f.operator.Exclusive? then f.(operator := Emptying(f.operator.id), drained := true) else f
    case SeeEmpty =>
      if f.operator.Emptying? && Empty(f) then f.(operator := Pausing(f.operator.id)) else f
    case Pause =>
      if f.operator.Pausing?
      then f.(operator := Rechecking(f.operator.id), queues := f.queues.(paused := true))
      else f
    case Recheck =>
      if f.operator.Rechecking? && Empty(f) then f.(operator := Resting) else f
    case Fail =>
      if f.operator.Resting? then f else f.(operator := GivingBack(f.operator.id))
    case OperatorDies => f.(operator := Resting)
    case Resume(id) =>
      if MayRelease(f.operator, id) && Free(f, id) then f.(queues := f.queues.(paused := false)) else f
    case Release(id) =>
      if MayRelease(f.operator, id) && f.holder == Some(id) && !f.queues.paused
      then f.(holder := None, drained := false, operator := Resting)
      else f
    case _ => PerformMutator(f, act)
  }

  function PerformAll(f: Fence, acts: seq<Act>): Fence
    decreases |acts|
  {
    if acts == [] then f else PerformAll(Perform(f, acts[0]), acts[1..])
  }

  /** What mutators and workers do. */
  predicate Background(act: Act) {
    act.Lock? || act.Look? || act.Finish? || act.Unlock? || act.Die?
    || act.LookToQueue? || act.PushJob? || act.StartJob? || act.EndJob? || act.RetryJob?
  }

  predicate AllBackground(acts: seq<Act>) {
    forall act | act in acts :: Background(act)
  }

  /** The others take several turns, one after the other. */
  function AfterTurns(f: Fence, turns: seq<seq<Act>>): Fence
    decreases |turns|
  {
    if turns == [] then f else PerformAll(AfterTurns(f, turns[..|turns| - 1]), turns[|turns| - 1])
  }

  // ---------------------------------------------------------------------
  // Soundness of the lock and the pause

  /** A working operator has the fence, the exclusive lock keeps every mutator
      out, after the wait nobody is inside, and queues are paused only then. */
  ghost predicate Sound(f: Fence) {
    && f.working !! f.mutators.Keys
    && (!f.operator.Resting? ==> f.holder == Some(f.operator.id))
    && (f.operator.Exclusive? ==> f.mutators == map[])
    && (f.drained ==> f.holder.Some? && Inside(f) == {})
    && (f.operator.Emptying? || f.operator.Pausing? || f.operator.Rechecking? || f.queues.paused ==> f.drained)
    && (f.operator.Rechecking? ==> f.queues.paused)
  }

  lemma MutatorsStayOut(f: Fence, act: Act)
    requires Background(act) && f.holder.Some? && Inside(f) == {}
    ensures Inside(PerformMutator(f, act)) == {}
  {
    var g := PerformMutator(f, act);
    forall p | p in Inside(g) ensures p in Inside(f) {
    }
  }

  lemma ActKeepsSound(f: Fence, act: Act)
    requires Sound(f)
    ensures Sound(Perform(f, act))
  {
    if Background(act) {
      if f.drained {
        MutatorsStayOut(f, act);
      }
    } else if act.UnlockExclusive? && f.operator.Exclusive? {
      assert Inside(f) == {};
    }
  }

  lemma {:induction false} ActsKeepSound(f: Fence, acts: seq<Act>)
    requires Sound(f)
    ensures Sound(PerformAll(f, acts))
    decreases |acts|
  {
    if acts != [] {
      ActKeepsSound(f, acts[0]);
      ActsKeepSound(Perform(f, acts[0]), acts[1..]);
    }
  }

  /** Once a wait has returned, no mutation is inside, and none gets inside
      until the fence is taken down, whatever anybody does. */
  lemma {:induction false} DrainIsFinal(f: Fence, acts: seq<Act>)
    requires Sound(f) && f.drained
    requires forall act | act in acts :: !act.Release?
    ensures PerformAll(f, acts).drained && Inside(PerformAll(f, acts)) == {} && PerformAll(f, acts).holder == f.holder
    decreases |acts|
  {
    if acts != [] {
      ActKeepsSound(f, acts[0]);
      assert !acts[0].Release?;
      DrainIsFinal(Perform(f, acts[0]), acts[1..]);
    }
  }

  /** Once the queues are paused behind the fence and no job runs, none runs until
      they are resumed, whatever is still pushed. */
  lemma {:induction false} PauseIsFinal(f: Fence, acts: seq<Act>)
    requires f.queues.paused && f.working == {}
    requires forall act | act in acts :: !act.Resume?
    ensures PerformAll(f, acts).queues.paused && PerformAll(f, acts).working == {}
    decreases |acts|
  {
    if acts != [] {
      assert !acts[0].Resume?;
      PauseIsFinal(Perform(f, acts[0]), acts[1..]);
    }
  }

  /** Queues found empty behind the fence stay empty exactly as long as nobody who
      had looked before it went up pushes: a look after the pause can fail. */
  lemma {:induction false} EmptyStaysExactly(f: Fence)
    requires Sound(f) && f.holder.Some? && Empty(f)
    ensures f.queues.pushing == 0
            <==> forall acts: seq<Act> | (forall act | act in acts :: !act.Release?) :: Empty(PerformAll(f, acts))
  {
    if f.queues.pushing == 0 {
      forall acts: seq<Act> | (forall act | act in acts :: !act.Release?) ensures Empty(PerformAll(f, acts)) {
        NothingIsPushed(f, acts);
      }
    } else {
      var acts := [PushJob];
      assert acts[1..] == [];
      assert PerformAll(f, acts) == PerformAll(Perform(f, PushJob), []);
      assert !Empty(PerformAll(f, acts));
      assert forall act | act in acts :: !act.Release?;
    }
  }

  lemma {:induction false} NothingIsPushed(f: Fence, acts: seq<Act>)
    requires Sound(f) && f.holder.Some? && Empty(f) && f.queues.pushing == 0
    requires forall act | act in acts :: !act.Release?
    ensures Empty(PerformAll(f, acts))
    decreases |acts|
  {
    if acts != [] {
      ActKeepsSound(f, acts[0]);
      assert !acts[0].Release?;
      NothingIsPushed(Perform(f, acts[0]), acts[1..]);
    }
  }

  /** From any start with the fence free: a returned wait means an empty
      inside, after any history. */
  lemma DrainedMeansNobodyInside(mutators: map<Process, Phase>, queues: Queues, acts: seq<Act>)
    requires !queues.paused
    ensures var f := PerformAll(Fence(None, mutators, {}, queues, Resting, false), acts);
            && (f.drained ==> f.holder.Some? && Inside(f) == {})
            && (f.queues.paused ==> f.drained)
  {
    ActsKeepSound(Fence(None, mutators, {}, queues, Resting, false), acts);
  }

  /** The wait cannot do with less: looking at the fence before taking the lock
      is what makes a held lock enough. A mutator that holds the lock when the
      fence goes up may already be inside, and the wait fails exactly then. */
  lemma WaitFailsWhileAnyoneHoldsTheLock(f: Fence)
    requires f.operator.Waiting?
    ensures Perform(f, TryExclusive).operator.Exclusive? <==> f.mutators == map[]
    ensures Inside(f) != {} ==> Perform(f, TryExclusive) == f
  {
    if Inside(f) != {} {
      var p :| p in Inside(f);
      assert p in f.mutators;
    }
  }

  // ---------------------------------------------------------------------
  // Every history at the lock is a run of the protocol

  /** The lock and the protocol side by side. */
  datatype World = World(f: Fence, s: State)

  datatype Move = AtTheLock(act: Act) | Elsewhere(step: Step)

  predicate OperatorAgrees(operator: Operator, op: Operation) {
    match operator
    case Resting => !op.Draining?
    case GivingBack(id) => op.Releasing? && op.id == id
    case _ => op.Draining? && op.job.id == operator.id
  }

  /** The fence, the queues and who is running are what the protocol says. */
  ghost predicate Agrees(w: World) {
    && w.s.fence == w.f.holder
    && w.s.running == Inside(w.f) + w.f.working
    && w.s.queues == w.f.queues
    && w.f.mutators.Keys <= w.s.loaded.Keys && w.f.working <= w.s.loaded.Keys
    && OperatorAgrees(w.f.operator, w.s.op)
  }

  /** What an act is in the protocol: getting inside, leaving, what the queues
      hold, and the outcome of engaging. Locking and looking are not seen. */
  function Seen(w: World, act: Act): Option<Step> {
    match act
    case Look(p) => if p in w.f.mutators && w.f.mutators[p].Locked? then Some(MutationBegin(p)) else None
    case Finish(p) => if p in Inside(w.f) then Some(MutationEnd(p)) else None
    case Die(p) => Some(if p in w.f.working then JobRetried(p) else MutationEnd(p))
    case LookToQueue => Some(JobLook)
    case PushJob => Some(JobPush)
    case StartJob(p) => if CanStart(w.f, p) then Some(JobBegin(p)) else None
    case EndJob(p) => if p in w.f.working then Some(MutationEnd(p)) else None
    case RetryJob(p) => if p in w.f.working then Some(JobRetried(p)) else None
    case Engage(_) => Some(Step.Engage)
    case Pause => if w.f.operator.Pausing? then Some(PauseQueues) else None
    case Recheck => if w.f.operator.Rechecking? && Empty(w.f) then Some(DrainDone) else None
    case Fail => if w.f.operator.Resting? || w.f.operator.GivingBack? then None else Some(DrainFail)
    case OperatorDies => Some(Crash)
    case Resume(_) => Some(ResumeQueues)
    case Release(_) => Some(if w.s.op.Releasing? then Step.Release else CancelRelease)
    case _ => None
  }

  predicate AtTheFence(step: Step) {
    step.Engage? || step.PauseQueues? || step.DrainDone? || step.DrainFail?
    || step.ResumeQueues? || step.Release? || step.CancelRelease?
    || step.Crash? || step.MutationBegin? || step.MutationEnd?
    || step.JobLook? || step.JobPush? || step.JobBegin? || step.JobRetried?
  }

  /** What can happen now: the operator's acts are those of the command that
      runs, the command goes on when `engage` has returned, and a process that
      reboots has left the lock before. */
  predicate CanHappen(w: World, move: Move) {
    match move
    case AtTheLock(Lock(p)) => p in w.s.loaded
    case AtTheLock(StartJob(p)) => p in w.s.loaded
    case AtTheLock(Engage(id)) => w.f.operator.Resting? && w.s.op.Engaging? && w.s.op.job.id == id
    case AtTheLock(Resume(id)) =>
      MayRelease(w.f.operator, id) && (w.s.op.Releasing? || w.s.op.Cancelling?) && w.s.op.id == id
    case AtTheLock(Release(id)) =>
      MayRelease(w.f.operator, id) && (w.s.op.Releasing? || w.s.op.Cancelling?) && w.s.op.id == id
      && (w.f.holder == Some(id) ==> !w.f.queues.paused)
    case AtTheLock(_) => true
    case Elsewhere(AppWrite(_, _)) => true
    case Elsewhere(MutationWrite(_, _)) => true
    case Elsewhere(Restart(p)) => p !in w.s.running && (w.f.operator.Resting? || Runner(w.s.op) != p)
    case Elsewhere(step) => w.f.operator.Resting? && !AtTheFence(step)
  }

  function SeenAs(w: World, move: Move): seq<Step> {
    if !CanHappen(w, move) then []
    else match move
      case Elsewhere(step) => [step]
      case AtTheLock(act) => var seen := Seen(w, act); if seen.Some? then [seen.value] else []
  }

  function MoveOn(w: World, move: Move): World {
    if !CanHappen(w, move) then w
    else match move
      case Elsewhere(step) => w.(s := Next(w.s, step))
      case AtTheLock(act) =>
        var seen := Seen(w, act);
        World(Perform(w.f, act), if seen.Some? then Next(w.s, seen.value) else w.s)
  }

  function After(w: World, moves: seq<Move>): World
    decreases |moves|
  {
    if moves == [] then w else After(MoveOn(w, moves[0]), moves[1..])
  }

  /** The history as the protocol sees it. */
  function History(w: World, moves: seq<Move>): seq<Step>
    decreases |moves|
  {
    if moves == [] then [] else SeenAs(w, moves[0]) + History(MoveOn(w, moves[0]), moves[1..])
  }

  lemma InsideAdvance(f: Fence, p: Process, from: Phase, to: Phase)
    requires p in f.mutators && f.mutators[p] == from
    ensures Inside(Advance(f, p, from, to)) == if to.Admitted? then Inside(f) + {p} else Inside(f) - {p}
  {
  }

  lemma MutatorActAgrees(w: World, act: Act)
    requires Sound(w.f) && Agrees(w) && CanHappen(w, AtTheLock(act))
    requires act.Lock? || act.Look? || act.Finish? || act.Unlock?
    ensures Agrees(MoveOn(w, AtTheLock(act)))
  {
    var f, g := w.f, Perform(w.f, act);
    match act
    case Lock(p) => assert Inside(g) == Inside(f);
    case Look(p) =>
      if p in f.mutators && f.mutators[p].Locked? {
        InsideAdvance(f, p, Locked, if f.holder.Some? then Refused else Admitted);
      }
    case Finish(p) =>
      if p in Inside(f) {
        InsideAdvance(f, p, Admitted, Finished);
      }
    case Unlock(p) => assert Inside(g) == Inside(f);
  }

  lemma WorkerActAgrees(w: World, act: Act)
    requires Sound(w.f) && Agrees(w) && CanHappen(w, AtTheLock(act))
    requires act.LookToQueue? || act.PushJob? || act.StartJob? || act.EndJob? || act.RetryJob? || act.Die?
    ensures Agrees(MoveOn(w, AtTheLock(act)))
  {
    var f, g := w.f, Perform(w.f, act);
    if act.Die? && act.p !in f.working {
      assert Inside(g) == Inside(f) - {act.p};
    } else {
      assert Inside(g) == Inside(f);
    }
  }

  /** Looking at the queues for the last time is the protocol's DrainDone, and it
      is enabled then: nothing runs and nothing waits. */
  lemma DrainIsEnabled(w: World)
    requires Sound(w.f) && Agrees(w) && w.f.operator.Rechecking? && Empty(w.f)
    ensures w.s.running == {} && w.s.queues.waiting == 0
    ensures var op := Next(w.s, DrainDone).op;
            (op.Starting? || op.Resetting?) && op.job == w.s.op.job
    ensures Perform(w.f, Recheck).operator.Resting? && Agrees(MoveOn(w, AtTheLock(Recheck)))
  {
  }

  lemma EngagingActAgrees(w: World, act: Act)
    requires Sound(w.f) && Agrees(w) && CanHappen(w, AtTheLock(act))
    requires act.Engage? || act.TryExclusive? || act.UnlockExclusive? || act.SeeEmpty? || act.Pause?
    ensures Agrees(MoveOn(w, AtTheLock(act)))
  {
    assert Inside(Perform(w.f, act)) == Inside(w.f);
  }

  lemma EndingActAgrees(w: World, act: Act)
    requires Sound(w.f) && Agrees(w) && CanHappen(w, AtTheLock(act))
    requires act.Fail? || act.OperatorDies? || act.Resume?
    ensures Agrees(MoveOn(w, AtTheLock(act)))
  {
    assert Inside(Perform(w.f, act)) == Inside(w.f);
  }

  lemma ReleaseAgrees(w: World, id: PlanId)
    requires Sound(w.f) && Agrees(w) && CanHappen(w, AtTheLock(Act.Release(id)))
    ensures Agrees(MoveOn(w, AtTheLock(Act.Release(id))))
  {
    assert Inside(Perform(w.f, Act.Release(id))) == Inside(w.f);
  }

  lemma OperatorActAgrees(w: World, act: Act)
    requires Sound(w.f) && Agrees(w) && CanHappen(w, AtTheLock(act)) && !Background(act)
    ensures Agrees(MoveOn(w, AtTheLock(act)))
  {
    match act
    case Recheck => if w.f.operator.Rechecking? && Empty(w.f) { DrainIsEnabled(w); }
    case Fail => EndingActAgrees(w, act);
    case OperatorDies => EndingActAgrees(w, act);
    case Resume(_) => EndingActAgrees(w, act);
    case Release(id) => ReleaseAgrees(w, id);
    case _ => EngagingActAgrees(w, act);
  }

  /** What a step away from the lock leaves alone. */
  ghost predicate SameAtTheLock(s: State, t: State) {
    && t.fence == s.fence && t.running == s.running && t.queues == s.queues
    && s.loaded.Keys <= t.loaded.Keys
    && (t.op.Draining? ==> t.op == s.op)
  }

  lemma ProcessesAreElsewhere(w: World, step: Step)
    requires Agrees(w) && CanHappen(w, Elsewhere(step)) && ByProcess(step)
    ensures SameAtTheLock(w.s, Next(w.s, step)) && (!w.f.operator.Resting? ==> Next(w.s, step).op == w.s.op)
  {
  }

  lemma BeginningsAreElsewhere(s: State, step: Step)
    requires ByCommand(step)
    ensures SameAtTheLock(s, Next(s, step))
  {
  }

  lemma CommandsAreElsewhere(s: State, step: Step)
    requires !AtTheFence(step) && !ByProcess(step)
    ensures SameAtTheLock(s, Next(s, step))
  {
    if ByCommand(step) {
      BeginningsAreElsewhere(s, step);
    }
  }

  lemma ElsewhereAgrees(w: World, step: Step)
    requires Agrees(w) && CanHappen(w, Elsewhere(step))
    ensures Agrees(MoveOn(w, Elsewhere(step)))
  {
    if ByProcess(step) {
      ProcessesAreElsewhere(w, step);
    } else {
      CommandsAreElsewhere(w.s, step);
    }
  }

  lemma MoveAgrees(w: World, move: Move)
    requires Sound(w.f) && Agrees(w)
    ensures Sound(MoveOn(w, move).f) && Agrees(MoveOn(w, move))
    ensures MoveOn(w, move).s == Run(w.s, SeenAs(w, move))
  {
    if !CanHappen(w, move) {
    } else if move.Elsewhere? {
      ElsewhereAgrees(w, move.step);
      RunSingle(w.s, move.step);
    } else {
      var act := move.act;
      ActKeepsSound(w.f, act);
      if act.Lock? || act.Look? || act.Finish? || act.Unlock? { MutatorActAgrees(w, act); }
      else if Background(act) { WorkerActAgrees(w, act); }
      else { OperatorActAgrees(w, act); }
      if Seen(w, act).Some? {
        RunSingle(w.s, Seen(w, act).value);
      }
    }
  }

  lemma RunSingle(s: State, step: Step)
    ensures Run(s, [step]) == Next(s, step)
  {
    RunCons(s, step, []);
    assert [step] + [] == [step];
  }

  /** Whatever mutators, workers and operators do at the lock, in any order, with
      deaths, failures and releases, is a run of the protocol, and the protocol
      is right about the fence, the queues and who is inside. */
  lemma {:induction false} HistoriesRefine(w: World, moves: seq<Move>)
    requires Sound(w.f) && Agrees(w)
    ensures Sound(After(w, moves).f) && Agrees(After(w, moves))
    ensures After(w, moves).s == Run(w.s, History(w, moves))
    decreases |moves|
  {
    if moves != [] {
      MoveAgrees(w, moves[0]);
      HistoriesRefine(MoveOn(w, moves[0]), moves[1..]);
      RunConcat(w.s, SeenAs(w, moves[0]), History(MoveOn(w, moves[0]), moves[1..]));
    }
  }

  /** What is proved of the protocol holds at the lock. */
  lemma NothingLostAtTheLock(s: State, moves: seq<Move>)
    requires Init(s)
    requires var w := World(Fence(None, map[], {}, s.queues, Resting, false), s);
             CarefulRun(s, History(w, moves))
    ensures var w := World(Fence(None, map[], {}, s.queues, Resting, false), s);
            Inv(After(w, moves).s) && NothingLost(After(w, moves).s)
  {
    var w := World(Fence(None, map[], {}, s.queues, Resting, false), s);
    assert Inside(w.f) == {};
    HistoriesRefine(w, moves);
    InitKeepsInv(s);
    RunKeepsInv(s, History(w, moves));
  }

  // ---------------------------------------------------------------------
  // When a drain passes

  /** Poll i is the first that finds no mutator at the lock. */
  ghost predicate FreeFirst(f: Fence, turns: seq<seq<Act>>, i: int) {
    && 0 <= i <= |turns| && AfterTurns(f, turns[..i]).mutators == map[]
    && forall k | 0 <= k < i :: AfterTurns(f, turns[..k]).mutators != map[]
  }

  /** Poll j is the first that finds no job waiting or running. */
  ghost predicate EmptyFirst(f: Fence, turns: seq<seq<Act>>, j: int) {
    && 0 <= j <= |turns| && Empty(AfterTurns(f, turns[..j]))
    && forall k | 0 <= k < j :: !Empty(AfterTurns(f, turns[..k]))
  }

  /** The queues are empty at poll j, and still are behind the pause and one more
      turn of the others. */
  ghost predicate Empties(f: Fence, id: PlanId, turns: seq<seq<Act>>, last: seq<seq<Act>>, j: int)
    requires |last| == 2
  {
    && EmptyFirst(f, turns, j)
    && var before := PerformAll(AfterTurns(f, turns[..j]).(operator := Pausing(id)), last[0]);
       Empty(PerformAll(before.(operator := Rechecking(id), queues := before.queues.(paused := true)), last[1]))
  }

  /** The lock is free at poll i, and from there on the queues empty. */
  ghost predicate Drains(f: Fence, id: PlanId, turns: seq<seq<Act>>, jobTurns: seq<seq<Act>>, last: seq<seq<Act>>,
                         i: int, j: int)
    requires |last| == 2
  {
    && FreeFirst(f, turns, i)
    && Empties(AfterTurns(f, turns[..i]).(operator := Emptying(id), drained := true), id, jobTurns, last, j)
  }

  lemma FirstIsOne(f: Fence, turns: seq<seq<Act>>, i: int, j: int)
    ensures FreeFirst(f, turns, i) && FreeFirst(f, turns, j) ==> i == j
    ensures EmptyFirst(f, turns, i) && EmptyFirst(f, turns, j) ==> i == j
  {
  }

  lemma EmptiesOnlyThere(f: Fence, id: PlanId, turns: seq<seq<Act>>, last: seq<seq<Act>>, j: int)
    requires |last| == 2 && EmptyFirst(f, turns, j)
    ensures (exists n :: Empties(f, id, turns, last, n)) <==> Empties(f, id, turns, last, j)
  {
    forall n | Empties(f, id, turns, last, n) ensures n == j {
      FirstIsOne(f, turns, n, j);
    }
  }

  lemma DrainsOnlyThere(f: Fence, id: PlanId, turns: seq<seq<Act>>, jobTurns: seq<seq<Act>>, last: seq<seq<Act>>,
                        i: int, waited: Fence)
    requires |last| == 2 && FreeFirst(f, turns, i)
    requires waited == AfterTurns(f, turns[..i]).(operator := Emptying(id), drained := true)
    ensures (exists m, n :: Drains(f, id, turns, jobTurns, last, m, n))
       <==> (exists n :: Empties(waited, id, jobTurns, last, n))
  {
    if m, n :| Drains(f, id, turns, jobTurns, last, m, n) {
      FirstIsOne(f, turns, m, i);
      assert Empties(waited, id, jobTurns, last, n);
    }
    if n :| Empties(waited, id, jobTurns, last, n) {
      assert Drains(f, id, turns, jobTurns, last, i, n);
    }
  }

  lemma NeverFree(f: Fence, id: PlanId, turns: seq<seq<Act>>, jobTurns: seq<seq<Act>>, last: seq<seq<Act>>)
    requires |last| == 2 && forall i | 0 <= i <= |turns| :: AfterTurns(f, turns[..i]).mutators != map[]
    ensures !exists m, n :: Drains(f, id, turns, jobTurns, last, m, n)
  {
  }

  lemma NeverEmpty(f: Fence, id: PlanId, turns: seq<seq<Act>>, last: seq<seq<Act>>)
    requires |last| == 2 && forall j | 0 <= j <= |turns| :: !Empty(AfterTurns(f, turns[..j]))
    ensures !exists n :: Empties(f, id, turns, last, n)
  {
  }

  // ---------------------------------------------------------------------
  // The operator's commands

  /** The fence file, the lock file's holders, the queues, and the operator's
      commands over them. */
  class MaintenanceFence {
    var holder: Option<PlanId>
    var mutators: map<Process, Phase>
    var working: set<Process>
    var queues: Queues
    var operator: Operator
    ghost var drained: bool

    ghost function View(): Fence
      reads this
    {
      Fence(holder, mutators, working, queues, operator, drained)
    }

    ghost predicate Valid()
      reads this
    {
      Sound(View())
    }

    constructor ()
      ensures Valid() && View() == Fence(None, map[], {}, Queues(0, false, 0), Resting, false)
    {
      holder, mutators, working, queues := None, map[], {}, Queues(0, false, 0);
      operator, drained := Resting, false;
    }

    /** What mutators and workers do in the meantime. */
    method Meanwhile(acts: seq<Act>)
      requires Valid() && AllBackground(acts)
      modifies this
      ensures Valid() && View() == PerformAll(old(View()), acts)
      ensures holder == old(holder) && operator == old(operator) && drained == old(drained)
      ensures queues.paused == old(queues.paused)
    {
      var f := PerformAll(Fence(holder, mutators, working, queues, operator, false), acts);
      ActsKeepSound(View(), acts);
      BackgroundLeavesTheFence(View(), acts);
      ActsIgnoreHistory(View(), acts);
      mutators, working, queues := f.mutators, f.working, f.queues;
    }

    /** `engage`: a fence another plan holds is refused; one's own is kept. */
    method Engage(id: PlanId) returns (ok: bool)
      requires Valid() && operator.Resting?
      modifies this
      ensures Valid() && View() == Perform(old(View()), Act.Engage(id))
      ensures ok <==> (old(holder).None? || old(holder) == Some(id))
      ensures ok ==> holder == Some(id) && operator == Waiting(id)
      ensures !ok ==> View() == old(View())
    {
      ActKeepsSound(View(), Act.Engage(id));
      if holder.Some? && holder.value != id {
        return false;
      }
      holder, operator := Some(id), Waiting(id);
      ok := true;
    }

    /** `waitForScheduledMutations`: polls until the exclusive lock can be had
        or the deadline has passed; the others' turns fall between two polls.
        When it returns, no mutation is running and none can start. */
    method WaitForScheduledMutations(turns: seq<seq<Act>>) returns (ok: bool, polls: nat)
      requires Valid() && operator.Waiting?
      requires forall turn | turn in turns :: AllBackground(turn)
      modifies this
      ensures Valid() && polls <= |turns|
      ensures View() == AfterTurns(old(View()), turns[..polls]).(
                          operator := if ok then Emptying(old(operator).id) else GivingBack(old(operator).id),
                          drained := ok || old(drained))
      ensures ok ==> Inside(View()) == {} && AfterTurns(old(View()), turns[..polls]).mutators == map[]
      ensures forall i | 0 <= i < polls :: AfterTurns(old(View()), turns[..i]).mutators != map[]
      ensures !ok ==> polls == |turns| && AfterTurns(old(View()), turns[..polls]).mutators != map[]
    {
      polls := 0;
      ghost var start := View();
      while true
        invariant polls <= |turns| && Valid()
        invariant operator == old(operator) && holder == old(holder) && drained == old(drained)
        invariant View() == AfterTurns(start, turns[..polls])
        invariant forall i | 0 <= i < polls :: AfterTurns(start, turns[..i]).mutators != map[]
        decreases |turns| - polls
      {
        if mutators == map[] {
          PassWait();
          return true, polls;
        }
        if polls == |turns| {
          operator := GivingBack(operator.id);
          return false, polls;
        }
        assert turns[polls] in turns;
        Meanwhile(turns[polls]);
        assert turns[..polls + 1][..polls] == turns[..polls];
        polls := polls + 1;
      }
    }

    /** The exclusive lock is had for a moment and given back. */
    method PassWait()
      requires Valid() && operator.Waiting? && mutators == map[]
      modifies this
      ensures Valid() && View() == old(View()).(operator := Emptying(old(operator).id), drained := true)
      ensures Inside(View()) == {}
    {
      ActKeepsSound(View(), TryExclusive);
      ActKeepsSound(Perform(View(), TryExclusive), UnlockExclusive);
      operator, drained := Emptying(operator.id), true;
    }

    /** `waitUntilQueuesAreEmpty`. */
    method WaitUntilQueuesAreEmpty(turns: seq<seq<Act>>) returns (ok: bool, polls: nat)
      requires Valid() && operator.Emptying?
      requires forall turn | turn in turns :: AllBackground(turn)
      modifies this
      ensures Valid() && polls <= |turns|
      ensures View() == AfterTurns(old(View()), turns[..polls]).(
                          operator := if ok then Pausing(old(operator).id) else GivingBack(old(operator).id))
      ensures ok ==> Empty(View())
      ensures forall i | 0 <= i < polls :: !Empty(AfterTurns(old(View()), turns[..i]))
      ensures !ok ==> polls == |turns| && !Empty(View())
    {
      polls := 0;
      ghost var start := View();
      while true
        invariant polls <= |turns| && Valid()
        invariant operator == old(operator) && holder == old(holder) && drained == old(drained)
        invariant View() == AfterTurns(start, turns[..polls])
        invariant forall i | 0 <= i < polls :: !Empty(AfterTurns(start, turns[..i]))
        decreases |turns| - polls
      {
        if working == {} && queues.waiting == 0 {
          operator := Pausing(operator.id);
          return true, polls;
        }
        if polls == |turns| {
          operator := GivingBack(operator.id);
          return false, polls;
        }
        assert turns[polls] in turns;
        Meanwhile(turns[polls]);
        assert turns[..polls + 1][..polls] == turns[..polls];
        polls := polls + 1;
      }
    }

    /** `pauseQueues`, then, after the others' turn, `assertQueuesAreEmpty` and
        `assertNoActiveAccess`. */
    method PauseAndLookAgain(turns: seq<seq<Act>>, quiet: bool) returns (ok: bool)
      requires Valid() && operator.Pausing? && |turns| == 2 && AllBackground(turns[0]) && AllBackground(turns[1])
      modifies this
      ensures Valid() && holder == old(holder) && drained && queues.paused
      ensures operator == if ok then Resting else GivingBack(old(operator).id)
      ensures var paused := Perform(PerformAll(old(View()), turns[0]), Pause);
              ok <==> quiet && Empty(PerformAll(paused, turns[1]))
      ensures ok ==> Inside(View()) == {} && Empty(View())
    {
      Meanwhile(turns[0]);
      ActKeepsSound(View(), Pause);
      operator, queues := Rechecking(operator.id), queues.(paused := true);
      Meanwhile(turns[1]);
      ok := working == {} && queues.waiting == 0 && quiet;
      operator := if ok then Resting else GivingBack(operator.id);
    }

    /** The safety's `engage`: all of the above, and the fence is given back when
        any part of it throws. `quiet` is what the two looks for active sessions
        and leases find. */
    method EngageAndDrain(id: PlanId, turns: seq<seq<Act>>, quiet: bool, jobTurns: seq<seq<Act>>,
                          last: seq<seq<Act>>, stillQuiet: bool) returns (ok: bool)
      requires Valid() && operator.Resting?
      requires forall t | t in turns + jobTurns :: AllBackground(t)
      requires |last| == 2 && AllBackground(last[0]) && AllBackground(last[1])
      modifies this
      ensures Valid() && operator.Resting?
      ensures ok <==>
                && (old(holder).None? || old(holder) == Some(id)) && quiet && stillQuiet
                && exists i, j :: Drains(old(View()).(holder := Some(id), operator := Waiting(id)), id, turns, jobTurns,
                                         last, i, j)
      ensures ok ==> holder == Some(id) && drained && Inside(View()) == {} && Empty(View()) && queues.paused
      ensures !ok ==> if old(holder).None? || old(holder) == Some(id)
                      then holder == None && !queues.paused
                      else View() == old(View())
    {
      ok := Engage(id);
      if !ok {
        return;
      }
      forall t | t in turns ensures AllBackground(t) { assert t in turns + jobTurns; }
      forall t | t in jobTurns ensures AllBackground(t) { assert t in turns + jobTurns; }
      ok := DrainEngaged(turns, quiet, jobTurns, last, stillQuiet);
      if !ok {
        GiveBack(id);
      }
    }

    /** The try block of `engage`. */
    method DrainEngaged(turns: seq<seq<Act>>, quiet: bool, jobTurns: seq<seq<Act>>, last: seq<seq<Act>>,
                        stillQuiet: bool)
      returns (ok: bool)
      requires Valid() && operator.Waiting?
      requires forall t | t in turns :: AllBackground(t)
      requires forall t | t in jobTurns :: AllBackground(t)
      requires |last| == 2 && AllBackground(last[0]) && AllBackground(last[1])
      modifies this
      ensures Valid() && holder == old(holder)
      ensures ok <==> && quiet && stillQuiet
                      && exists i, j :: Drains(old(View()), old(operator).id, turns, jobTurns, last, i, j)
      ensures ok ==> operator.Resting? && drained && Inside(View()) == {} && Empty(View()) && queues.paused
      ensures !ok ==> operator == GivingBack(old(operator).id)
    {
      ghost var start, id := View(), operator.id;
      var polls;
      ok, polls := WaitForScheduledMutations(turns);
      TurnsLeaveTheFence(start, turns[..polls]);
      if !ok {
        NeverFree(start, id, turns, jobTurns, last);
        return;
      }
      if !quiet {
        operator := GivingBack(operator.id);
        return false;
      }
      DrainsOnlyThere(start, id, turns, jobTurns, last, polls, View());
      ok := DrainQueues(jobTurns, last, stillQuiet);
    }

    /** Behind the wait: the queues empty, are paused, and still are empty. */
    method DrainQueues(turns: seq<seq<Act>>, last: seq<seq<Act>>, quiet: bool) returns (ok: bool)
      requires Valid() && operator.Emptying?
      requires forall t | t in turns :: AllBackground(t)
      requires |last| == 2 && AllBackground(last[0]) && AllBackground(last[1])
      modifies this
      ensures Valid() && holder == old(holder)
      ensures ok <==> quiet && exists j :: Empties(old(View()), old(operator).id, turns, last, j)
      ensures ok ==> operator.Resting? && drained && Inside(View()) == {} && Empty(View()) && queues.paused
      ensures !ok ==> operator == GivingBack(old(operator).id)
    {
      ghost var start, id := View(), operator.id;
      var polls;
      ok, polls := WaitUntilQueuesAreEmpty(turns);
      TurnsLeaveTheFence(start, turns[..polls]);
      if !ok {
        NeverEmpty(start, id, turns, last);
        return;
      }
      EmptiesOnlyThere(start, id, turns, last, polls);
      BackgroundLeavesTheFence(View(), last[0]);
      ok := PauseAndLookAgain(last, quiet);
    }

    /** The catch block of `engage`. */
    method GiveBack(id: PlanId)
      requires Valid() && operator == GivingBack(id)
      modifies this
      ensures Valid() && operator.Resting? && holder == None && !queues.paused
      ensures View() == Perform(Perform(old(View()), Resume(id)), Act.Release(id))
    {
      ActKeepsSound(View(), Resume(id));
      queues := queues.(paused := false);
      ActKeepsSound(View(), Act.Release(id));
      holder, drained, operator := None, false, Resting;
    }

    /** `release`: another plan's fence is refused; a free one is left alone. */
    method Release(id: PlanId) returns (ok: bool)
      requires Valid() && operator.Resting?
      modifies this
      ensures Valid() && View() == Perform(Perform(old(View()), Resume(id)), Act.Release(id))
      ensures ok <==> (old(holder).None? || old(holder) == Some(id))
      ensures ok ==> holder == None && !queues.paused
      ensures !ok ==> View() == old(View())
    {
      ActKeepsSound(View(), Resume(id));
      ActKeepsSound(Perform(View(), Resume(id)), Act.Release(id));
      if holder.Some? && holder.value != id {
        return false;
      }
      queues := queues.(paused := false);
      if holder.Some? {
        holder, drained := None, false;
      }
      ok := true;
    }
  }

  lemma {:induction false} BackgroundLeavesTheFence(f: Fence, acts: seq<Act>)
    requires AllBackground(acts)
    ensures var g := PerformAll(f, acts);
            g.holder == f.holder && g.operator == f.operator && g.drained == f.drained
            && g.queues.paused == f.queues.paused
    decreases |acts|
  {
    if acts != [] {
      assert Background(acts[0]);
      BackgroundLeavesTheFence(Perform(f, acts[0]), acts[1..]);
    }
  }

  lemma {:induction false} TurnsLeaveTheFence(f: Fence, turns: seq<seq<Act>>)
    requires forall turn | turn in turns :: AllBackground(turn)
    ensures var g := AfterTurns(f, turns);
            g.holder == f.holder && g.operator == f.operator && g.drained == f.drained
    decreases |turns|
  {
    if turns != [] {
      var last := |turns| - 1;
      TurnsLeaveTheFence(f, turns[..last]);
      assert turns[last] in turns;
      BackgroundLeavesTheFence(AfterTurns(f, turns[..last]), turns[last]);
    }
  }

  /** Nothing a mutator or worker does depends on the history. */
  lemma {:induction false} ActsIgnoreHistory(f: Fence, acts: seq<Act>)
    requires AllBackground(acts)
    ensures PerformAll(f.(drained := false), acts) == PerformAll(f, acts).(drained := false)
    decreases |acts|
  {
    if acts != [] {
      var act := acts[0];
      assert Background(act);
      assert Perform(f.(drained := false), act) == Perform(f, act).(drained := false);
      ActsIgnoreHistory(Perform(f, act), acts[1..]);
    }
  }
}
