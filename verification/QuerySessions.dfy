/**
  A query-access request, its session, and the queries run in it from the
  browser.

  Starting, ending and cancelling a session, queueing, claiming and cancelling
  a query are locked transactions. A worker reads a query's row again after its
  statement has returned and writes the outcome without a lock, in a step of
  its own. So do the expiry of a session, and whoever gives a query up from
  outside: a dispatch that failed, a job that failed, and the reconciler of
  stale queries.
*/
module QuerySessions {
  import opened Base
  import RequestLifecycle

  type RequestStatus = RequestLifecycle.RequestStatus

  datatype QueryStatus = Queued | Running | Cancelling | Succeeded | Failed | Cancelled | TimedOut

  predicate Active(status: QueryStatus) {
    status in {Queued, Running, Cancelling}
  }

  /** Where a query's worker stands. Writing is after its last look at the row. */
  datatype Stage = Waiting | Claimed | Executing | Caught | Writing(outcome: QueryStatus) | Gone

  /** `late` are the outcomes of those who have read the row to give the query up
      and have not written yet. `sent` is history: the statement has reached the
      database. */
  datatype Query = Query(
    session: nat,
    status: QueryStatus,
    cancelAsked: bool,
    stage: Stage,
    late: multiset<QueryStatus>,
    sent: bool)

  /** A query just queued. */
  function Enqueued(session: nat): Query {
    Query(session, Queued, false, Waiting, multiset{}, false)
  }

  datatype Session = Session(expires: nat, ended: bool)

  /** `expiring` is the session the expiry command has loaded and ended, with
      whether the request was running when it was loaded. */
  datatype State = State(
    status: RequestStatus,
    dispatched: bool,
    sessions: seq<Session>,
    queries: seq<Query>,
    now: nat,
    expiring: Option<bool>)

  datatype Step =
    | Tick(seconds: nat)
    | Edit(needsApproval: bool)
    | Decide(approve: bool)
    | Start(needsFresh: bool, seconds: nat)
    | End(session: nat)
    | CancelRequest
    | ExpireRead(session: nat)
    | ExpireWrite
    | Queue(session: nat)
    | DispatchFails(query: nat)
    | Interrupt(query: nat, outcome: QueryStatus)
    | LateWrite(query: nat, outcome: QueryStatus)
    | Claim(query: nat)
    | Connect(query: nat)
    | Throw(query: nat)
    | Return(query: nat, outcome: QueryStatus)
    | Write(query: nat)
    | CancelQuery(query: nat)

  predicate Unexpired(s: State, session: Session) {
    !session.ended && session.expires > s.now
  }

  function EndAt(sessions: seq<Session>, i: nat): (r: seq<Session>)
    ensures |r| == |sessions|
  {
    if i < |sessions| then sessions[i := sessions[i].(ended := true)] else sessions
  }

  /** Every session not yet expired is ended. */
  function EndUnexpired(sessions: seq<Session>, now: nat): (r: seq<Session>)
    ensures |r| == |sessions|
    ensures forall i | 0 <= i < |r| ::
              r[i] == if !sessions[i].ended && sessions[i].expires > now then Session(sessions[i].expires, true)
                      else sessions[i]
  {
    if sessions == [] then []
    else
      var last := sessions[|sessions| - 1];
      EndUnexpired(sessions[..|sessions| - 1], now)
      + [if !last.ended && last.expires > now then Session(last.expires, true) else last]
  }

  function EditStep(s: State, needsApproval: bool): State {
    if !s.dispatched && s.status in {RequestStatus.PendingReview, RequestStatus.Approved, RequestStatus.Rejected}
    then s.(status := if needsApproval then RequestStatus.PendingReview else RequestStatus.Approved)
    else s
  }

  function DecideStep(s: State, approve: bool): State {
    if s.status == RequestStatus.PendingReview
    then s.(status := if approve then RequestStatus.Approved else RequestStatus.Rejected)
    else s
  }

  function StartStep(s: State, needsFresh: bool, seconds: nat): State {
    if s.status != RequestStatus.Approved || s.sessions != [] then s
    else if needsFresh then s.(status := RequestStatus.PendingReview, dispatched := false)
    else s.(status := RequestStatus.Running, dispatched := true,
            sessions := s.sessions + [Session(s.now + seconds, false)])
  }

  function EndStep(s: State, session: nat): State {
    if session < |s.sessions|
    then s.(sessions := EndAt(s.sessions, session),
            status := if s.status == RequestStatus.Running then RequestStatus.Completed else s.status)
    else s
  }

  function CancelRequestStep(s: State): State {
    if s.status in {RequestStatus.Draft, RequestStatus.PendingReview, RequestStatus.Approved,
                    RequestStatus.Scheduled, RequestStatus.Running}
    then s.(status := RequestStatus.Cancelled, sessions := EndUnexpired(s.sessions, s.now))
    else s
  }

  function ExpireReadStep(s: State, session: nat): State {
    if session < |s.sessions| && !s.sessions[session].ended && s.sessions[session].expires <= s.now && s.expiring.None?
    then s.(sessions := EndAt(s.sessions, session), expiring := Some(s.status == RequestStatus.Running))
    else s
  }

  function ExpireWriteStep(s: State): State {
    if s.expiring.None? then s
    else s.(expiring := None, status := if s.expiring.value then RequestStatus.Completed else s.status)
  }

  predicate HasActive(queries: seq<Query>, session: nat) {
    exists query | query in queries :: query.session == session && Active(query.status)
  }

  /** The session was found active by an earlier, unlocked check. */
  function QueueStep(s: State, session: nat): State {
    if session < |s.sessions| && !HasActive(s.queries, session)
    then s.(queries := s.queries + [Enqueued(session)])
    else s
  }

  /** The look of `markDispatchFailed`, when dispatching threw or the reconciler
      found the query waiting for too long. */
  function DispatchFailsQuery(q: Query): Query {
    if q.status == Queued then q.(late := q.late + multiset{Failed}) else q
  }

  /** The look of `markInterrupted`, when the job failed or the reconciler found
      the query running for too long. */
  function InterruptQuery(q: Query, outcome: QueryStatus): Query {
    if Active(q.status) && outcome in {Failed, TimedOut}
    then q.(late := q.late + multiset{if q.cancelAsked then Cancelled else outcome})
    else q
  }

  /** `finishQueuedExecution`, whatever the row says by now. */
  function LateWriteQuery(q: Query, outcome: QueryStatus): Query {
    if outcome in q.late then q.(status := outcome, late := q.late - multiset{outcome}) else q
  }

  function ClaimQuery(q: Query): Query {
    if q.stage != Waiting then q
    else if q.status == Queued then q.(status := Running, stage := Claimed)
    else q.(stage := Gone)
  }

  /** Connected, the worker looks at the row once more before it sends. */
  function ConnectQuery(q: Query): Query {
    if q.stage != Claimed then q
    else if q.cancelAsked || q.status == Cancelling then q.(stage := Caught)
    else q.(stage := Executing, sent := true)
  }

  /** Validating or connecting fails. */
  function ThrowQuery(q: Query): Query {
    if q.stage == Claimed then q.(stage := Caught) else q
  }

  /** The look at the row after the statement, or in the catch block. */
  function ReturnQuery(q: Query, outcome: QueryStatus): Query {
    if !((q.stage == Executing && outcome in {Succeeded, Failed, TimedOut})
         || (q.stage == Caught && outcome in {Failed, TimedOut}))
    then q
    else if !Active(q.status) then q.(stage := Gone)
    else if q.cancelAsked || q.status == Cancelling then q.(stage := Writing(Cancelled))
    else q.(stage := Writing(outcome))
  }

  function WriteQuery(q: Query): Query {
    if q.stage.Writing? then q.(status := q.stage.outcome, stage := Gone) else q
  }

  function CancelOne(q: Query): Query {
    if !Active(q.status) then q
    else if q.status == Queued then q.(status := Cancelled, cancelAsked := true)
    else q.(status := Cancelling, cancelAsked := true)
  }

  /** The step of one query's row; `next` is its new value. */
  function Put(s: State, query: nat, next: Query): State {
    if query < |s.queries| then s.(queries := s.queries[query := next]) else s
  }

  function QueryStep(q: Query, step: Step): Query {
    match step
    case DispatchFails(_) => DispatchFailsQuery(q)
    case Interrupt(_, outcome) => InterruptQuery(q, outcome)
    case LateWrite(_, outcome) => LateWriteQuery(q, outcome)
    case Claim(_) => ClaimQuery(q)
    case Connect(_) => ConnectQuery(q)
    case Throw(_) => ThrowQuery(q)
    case Return(_, outcome) => ReturnQuery(q, outcome)
    case Write(_) => WriteQuery(q)
    case CancelQuery(_) => CancelOne(q)
    case _ => q
  }

  /** The query a step is about. */
  function Subject(step: Step): Option<nat> {
    match step
    case DispatchFails(query) => Some(query)
    case Interrupt(query, _) => Some(query)
    case LateWrite(query, _) => Some(query)
    case Claim(query) => Some(query)
    case Connect(query) => Some(query)
    case Throw(query) => Some(query)
    case Return(query, _) => Some(query)
    case Write(query) => Some(query)
    case CancelQuery(query) => Some(query)
    case _ => None
  }

  function Next(s: State, step: Step): State {
    match step
    case Tick(seconds) => s.(now := s.now + seconds)
    case Edit(needsApproval) => EditStep(s, needsApproval)
    case Decide(approve) => DecideStep(s, approve)
    case Start(needsFresh, seconds) => StartStep(s, needsFresh, seconds)
    case End(session) => EndStep(s, session)
    case CancelRequest => CancelRequestStep(s)
    case ExpireRead(session) => ExpireReadStep(s, session)
    case ExpireWrite => ExpireWriteStep(s)
    case Queue(session) => QueueStep(s, session)
    case _ =>
      var query := Subject(step).value;
      if query < |s.queries| then Put(s, query, QueryStep(s.queries[query], step)) else s
  }

  function Run(s: State, steps: seq<Step>): State
    decreases |steps|
  {
    if steps == [] then s else Run(Next(s, steps[0]), steps[1..])
  }

  // ---------------------------------------------------------------------
  // The invariant

  /** Whatever is yet to be written ends the query; a query nobody has claimed is
      queued or over, and one that was claimed is not queued any more. */
  predicate QueryInv(q: Query) {
    && (forall outcome | outcome in q.late :: !Active(outcome))
    && (q.stage.Writing? ==> !Active(q.stage.outcome))
    && (q.stage == Waiting ==> q.status !in {Running, Cancelling} && !q.sent)
    && (q.stage != Waiting ==> q.status != Queued)
    && (q.stage == Gone ==> !Active(q.status))
    && (q.status in {Queued, Running} ==> !q.cancelAsked)
  }

  /** Ended or expired, a session never becomes usable again; a usable one has
      its request running. */
  ghost predicate SessionInv(s: State) {
    && |s.sessions| <= 1
    && (forall session | session in s.sessions && Unexpired(s, session) :: s.status == RequestStatus.Running)
    && (s.status == RequestStatus.Running ==> s.sessions != [])
    && (s.sessions != [] && s.expiring.Some? ==> s.sessions[0].ended)
    && (s.expiring.Some? ==> s.sessions != [])
  }

  /** No session has two active queries. */
  ghost predicate OneActive(queries: seq<Query>) {
    forall i, j | 0 <= i < j < |queries| && queries[i].session == queries[j].session ::
      !(Active(queries[i].status) && Active(queries[j].status))
  }

  ghost predicate Inv(s: State) {
    SessionInv(s) && OneActive(s.queries) && forall q | q in s.queries :: QueryInv(q)
  }

  /** Reading the row to give the query up, and writing that. */
  lemma LateKeepsInv(q: Query, outcome: QueryStatus)
    requires QueryInv(q)
    ensures !Active(outcome) ==> QueryInv(q.(late := q.late + multiset{outcome}))
    ensures outcome in q.late ==> QueryInv(q.(status := outcome, late := q.late - multiset{outcome}))
  {
  }

  lemma WorkerKeepsInv(q: Query, step: Step)
    requires QueryInv(q) && (step.Claim? || step.Connect? || step.Throw? || step.Return? || step.Write?)
    ensures QueryInv(QueryStep(q, step))
  {
    assert QueryStep(q, step).late == q.late;
  }

  lemma QueryStepKeepsInv(q: Query, step: Step)
    requires QueryInv(q)
    ensures QueryInv(QueryStep(q, step))
    ensures !Active(q.status) ==> !Active(QueryStep(q, step).status)
    ensures QueryStep(q, step).session == q.session
  {
    match step
    case DispatchFails(_) => LateKeepsInv(q, Failed);
    case Interrupt(_, outcome) => LateKeepsInv(q, if q.cancelAsked then Cancelled else outcome);
    case LateWrite(_, outcome) => LateKeepsInv(q, outcome);
    case CancelQuery(_) =>
    case _ => if QueryStep(q, step) != q { WorkerKeepsInv(q, step); }
  }

  lemma QueryWriteKeepsInv(s: State, step: Step)
    requires Inv(s) && Subject(step).Some?
    ensures Inv(Next(s, step))
  {
    var query := Subject(step).value;
    if query < |s.queries| {
      QueryStepKeepsInv(s.queries[query], step);
    }
  }

  lemma QueueKeepsInv(s: State, session: nat)
    requires Inv(s)
    ensures Inv(QueueStep(s, session))
  {
    if QueueStep(s, session) != s {
      assert forall i | 0 <= i < |s.queries| :: s.queries[i] in s.queries;
    }
  }

  lemma StepKeepsInv(s: State, step: Step)
    requires Inv(s)
    ensures Inv(Next(s, step))
  {
    if Subject(step).Some? {
      QueryWriteKeepsInv(s, step);
    } else if step.Queue? {
      QueueKeepsInv(s, step.session);
    }
  }

  lemma {:induction false} RunKeepsInv(s: State, steps: seq<Step>)
    requires Inv(s)
    ensures Inv(Run(s, steps))
    decreases |steps|
  {
    if steps == [] {
    } else {
      StepKeepsInv(s, steps[0]);
      RunKeepsInv(Next(s, steps[0]), steps[1..]);
    }
  }

  /** A request just created. */
  predicate Begins(s: State) {
    && s.status in {RequestStatus.PendingReview, RequestStatus.Approved}
    && !s.dispatched && s.sessions == [] && s.queries == [] && s.expiring == None
  }

  // ---------------------------------------------------------------------
  // What holds in every run

  /** A request gets at most one session, usable only while the request runs,
      and no session has two active queries. */
  lemma SessionGuarantees(s: State, steps: seq<Step>)
    requires Begins(s)
    ensures var t := Run(s, steps);
            && |t.sessions| <= 1
            && (forall session | session in t.sessions && Unexpired(t, session) :: t.status == RequestStatus.Running)
            && forall i, j | 0 <= i < j < |t.queries| && t.queries[i].session == t.queries[j].session ::
                 || t.queries[i].status !in {Queued, Running, Cancelling}
                 || t.queries[j].status !in {Queued, Running, Cancelling}
  {
    RunKeepsInv(s, steps);
  }

  lemma StepKeepsSession(s: State, step: Step)
    requires Inv(s) && s.sessions != []
    ensures var t := Next(s, step);
            && t.sessions != [] && t.sessions[0].expires == s.sessions[0].expires
            && (s.sessions[0].ended ==> t.sessions[0].ended) && t.now >= s.now
  {
  }

  /** The session a request got is the one it keeps: its end is never taken
      back and its expiry never moved, so there is no second session in its
      life. */
  lemma {:induction false} SessionIsForLife(s: State, steps: seq<Step>)
    requires Inv(s) && s.sessions != []
    ensures var t := Run(s, steps);
            && |t.sessions| == 1 && t.sessions[0].expires == s.sessions[0].expires
            && (!Unexpired(s, s.sessions[0]) ==> !Unexpired(t, t.sessions[0]))
    decreases |steps|
  {
    if steps == [] {
    } else {
      StepKeepsSession(s, steps[0]);
      StepKeepsInv(s, steps[0]);
      SessionIsForLife(Next(s, steps[0]), steps[1..]);
    }
  }

  lemma StepKeepsQuery(s: State, step: Step, i: nat)
    requires i < |s.queries|
    ensures i < |Next(s, step).queries|
    ensures Next(s, step).queries[i] == if Subject(step) == Some(i) then QueryStep(s.queries[i], step) else s.queries[i]
  {
    if Subject(step).Some? {
      SubjectStep(s, step, Subject(step).value);
    }
  }

  lemma SubjectStep(s: State, step: Step, query: nat)
    requires Subject(step) == Some(query)
    ensures Next(s, step) == if query < |s.queries| then Put(s, query, QueryStep(s.queries[query], step)) else s
  {
  }

  /** A finished query is never active again. */
  lemma {:induction false} FinishedIsOver(s: State, steps: seq<Step>, i: nat)
    requires Inv(s) && i < |s.queries| && !Active(s.queries[i].status)
    ensures i < |Run(s, steps).queries| && !Active(Run(s, steps).queries[i].status)
    decreases |steps|
  {
    if steps != [] {
      StepKeepsInv(s, steps[0]);
      StepKeepsQuery(s, steps[0], i);
      QueryStepKeepsInv(s.queries[i], steps[0]);
      FinishedIsOver(Next(s, steps[0]), steps[1..], i);
    }
  }

  /** Nobody who has read the row as active is still to write another outcome. */
  predicate Settled(q: Query) {
    && !Active(q.status)
    && (forall outcome | outcome in q.late :: outcome == q.status)
    && (q.stage.Writing? ==> q.stage.outcome == q.status)
  }

  lemma SettledByStep(q: Query, step: Step)
    requires Settled(q)
    ensures Settled(QueryStep(q, step)) && QueryStep(q, step).status == q.status
  {
  }

  lemma {:induction false} SettledStays(s: State, steps: seq<Step>, i: nat)
    requires i < |s.queries| && Settled(s.queries[i])
    ensures i < |Run(s, steps).queries| && Settled(Run(s, steps).queries[i])
    ensures Run(s, steps).queries[i].status == s.queries[i].status
    decreases |steps|
  {
    if steps != [] {
      StepKeepsQuery(s, steps[0], i);
      SettledByStep(s.queries[i], steps[0]);
      SettledStays(Next(s, steps[0]), steps[1..], i);
    }
  }

  predicate HasStatus(s: State, i: nat, status: QueryStatus) {
    i < |s.queries| && s.queries[i].status == status
  }

  /** A finished query keeps the status it finished with in every run exactly
      when it is settled. */
  lemma {:induction false} FinishedIsFinalExactly(s: State, i: nat)
    requires i < |s.queries| && !Active(s.queries[i].status)
    ensures Settled(s.queries[i])
            <==> forall steps: seq<Step> :: HasStatus(Run(s, steps), i, s.queries[i].status)
  {
    var q := s.queries[i];
    if Settled(q) {
      forall steps: seq<Step> ensures HasStatus(Run(s, steps), i, q.status) {
        SettledStays(s, steps, i);
      }
    } else {
      var step;
      if outcome :| outcome in q.late && outcome != q.status {
        step := LateWrite(i, outcome);
      } else {
        step := Write(i);
      }
      RunOne(s, step);
      assert !HasStatus(Run(s, [step]), i, q.status);
    }
  }

  lemma RunOne(s: State, step: Step)
    ensures Run(s, [step]) == Next(s, step)
  {
    assert [step][1..] == [];
  }

  predicate HeldBack(q: Query) {
    q.cancelAsked && !q.sent
  }

  /** A query cancelled before its worker's last look never reaches the
      database. */
  lemma {:induction false} CancelledIsNeverSent(s: State, steps: seq<Step>, i: nat)
    requires Inv(s) && i < |s.queries| && HeldBack(s.queries[i])
    ensures i < |Run(s, steps).queries| && HeldBack(Run(s, steps).queries[i])
    decreases |steps|
  {
    if steps == [] {
    } else {
      StepKeepsInv(s, steps[0]);
      StepKeepsQuery(s, steps[0], i);
      CancelledIsNeverSent(Next(s, steps[0]), steps[1..], i);
    }
  }

  /** In particular one that is cancelled while it is queued: it is over and never
      sent, and it stays cancelled in every run exactly when nobody who had read it
      as queued is about to give it up. */
  lemma {:induction false} CancelledWhileQueued(s: State, i: nat)
    requires Inv(s) && i < |s.queries| && s.queries[i].status == Queued
    ensures var t := Next(s, CancelQuery(i));
            forall steps: seq<Step> :: IsOverUnsent(Run(t, steps), i)
    ensures var t := Next(s, CancelQuery(i));
            (forall outcome | outcome in s.queries[i].late :: outcome == Cancelled)
            <==> forall steps: seq<Step> :: HasStatus(Run(t, steps), i, Cancelled)
  {
    var t := Next(s, CancelQuery(i));
    assert QueryInv(s.queries[i]);
    StepKeepsInv(s, CancelQuery(i));
    forall steps: seq<Step> ensures IsOverUnsent(Run(t, steps), i) {
      FinishedIsOver(t, steps, i);
      CancelledIsNeverSent(t, steps, i);
    }
    FinishedIsFinalExactly(t, i);
  }

  predicate IsOverUnsent(s: State, i: nat) {
    i < |s.queries| && !Active(s.queries[i].status) && !s.queries[i].sent
  }

  lemma RunThree(s: State, a: Step, b: Step, c: Step)
    ensures Run(s, [a, b, c]) == Next(Next(Next(s, a), b), c)
  {
    assert [a, b, c][1..] == [b, c] && [b, c][1..] == [c];
    RunOne(Next(Next(s, a), b), c);
  }

  lemma {:induction false} RunConcat(s: State, a: seq<Step>, b: seq<Step>)
    ensures Run(s, a + b) == Run(Run(s, a), b)
    decreases |a|
  {
    if a == [] {
      assert a + b == b;
    } else {
      assert (a + b)[1..] == a[1..] + b;
      RunConcat(Next(s, a[0]), a[1..], b);
    }
  }

  /** A query is queued and its dispatch fails; while that is being recorded the
      user cancels it, and the cancellation is lost. */
  lemma DispatchFailureOverwritesCancellation(s: State) returns (steps: seq<Step>)
    requires Begins(s) && s.status == RequestStatus.Approved
    ensures var t := Run(s, steps);
            && t.queries == [Enqueued(0).(status := Failed, cancelAsked := true)]
            && exists k | 0 <= k < |steps| :: HasStatus(Run(s, steps[..k]), 0, Cancelled)
  {
    var queued := DispatchIsFailing(s);
    var t := Run(s, queued);
    var u := Next(t, CancelQuery(0));
    RunOne(t, CancelQuery(0));
    RunConcat(s, queued, [CancelQuery(0)]);
    assert u.queries == [Enqueued(0).(status := Cancelled, cancelAsked := true, late := multiset{Failed})];
    assert multiset{Failed} - multiset{Failed} == multiset{};
    RunOne(u, LateWrite(0, Failed));
    RunConcat(s, queued + [CancelQuery(0)], [LateWrite(0, Failed)]);
    steps := queued + [CancelQuery(0)] + [LateWrite(0, Failed)];
    assert steps[..|queued| + 1] == queued + [CancelQuery(0)];
  }

  lemma DispatchIsFailing(s: State) returns (steps: seq<Step>)
    requires Begins(s) && s.status == RequestStatus.Approved
    ensures Run(s, steps).queries == [Enqueued(0).(late := multiset{Failed})]
  {
    steps := [Start(false, 60), Queue(0), DispatchFails(0)];
    RunThree(s, Start(false, 60), Queue(0), DispatchFails(0));
    assert multiset{} + multiset{Failed} == multiset{Failed};
  }

  lemma QueryRuns(s: State) returns (steps: seq<Step>)
    requires Begins(s) && s.status == RequestStatus.Approved
    ensures Run(s, steps).queries == [Query(0, Running, false, Executing, multiset{}, true)]
  {
    RunThree(s, Start(false, 60), Queue(0), Claim(0));
    var t := Run(s, [Start(false, 60), Queue(0), Claim(0)]);
    RunOne(t, Connect(0));
    steps := [Start(false, 60), Queue(0), Claim(0)] + [Connect(0)];
    RunConcat(s, [Start(false, 60), Queue(0), Claim(0)], [Connect(0)]);
  }

  /** The reconciler gives up a query that is succeeding at that moment, and the
      success is lost. */
  lemma InterruptionOverwritesSuccess(s: State) returns (steps: seq<Step>)
    requires Begins(s) && s.status == RequestStatus.Approved
    ensures Run(s, steps).queries == [Query(0, TimedOut, false, Gone, multiset{}, true)]
    ensures exists k | 0 <= k < |steps| :: HasStatus(Run(s, steps[..k]), 0, Succeeded)
  {
    var running := QueryRuns(s);
    var t := Run(s, running);
    var succeeds := [Interrupt(0, TimedOut), Return(0, Succeeded), Write(0)];
    RunThree(t, Interrupt(0, TimedOut), Return(0, Succeeded), Write(0));
    RunConcat(s, running, succeeds);
    var u := Run(t, succeeds);
    assert multiset{} + multiset{TimedOut} == multiset{TimedOut};
    assert u.queries == [Query(0, Succeeded, false, Gone, multiset{TimedOut}, true)];
    RunOne(u, LateWrite(0, TimedOut));
    RunConcat(s, running + succeeds, [LateWrite(0, TimedOut)]);
    steps := running + succeeds + [LateWrite(0, TimedOut)];
    assert steps[..|running| + 3] == running + succeeds;
    assert multiset{TimedOut} - multiset{TimedOut} == multiset{};
  }

  /** Cancelling a request is final unless the expiry command has already
      loaded it as running. */
  lemma {:induction false} CancellationStays(s: State, steps: seq<Step>)
    requires s.status == RequestStatus.Cancelled && s.expiring != Some(true)
    ensures Run(s, steps).status == RequestStatus.Cancelled && Run(s, steps).expiring != Some(true)
    decreases |steps|
  {
    if steps == [] {
    } else {
      CancellationStays(Next(s, steps[0]), steps[1..]);
    }
  }

  /** When it has, its late write turns the cancelled request into a completed
      one; and a run with nothing unusual in it gets there. */
  lemma ExpiryOverwritesCancellation(s: State)
    requires s.status == RequestStatus.Running && s.expiring == None
    requires |s.sessions| == 1 && !s.sessions[0].ended && s.sessions[0].expires <= s.now
    ensures var t := Next(Next(s, ExpireRead(0)), CancelRequest);
            && t.status == RequestStatus.Cancelled && t.expiring == Some(true)
            && Next(t, ExpireWrite).status == RequestStatus.Completed
    ensures Next(Next(Next(s, CancelRequest), ExpireRead(0)), ExpireWrite).status == RequestStatus.Cancelled
  {
  }

  /** Cancelled is final exactly when no expiry had loaded the request as
      running. */
  lemma {:induction false} CancellationIsFinalExactly(s: State)
    requires s.status == RequestStatus.Cancelled
    ensures s.expiring != Some(true) <==> forall steps: seq<Step> :: Run(s, steps).status == RequestStatus.Cancelled
  {
    if s.expiring != Some(true) {
      forall steps: seq<Step> ensures Run(s, steps).status == RequestStatus.Cancelled {
        CancellationStays(s, steps);
      }
    } else {
      var steps := [ExpireWrite];
      LateExpiry(s, steps);
      assert Run(s, steps).status != RequestStatus.Cancelled;
    }
  }

  lemma {:induction false} LateExpiry(s: State, steps: seq<Step>)
    requires s.expiring == Some(true) && steps == [ExpireWrite]
    ensures Run(s, steps).status == RequestStatus.Completed
  {
    assert steps[1..] == [];
    assert Run(Next(s, ExpireWrite), steps[1..]) == Next(s, ExpireWrite);
  }

  // ---------------------------------------------------------------------
  // The workflow

  function Connected(q: Query, early: bool, connects: bool): Query {
    var asked := if early then CancelOne(q) else q;
    if connects then ConnectQuery(asked) else ThrowQuery(asked)
  }

  function Ended(q: Query, late: bool, outcome: QueryStatus): Query {
    WriteQuery(ReturnQuery(if late then CancelOne(q) else q, outcome))
  }

  /** A claimed query, from its connection to its end. */
  function Finished(q: Query, early: bool, late: bool, connects: bool, outcome: QueryStatus): Query {
    Ended(Connected(q, early, connects), late, outcome)
  }

  lemma FinishedQuery(q: Query, early: bool, late: bool, connects: bool, outcome: QueryStatus)
    requires QueryInv(q) && q.stage == Claimed && q.status == Running
    requires outcome in if connects then {Succeeded, Failed, TimedOut} else {Failed, TimedOut}
    requires early && connects ==> outcome != Succeeded
    ensures var f := Finished(q, early, late, connects, outcome);
            && f.stage == Gone && f.sent == (q.sent || (connects && !early))
            && f.status == if early || late then Cancelled else outcome
  {
  }

  /** A step of the query's worker, or of somebody who cancels it. */
  predicate OfQuery(step: Step, i: nat) {
    Subject(step) == Some(i) && !step.LateWrite?
  }

  lemma PendingStays(q: Query, step: Step, i: nat, pending: QueryStatus)
    requires OfQuery(step, i) && pending in q.late
    ensures pending in QueryStep(q, step).late
  {
  }

  datatype SessionError = NotApprovedAndUnused | NeedsApproval | ActiveQueryExists

  class QuerySessionWorkflow {
    var status: RequestStatus
    var dispatched: bool
    var sessions: seq<Session>
    var queries: seq<Query>
    var now: nat
    var expiring: Option<bool>

    function View(): State
      reads this
    {
      State(status, dispatched, sessions, queries, now, expiring)
    }

    method Start(needsFresh: bool, seconds: nat) returns (r: Result<Session, SessionError>)
      modifies this
      ensures View() == Next(old(View()), Step.Start(needsFresh, seconds))
      ensures r.Ok? <==> old(status) == RequestStatus.Approved && old(sessions) == [] && !needsFresh
      ensures r.Ok? ==> sessions == [r.value] && r.value == Session(now + seconds, false)
      ensures r.Ok? ==> status == RequestStatus.Running && dispatched
      ensures r == Err(NeedsApproval) <==>
                old(status) == RequestStatus.Approved && old(sessions) == [] && needsFresh
      ensures r == Err(NeedsApproval) ==> status == RequestStatus.PendingReview && !dispatched && sessions == []
      ensures r == Err(NotApprovedAndUnused) ==> View() == old(View())
      ensures queries == old(queries) && now == old(now) && expiring == old(expiring)
    {
      if status != RequestStatus.Approved || sessions != [] {
        return Err(NotApprovedAndUnused);
      }
      if needsFresh {
        status, dispatched := RequestStatus.PendingReview, false;
        return Err(NeedsApproval);
      }
      var session := Session(now + seconds, false);
      sessions := sessions + [session];
      status, dispatched := RequestStatus.Running, true;
      r := Ok(session);
    }

    method Queue(session: nat) returns (r: Result<nat, SessionError>)
      requires session < |sessions|
      modifies `queries
      ensures View() == Next(old(View()), Step.Queue(session))
      ensures r.Ok? <==> forall q | q in old(queries) && q.session == session ::
                           q.status !in {Queued, Running, Cancelling}
      ensures r.Ok? ==> r.value == |old(queries)|
                        && queries == old(queries) + [Query(session, Queued, false, Waiting, multiset{}, false)]
      ensures r.Err? ==> queries == old(queries)
    {
      for i := 0 to |queries|
        invariant forall j | 0 <= j < i && queries[j].session == session :: !Active(queries[j].status)
      {
        if queries[i].session == session && Active(queries[i].status) {
          assert queries[i] in queries;
          return Err(ActiveQueryExists);
        }
      }
      r := Ok(|queries|);
      queries := queries + [Enqueued(session)];
    }

    method Save(i: nat, q: Query)
      requires i < |queries|
      modifies `queries
      ensures queries == old(queries)[i := q]
    {
      queries := queries[i := q];
    }

    method Cancel(i: nat)
      requires i < |queries|
      modifies `queries
      ensures queries == old(queries)[i := CancelOne(old(queries)[i])]
      ensures View() == Next(old(View()), CancelQuery(i))
    {
      queries := queries[i := CancelOne(queries[i])];
    }

    /** The locked transaction of `end`. */
    method EndSession(session: nat)
      requires session < |sessions|
      modifies `status, `sessions
      ensures View() == Next(old(View()), Step.End(session))
    {
      sessions := EndAt(sessions, session);
      if status == RequestStatus.Running {
        status := RequestStatus.Completed;
      }
    }

    /** `cancelForSession`: every active query of the session is cancelled, and
        no other query is touched. */
    method CancelForSession(session: nat)
      modifies `queries
      ensures |queries| == |old(queries)|
      ensures forall i | 0 <= i < |queries| ::
                queries[i] == if old(queries)[i].session == session then CancelOne(old(queries)[i]) else old(queries)[i]
    {
      for i := 0 to |queries|
        invariant |queries| == |old(queries)|
        invariant forall j | 0 <= j < i ::
                    queries[j] == if old(queries)[j].session == session then CancelOne(old(queries)[j])
                                  else old(queries)[j]
        invariant forall j | i <= j < |queries| :: queries[j] == old(queries)[j]
      {
        if queries[i].session == session && Active(queries[i].status) {
          Cancel(i);
        }
      }
    }

    /** `end`: a session that has ended is left alone. Otherwise it ends, a
        running request completes, and what was active in it is cancelled: a
        queued query for good, a running one as soon as its worker looks. */
    method End(session: nat)
      requires session < |sessions|
      modifies `status, `sessions, `queries
      ensures old(sessions)[session].ended ==> View() == old(View())
      ensures !old(sessions)[session].ended ==>
                && View().(queries := old(queries)) == Next(old(View()), Step.End(session))
                && sessions == old(sessions)[session := Session(old(sessions)[session].expires, true)]
                && status == (if old(status) == RequestStatus.Running then RequestStatus.Completed else old(status))
      ensures |queries| == |old(queries)|
      ensures forall i | 0 <= i < |queries| && old(queries)[i].session != session :: queries[i] == old(queries)[i]
      ensures !old(sessions)[session].ended ==>
                forall i | 0 <= i < |queries| && queries[i].session == session ::
                  queries[i] == match old(queries)[i].status
                                case Queued => old(queries)[i].(status := Cancelled, cancelAsked := true)
                                case Running => old(queries)[i].(status := Cancelling, cancelAsked := true)
                                case Cancelling => old(queries)[i].(status := Cancelling, cancelAsked := true)
                                case _ => old(queries)[i]
    {
      if sessions[session].ended {
        return;
      }
      EndSession(session);
      CancelForSession(session);
    }

    /** `markDispatchFailed`: it looks, and if the query was queued then, it is
        recorded as failed, even if it was cancelled or claimed meanwhile. */
    method MarkDispatchFailed(i: nat, meanwhile: seq<Step>) returns (marked: bool)
      requires i < |queries| && forall step | step in meanwhile :: OfQuery(step, i)
      modifies `queries
      ensures marked <==> old(queries)[i].status == Queued
      ensures !marked ==> View() == old(View())
      ensures marked ==>
                && |queries| == |old(queries)| && queries[i].status == Failed
                && (forall j | 0 <= j < |queries| && j != i :: queries[j] == old(queries)[j])
                && View() == Next(Run(Next(old(View()), DispatchFails(i)), meanwhile), LateWrite(i, Failed))
    {
      marked := queries[i].status == Queued;
      if marked {
        TakeStep(i, DispatchFails(i));
        GiveUp(i, Failed, meanwhile);
      }
    }

    /** `markInterrupted`, the same for a query that was active. */
    method MarkInterrupted(i: nat, outcome: QueryStatus, meanwhile: seq<Step>) returns (marked: bool)
      requires i < |queries| && outcome in {Failed, TimedOut} && forall step | step in meanwhile :: OfQuery(step, i)
      modifies `queries
      ensures marked <==> old(queries)[i].status in {Queued, Running, Cancelling}
      ensures !marked ==> View() == old(View())
      ensures marked ==>
                var written := if old(queries)[i].cancelAsked then Cancelled else outcome;
                && |queries| == |old(queries)| && queries[i].status == written
                && (forall j | 0 <= j < |queries| && j != i :: queries[j] == old(queries)[j])
                && View() == Next(Run(Next(old(View()), Interrupt(i, outcome)), meanwhile), LateWrite(i, written))
    {
      marked := Active(queries[i].status);
      if marked {
        var written := if queries[i].cancelAsked then Cancelled else outcome;
        TakeStep(i, Interrupt(i, outcome));
        GiveUp(i, written, meanwhile);
      }
    }

    /** `finishQueuedExecution`, after what others do in the meantime. */
    method GiveUp(i: nat, outcome: QueryStatus, meanwhile: seq<Step>)
      requires i < |queries| && outcome in queries[i].late && forall step | step in meanwhile :: OfQuery(step, i)
      modifies `queries
      ensures |queries| == |old(queries)| && queries[i].status == outcome
      ensures forall j | 0 <= j < |queries| && j != i :: queries[j] == old(queries)[j]
      ensures View() == Next(Run(old(View()), meanwhile), LateWrite(i, outcome))
    {
      Meanwhile(i, meanwhile, outcome);
      Save(i, LateWriteQuery(queries[i], outcome));
    }

    /** What others do with the query before the outcome is written. */
    method Meanwhile(i: nat, steps: seq<Step>, pending: QueryStatus)
      requires i < |queries| && pending in queries[i].late && forall step | step in steps :: OfQuery(step, i)
      modifies `queries
      ensures |queries| == |old(queries)| && pending in queries[i].late
      ensures forall j | 0 <= j < |queries| && j != i :: queries[j] == old(queries)[j]
      ensures View() == Run(old(View()), steps)
    {
      ghost var start := View();
      for k := 0 to |steps|
        invariant |queries| == |old(queries)| && pending in queries[i].late
        invariant forall j | 0 <= j < |queries| && j != i :: queries[j] == old(queries)[j]
        invariant View() == Run(start, steps[..k])
      {
        assert OfQuery(steps[k], i);
        assert steps[..k + 1] == steps[..k] + [steps[k]];
        RunConcat(start, steps[..k], [steps[k]]);
        RunOne(View(), steps[k]);
        PendingStays(queries[i], steps[k], i, pending);
        TakeStep(i, steps[k]);
      }
      assert steps[..|steps|] == steps;
    }

    method TakeStep(i: nat, step: Step)
      requires i < |queries| && Subject(step) == Some(i)
      modifies `queries
      ensures View() == Next(old(View()), step)
      ensures queries == old(queries)[i := QueryStep(old(queries)[i], step)]
    {
      Save(i, QueryStep(queries[i], step));
    }

    /** The locked transaction that takes a query off the queue. */
    method ClaimQueued(i: nat) returns (claimed: bool)
      requires i < |queries| && queries[i].stage == Waiting
      modifies `queries
      ensures View() == Next(old(View()), Claim(i))
      ensures claimed == (old(queries)[i].status == Queued)
      ensures queries == old(queries)[i := ClaimQuery(old(queries)[i])]
    {
      claimed := queries[i].status == Queued;
      queries := queries[i := ClaimQuery(queries[i])];
    }

    /** `executeQueued`, with a cancellation before or after the statement is
        sent, or none. The statement is sent exactly when the query was still
        queued, could be connected and was not cancelled first; a cancellation
        before the worker's last look decides the outcome. */
    method ExecuteQueued(i: nat, early: bool, late: bool, connects: bool, outcome: QueryStatus)
      requires i < |queries| && queries[i].stage == Waiting && QueryInv(queries[i])
      requires outcome in if connects then {Succeeded, Failed, TimedOut} else {Failed, TimedOut}
      requires early && connects ==> outcome != Succeeded
      modifies `queries
      ensures |queries| == |old(queries)|
      ensures forall j | 0 <= j < |queries| && j != i :: queries[j] == old(queries)[j]
      ensures old(queries)[i].status != Queued ==> queries[i] == old(queries)[i].(stage := Gone)
      ensures old(queries)[i].status == Queued ==>
                && queries[i].stage == Gone
                && queries[i].sent == (connects && !early)
                && queries[i].status == if early || late then Cancelled else outcome
    {
      var claimed := ClaimQueued(i);
      if claimed {
        ExecuteClaimed(i, early, late, connects, outcome);
      }
    }

    method ExecuteClaimed(i: nat, early: bool, late: bool, connects: bool, outcome: QueryStatus)
      requires i < |queries| && queries[i].stage == Claimed && queries[i].status == Running && QueryInv(queries[i])
      requires outcome in if connects then {Succeeded, Failed, TimedOut} else {Failed, TimedOut}
      requires early && connects ==> outcome != Succeeded
      modifies `queries
      ensures |queries| == |old(queries)|
      ensures forall j | 0 <= j < |queries| && j != i :: queries[j] == old(queries)[j]
      ensures queries[i].stage == Gone && queries[i].sent == (old(queries)[i].sent || (connects && !early))
      ensures queries[i].status == if early || late then Cancelled else outcome
    {
      FinishedQuery(queries[i], early, late, connects, outcome);
      ConnectClaimed(i, early, connects);
      EndExecution(i, late, outcome);
    }

    method ConnectClaimed(i: nat, early: bool, connects: bool)
      requires i < |queries|
      modifies `queries
      ensures queries == old(queries)[i := Connected(old(queries)[i], early, connects)]
    {
      if early {
        Cancel(i);
      }
      Save(i, if connects then ConnectQuery(queries[i]) else ThrowQuery(queries[i]));
    }

    method EndExecution(i: nat, late: bool, outcome: QueryStatus)
      requires i < |queries|
      modifies `queries
      ensures queries == old(queries)[i := Ended(old(queries)[i], late, outcome)]
    {
      if late {
        Cancel(i);
      }
      Save(i, ReturnQuery(queries[i], outcome));
      Save(i, WriteQuery(queries[i]));
    }
  }
}
