/**
 The stream protocol's promises, stated for every reachable state and every run.
 */
module StreamTheorems {
  import opened Prelude
  import opened StreamProtocol
  import opened StreamProofs

  // ------------------------------------------------ what the platform receives

  lemma {:induction false} EvidencesSize(id: RequestId, n: nat, forbidden: bool)
    ensures |Evidences(id, n, forbidden)| == n
  {
    if n > 0 {
      EvidencesSize(id, n - 1, forbidden);
    }
  }

  lemma {:induction false} EvidencesGrow(id: RequestId, k: nat, n: nat, forbidden: bool)
    requires k <= n
    ensures Evidences(id, k, forbidden) <= Evidences(id, n, forbidden)
  {
    if k < n {
      EvidencesGrow(id, k, n - 1, forbidden);
    }
  }

  lemma {:induction false} SentIsPartial(id: RequestId, ws: seq<Worker>)
    ensures SentBy(id, ws) <= Evidences(id, |ws|, false)
  {
    if ws != [] {
      SentIsPartial(id, ws[..|ws| - 1]);
    }
  }

  /** No evidence list holds a message twice, or a message that is not evidence for one of its specs. */
  lemma {:induction false} EvidencesOnceEach(id: RequestId, n: nat, forbidden: bool, m: Message)
    ensures Evidences(id, n, forbidden)[m]
         == if m.Evidence? && m.id == id && m.spec < n && m.forbidden == forbidden then 1 else 0
  {
    if n > 0 {
      EvidencesOnceEach(id, n - 1, forbidden, m);
    }
  }

  /**
   At every moment of every interleaving, the send attempts of one request are
   evidence messages, never more than one per spec; and once Done has been sent
   they are exactly one per spec followed by that one Done. Both its counts are
   the number of specs, or agree with it modulo 2^32 when it does not fit an
   int32. The refusal path has the same shape.
   */
  lemma {:induction false} RequestShape(configured: int, s: State, r: nat)
    requires Reaches(configured, s) && r < |s.requests|
    ensures
      var q := s.requests[r];
      var sent := Project(s.log, q.id);
      && (!DoneSent(q) ==> multiset(sent) <= Evidences(q.id, q.specs, q.refused))
      && (DoneSent(q) ==>
            |sent| == q.specs + 1 &&
            sent[q.specs].Done? && sent[q.specs].id == q.id && sent[q.specs].emitted == sent[q.specs].requested &&
            -0x8000_0000 <= sent[q.specs].requested < 0x8000_0000 &&
            (sent[q.specs].requested - q.specs) % 0x1_0000_0000 == 0 &&
            (q.specs < 0x8000_0000 ==> sent[q.specs] == Done(q.id, q.specs, q.specs)) &&
            multiset(sent[..q.specs]) == Evidences(q.id, q.specs, q.refused))
  {
    hide Reaches, LocalOk, LogOk, DoneSent, Project, Int32, Evidences;
    var q := s.requests[r];
    RequestOk(configured, s, r);
    CountIsInt32(q.specs);
    ShapeOf(q, s.limit, Project(s.log, q.id));
  }

  lemma {:induction false} RequestOk(configured: int, s: State, r: nat)
    requires Reaches(configured, s) && r < |s.requests|
    ensures LocalOk(s.requests[r], s.limit) && LogOk(s.requests[r], Project(s.log, s.requests[r].id))
  {
    hide Reaches, LocalOk, LogOk, WriterOk, Attributed, DistinctIds;
    ReachableInv(configured, s);
  }

  /** A count on the wire is the int32 that agrees with it modulo 2^32, so itself if it fits. */
  lemma {:induction false} CountIsInt32(n: nat)
    ensures -0x8000_0000 <= Int32(n) < 0x8000_0000 && (Int32(n) - n) % 0x1_0000_0000 == 0
    ensures n < 0x8000_0000 ==> Int32(n) == n
  {
  }

  lemma {:induction false} ShapeOf(q: Request, limit: nat, sent: seq<Message>)
    requires LocalOk(q, limit) && LogOk(q, sent)
    ensures !DoneSent(q) ==> multiset(sent) <= Evidences(q.id, q.specs, q.refused)
    ensures DoneSent(q) ==>
              |sent| == q.specs + 1 &&
              sent[q.specs] == Done(q.id, Int32(q.specs), Int32(q.specs)) &&
              multiset(sent[..q.specs]) == Evidences(q.id, q.specs, q.refused)
  {
    hide Int32, LocalOk, Evidences, Sent;
    SentSoFar(q, limit);
    if DoneSent(q) {
      EvidencesSize(q.id, q.specs, q.refused);
      assert |sent[..|sent| - 1]| == |multiset(sent[..|sent| - 1])|;
    }
  }

  /** What has been accounted for is evidence, at most once per spec, and all of it once Done has been sent. */
  lemma {:induction false} SentSoFar(q: Request, limit: nat)
    requires LocalOk(q, limit)
    ensures Sent(q) <= Evidences(q.id, q.specs, q.refused)
    ensures DoneSent(q) ==> Sent(q) == Evidences(q.id, q.specs, q.refused)
  {
    hide Count, CounterOk, Evidences, SentBy;
    if q.refused {
      EvidencesGrow(q.id, RefusalsSent(q), q.specs, true);
    } else {
      SentIsPartial(q.id, q.workers);
      if DoneSent(q) {
        SentUniform(q.id, q.workers, Finished);
      }
    }
  }

  /** The reads one request has in flight never exceed MaxConcurrent. */
  lemma {:induction false} ReadsAreBounded(configured: int, s: State, r: nat)
    requires Reaches(configured, s) && r < |s.requests|
    ensures Count(s.requests[r].workers, HoldingSlot) <= if configured <= 0 then 8 else configured
  {
    var states: seq<State>, steps: seq<Step> :|
      IsRun(states, steps) && states[0] == Initial(configured) && states[|steps|] == s;
    LimitIsFixed(states, steps, |steps|);
    ReachableInv(configured, s);
    assert LocalOk(s.requests[r], s.limit);
  }

  lemma {:induction false} LimitIsFixed(states: seq<State>, steps: seq<Step>, k: nat)
    requires IsRun(states, steps) && k <= |steps|
    ensures states[k].limit == states[0].limit
  {
    if k > 0 {
      LimitIsFixed(states, steps, k - 1);
      assert states[k] == Apply(states[k - 1], steps[k - 1]);
    }
  }

  /** A goroutine between taking the write lock and giving it back. */
  predicate InsideSend(s: State, actor: Actor) {
    match actor
    case ByReader => s.reader in {HealthLocked, HealthWritten}
    case ByServer(r) =>
      r < |s.requests| &&
      var server := s.requests[r].server;
      server.RefusalLocked? || server.RefusalWritten? || server.ClosingLocked? || server.ClosingWritten?
    case ByWorker(r, i) =>
      r < |s.requests| && i < |s.requests[r].workers| && s.requests[r].workers[i] in {WriteLocked, Written}
  }

  /** At most one goroutine is inside send: of the receive loop, every serve and every worker of every request. */
  lemma {:induction false} OneSenderAtATime(configured: int, s: State, a: Actor, b: Actor)
    requires Reaches(configured, s)
    requires InsideSend(s, a) && InsideSend(s, b)
    ensures a == b
  {
    ReachableInv(configured, s);
    assert WriterOk(s);
    HoldsTheLock(s, a);
    HoldsTheLock(s, b);
    hide Reaches, Inv, InsideSend, WriterOk;
  }

  lemma {:induction false} HoldsTheLock(s: State, actor: Actor)
    requires WriterOk(s) && InsideSend(s, actor)
    ensures s.writer == Some(actor)
  {
    match actor
    case ByReader => assert ReaderHolds(s.reader);
    case ByServer(r) => assert ServerHolds(s.requests[r].server);
    case ByWorker(r, i) => assert WorkerHolds(s.requests[r].workers[i]);
  }

  // ------------------------------------------------------------------ progress

  /** Steps the agent takes by itself: everything but reading from the stream. */
  predicate Internal(step: Step) {
    step.ReaderMoves? || step.ServerMoves? || step.WorkerMoves?
  }

  function WorkerRank(w: Worker): nat {
    match w
    case Unlaunched => 12
    case Launched => 11
    case Reading => 10
    case HasRecord => 9
    case WriteLocked => 8
    case Written => 7
    case Unlocked => 6
    case CounterLocked => 5
    case Loaded(_) => 4
    case Stored => 3
    case Counted => 2
    case SlotReturned => 1
    case Finished => 0
  }

  function WorkersRank(ws: seq<Worker>): nat {
    if ws == [] then 0 else WorkersRank(ws[..|ws| - 1]) + WorkerRank(ws[|ws| - 1])
  }

  function ServerRank(q: Request): int {
    match q.server
    case Deciding => 3 * q.specs + 6
    case Refusing(next) => 3 * (q.specs - next) + 4
    case RefusalLocked(next) => 3 * (q.specs - next) + 3
    case RefusalWritten(next) => 3 * (q.specs - next) + 2
    case Adding(next) => 2 * (q.specs - next) + 5
    case Launching(next) => 2 * (q.specs - next) + 4
    case Waiting => 4
    case Closing(_) => 3
    case ClosingLocked(_) => 2
    case ClosingWritten => 1
    case Ended => 0
  }

  function RequestRank(q: Request): int {
    ServerRank(q) + WorkersRank(q.workers)
  }

  function RequestsRank(requests: seq<Request>): int {
    if requests == [] then 0
    else RequestsRank(requests[..|requests| - 1]) + RequestRank(requests[|requests| - 1])
  }

  function ReaderRank(reader: Reader): nat {
    match reader
    case HealthPending => 3
    case HealthLocked => 2
    case HealthWritten => 1
    case _ => 0
  }

  function Rank(s: State): int {
    RequestsRank(s.requests) + ReaderRank(s.reader)
  }

  lemma {:induction false} WorkersRankUpdate(ws: seq<Worker>, i: nat, w: Worker)
    requires i < |ws|
    ensures WorkersRank(ws[i := w]) == WorkersRank(ws) - WorkerRank(ws[i]) + WorkerRank(w)
  {
    var n := |ws| - 1;
    if i == n {
      assert ws[i := w][..n] == ws[..n];
    } else {
      WorkersRankUpdate(ws[..n], i, w);
      assert ws[i := w][..n] == ws[..n][i := w];
    }
  }

  lemma {:induction false} RequestsRankUpdate(requests: seq<Request>, r: nat, q: Request)
    requires r < |requests|
    ensures RequestsRank(requests[r := q]) == RequestsRank(requests) - RequestRank(requests[r]) + RequestRank(q)
  {
    var n := |requests| - 1;
    if r == n {
      assert requests[r := q][..n] == requests[..n];
    } else {
      RequestsRankUpdate(requests[..n], r, q);
      assert requests[r := q][..n] == requests[..n][r := q];
    }
  }

  lemma {:induction false} ServerRankDrops(q: Request, limit: nat, lockFree: bool)
    requires LocalOk(q, limit) && ServerReady(q, lockFree)
    ensures RequestRank(ServerLocal(q)) < RequestRank(q)
  {
    hide WorkersRank, Count;
    if q.server.Launching? {
      WorkersRankUpdate(q.workers, q.server.next, Launched);
    }
  }

  lemma {:induction false} WorkerRankDrops(q: Request, i: nat, limit: nat, lockFree: bool)
    requires i < |q.workers| && WorkerReady(q, i, limit, lockFree)
    ensures RequestRank(WorkerLocal(q, i)) < RequestRank(q)
  {
    hide WorkerLocal, WorkerReady, WorkerRank;
    WorkerMovesDown(q, i, limit, lockFree);
    WorkersRankUpdate(q.workers, i, WorkerLocal(q, i).workers[i]);
  }

  lemma {:induction false} WorkerMovesDown(q: Request, i: nat, limit: nat, lockFree: bool)
    requires i < |q.workers| && WorkerReady(q, i, limit, lockFree)
    ensures
      var next := WorkerLocal(q, i);
      && |next.workers| == |q.workers| && next.workers == q.workers[i := next.workers[i]]
      && next.server == q.server && next.specs == q.specs
      && WorkerRank(next.workers[i]) < WorkerRank(q.workers[i])
  {
  }

  lemma {:induction false} RanksAreNatural(s: State)
    requires Inv(s)
    ensures 0 <= Rank(s)
  {
    hide RequestsRank, RequestRank, LocalOk, LogOk, WriterOk, Attributed, DistinctIds;
    RequestsRankNatural(s.requests, s.limit);
  }

  lemma {:induction false} RequestsRankNatural(requests: seq<Request>, limit: nat)
    requires forall r :: 0 <= r < |requests| ==> LocalOk(requests[r], limit)
    ensures 0 <= RequestsRank(requests)
  {
    hide RequestRank, LocalOk;
    if requests != [] {
      RequestsRankNatural(requests[..|requests| - 1], limit);
      RequestRankNatural(requests[|requests| - 1], limit);
    }
  }

  lemma {:induction false} RequestRankNatural(q: Request, limit: nat)
    requires LocalOk(q, limit)
    ensures 0 <= RequestRank(q)
  {
    hide Count, CounterOk, WorkersRank, AllAre, LaunchedUpTo;
  }

  /** What a step brings in that has to be worked off: a request its specs, a heartbeat its answer. */
  function Cost(step: Step): nat {
    match step
    case Receive(_, specs, _) => 15 * specs + 6
    case Beat => 3
    case _ => 0
  }

  lemma {:induction false} UnlaunchedRank(ws: seq<Worker>)
    requires AllAre(ws, Unlaunched)
    ensures WorkersRank(ws) == 12 * |ws|
  {
    if ws != [] {
      UnlaunchedRank(ws[..|ws| - 1]);
    }
  }

  lemma {:induction false} ReceiveSpends(s: State, id: RequestId, specs: nat, refused: bool)
    ensures Rank(Apply(s, Receive(id, specs, refused))) == Rank(s) + Cost(Receive(id, specs, refused))
  {
    var q := NewRequest(id, specs, refused);
    UnlaunchedRank(q.workers);
    assert (s.requests + [q])[..|s.requests|] == s.requests;
    hide WorkersRank;
  }

  lemma {:induction false} ServerSpends(s: State, r: nat, delivered: bool)
    requires r < |s.requests| && LocalOk(s.requests[r], s.limit) && ServerReady(s.requests[r], s.writer.None?)
    ensures Rank(Apply(s, ServerMoves(r, delivered))) < Rank(s)
  {
    ServerRankDrops(s.requests[r], s.limit, s.writer.None?);
    RequestsRankUpdate(s.requests, r, ServerLocal(s.requests[r]));
    hide ServerLocal, ServerReady, LocalOk, RequestRank, RequestsRank, ServerSends, Logged, WriterAfter, ServerHolds;
  }

  lemma {:induction false} WorkerSpends(s: State, r: nat, i: nat, delivered: bool)
    requires r < |s.requests| && i < |s.requests[r].workers| && WorkerReady(s.requests[r], i, s.limit, s.writer.None?)
    ensures Rank(Apply(s, WorkerMoves(r, i, delivered))) < Rank(s)
  {
    WorkerRankDrops(s.requests[r], i, s.limit, s.writer.None?);
    RequestsRankUpdate(s.requests, r, WorkerLocal(s.requests[r], i));
    hide WorkerLocal, WorkerReady, RequestRank, RequestsRank, Logged, WriterAfter, WorkerHolds;
  }

  lemma {:induction false} ReaderSpends(s: State, step: Step)
    requires Enabled(s, step) && (step.ReaderMoves? || step.Beat? || step.Ignore? || step.StreamCloses?)
    ensures Rank(Apply(s, step)) + (if Internal(step) then 1 else 0) <= Rank(s) + Cost(step)
  {
    hide RequestsRank, Logged, WriterAfter, ReaderHolds;
  }

  /** No step makes more work than it brings in, and every step the agent takes by itself works some off. */
  lemma {:induction false} StepSpends(s: State, step: Step)
    requires Inv(s) && Enabled(s, step)
    ensures Rank(Apply(s, step)) + (if Internal(step) then 1 else 0) <= Rank(s) + Cost(step)
  {
    if step.Receive? {
      ReceiveSpends(s, step.id, step.specs, step.refused);
    } else if step.ServerMoves? {
      assert LocalOk(s.requests[step.request], s.limit);
      ServerSpends(s, step.request, step.delivered);
    } else if step.WorkerMoves? {
      WorkerSpends(s, step.request, step.worker, step.delivered);
    } else {
      ReaderSpends(s, step);
    }
    hide Rank, Apply, LocalOk, ServerReady, WorkerReady, WriterOk, LogOk, Attributed, DistinctIds;
  }

  /** Every step the agent takes by itself uses up part of a finite budget. */
  lemma {:induction false} InternalStepsDescend(s: State, step: Step)
    requires Inv(s) && Enabled(s, step) && Internal(step)
    ensures Rank(Apply(s, step)) < Rank(s)
  {
    StepSpends(s, step);
    hide Inv, Enabled, Apply, Rank;
  }

  /** The holder of the write lock can always go on. */
  lemma {:induction false} LockHolderMoves(s: State) returns (step: Step)
    requires Inv(s) && s.writer.Some?
    ensures Enabled(s, step) && Internal(step)
  {
    match s.writer.value
    case ByReader => step := ReaderMoves(true);
    case ByServer(r) =>
      assert ServerHolds(s.requests[r].server);
      step := ServerMoves(r, true);
    case ByWorker(r, i) =>
      assert WorkerHolds(s.requests[r].workers[i]);
      step := WorkerMoves(r, i, true);
  }

  /** With the write lock free, a worker that holds a slot can go on or waits for one that can. */
  lemma {:induction false} SlotHolderMoves(q: Request, limit: nat, i: nat) returns (j: nat)
    requires LocalOk(q, limit) && i < |q.workers| && Within(HoldingSlot, q.workers[i])
    ensures j < |q.workers| && WorkerReady(q, j, limit, true)
  {
    j := i;
    if q.workers[i].Unlocked? && q.counter.Some? {
      j := q.counter.value;
      assert InCounter(q.workers[j]);
    } else if q.workers[i].Counted? {
      CountMember(q.workers, i, HoldingSlot);
    }
  }

  /** With the write lock free and work outstanding, some worker of the request can go on. */
  lemma {:induction false} OutstandingWorkMoves(q: Request, limit: nat) returns (j: nat)
    requires LocalOk(q, limit) && 0 < limit && q.server.Waiting? && q.pending != 0
    ensures j < |q.workers| && WorkerReady(q, j, limit, true)
  {
    j := CountPositive(q.workers, Outstanding);
    if q.workers[j].Launched? && q.slots == limit {
      var i := CountPositive(q.workers, HoldingSlot);
      j := SlotHolderMoves(q, limit, i);
    } else if Within(HoldingSlot, q.workers[j]) {
      j := SlotHolderMoves(q, limit, j);
    }
  }

  /** The fan-out never deadlocks: until every request has ended, the agent can take a step. */
  lemma {:induction false} NeverStuck(s: State, r: nat) returns (step: Step)
    requires Inv(s) && r < |s.requests| && !s.requests[r].server.Ended?
    ensures Enabled(s, step) && Internal(step)
  {
    if s.writer.Some? {
      step := LockHolderMoves(s);
    } else {
      var q := s.requests[r];
      assert LocalOk(q, s.limit);
      if q.server.Waiting? && q.pending != 0 {
        var j := OutstandingWorkMoves(q, s.limit);
        step := WorkerMoves(r, j, true);
      } else {
        step := ServerMoves(r, true);
      }
    }
  }

  function InternalCount(steps: seq<Step>): nat {
    if steps == [] then 0
    else InternalCount(steps[..|steps| - 1]) + if Internal(steps[|steps| - 1]) then 1 else 0
  }

  function TotalCost(steps: seq<Step>): nat {
    if steps == [] then 0 else TotalCost(steps[..|steps| - 1]) + Cost(steps[|steps| - 1])
  }

  /**
   Over any run, whatever requests and heartbeats arrive in between: the steps
   the agent takes by itself, and the work still left, are paid for by the work
   at the start and what the arrivals brought.
   */
  lemma {:induction false} RunsAreBudgeted(states: seq<State>, steps: seq<Step>, n: nat)
    requires IsRun(states, steps) && Inv(states[0]) && n <= |steps|
    ensures InternalCount(steps[..n]) + Rank(states[n]) <= Rank(states[0]) + TotalCost(steps[..n])
    ensures InternalCount(steps[..n]) <= Rank(states[0]) + TotalCost(steps[..n])
  {
    hide Inv, Enabled, Apply, Rank, Cost, Internal;
    RunKeepsInv(states, steps, n);
    RanksAreNatural(states[n]);
    if n > 0 {
      RunsAreBudgeted(states, steps, n - 1);
      RunKeepsInv(states, steps, n - 1);
      StepSpends(states[n - 1], steps[n - 1]);
      assert steps[..n][..n - 1] == steps[..n - 1];
    }
  }

  /** So a run of n internal steps spends at least n units of the starting rank. */
  lemma {:induction false} InternalRunsAreShort(states: seq<State>, steps: seq<Step>, n: nat)
    requires IsRun(states, steps) && Inv(states[0]) && n <= |steps|
    requires forall k :: 0 <= k < n ==> Internal(steps[k])
    ensures n + Rank(states[n]) <= Rank(states[0])
    ensures n <= Rank(states[0])
  {
    RunsAreBudgeted(states, steps, n);
    NothingArrives(steps[..n]);
    hide Inv, Enabled, Apply, Rank;
    RunKeepsInv(states, steps, n);
    RanksAreNatural(states[n]);
  }

  lemma {:induction false} NothingArrives(steps: seq<Step>)
    requires forall k :: 0 <= k < |steps| ==> Internal(steps[k])
    ensures InternalCount(steps) == |steps| && TotalCost(steps) == 0
  {
    if steps != [] {
      NothingArrives(steps[..|steps| - 1]);
    }
  }

  /**
   When the agent has nothing left to do, every request it was given has been
   answered in full: one evidence message per spec and then its Done.
   */
  lemma {:induction false} QuietMeansAnswered(configured: int, s: State, r: nat)
    requires Reaches(configured, s) && r < |s.requests|
    requires forall step :: Internal(step) ==> !Enabled(s, step)
    ensures
      var q := s.requests[r];
      var sent := Project(s.log, q.id);
      && |sent| == q.specs + 1
      && sent[q.specs].Done? && sent[q.specs].id == q.id && sent[q.specs].emitted == sent[q.specs].requested
      && -0x8000_0000 <= sent[q.specs].requested < 0x8000_0000
      && (sent[q.specs].requested - q.specs) % 0x1_0000_0000 == 0
      && (q.specs < 0x8000_0000 ==> sent[q.specs] == Done(q.id, q.specs, q.specs))
      && multiset(sent[..q.specs]) == Evidences(q.id, q.specs, q.refused)
  {
    hide Reaches, LocalOk, LogOk, WriterOk, Attributed, DistinctIds, Enabled, Int32, Evidences, Project;
    ReachableInv(configured, s);
    if !s.requests[r].server.Ended? {
      var step := NeverStuck(s, r);
      assert false;
    }
    RequestShape(configured, s, r);
  }

  /** No step of the reader or of another request sets a request back. */
  lemma {:induction false} OthersDoNotInterfere(s: State, step: Step, r: nat)
    requires Inv(s) && Enabled(s, step) && r < |s.requests|
    ensures r < |Apply(s, step).requests|
    ensures RequestRank(Apply(s, step).requests[r]) <= RequestRank(s.requests[r])
    ensures !((step.ServerMoves? || step.WorkerMoves?) && step.request == r) ==>
              Apply(s, step).requests[r] == s.requests[r] &&
              Project(Apply(s, step).log, s.requests[r].id) == Project(s.log, s.requests[r].id)
  {
    match step
    case ServerMoves(o, d) =>
      assert LocalOk(s.requests[o], s.limit);
      ServerRankDrops(s.requests[o], s.limit, s.writer.None?);
      LoggedProjects(s, o, ServerSends(s.requests[o]), d);
    case WorkerMoves(o, i, d) =>
      var q := s.requests[o];
      WorkerRankDrops(q, i, s.limit, s.writer.None?);
      LoggedProjects(s, o, if q.workers[i].WriteLocked? then Some(Evidence(q.id, i, false)) else None, d);
    case ReaderMoves(d) =>
      ProjectAppend(s.log, Attempt(Health, d), s.requests[r].id);
    case _ =>
  }

  /** After Done nothing more is ever sent for that request. */
  lemma {:induction false} DoneIsFinal(states: seq<State>, steps: seq<Step>, k: nat, m: nat, r: nat)
    requires IsRun(states, steps) && Inv(states[0]) && k <= m <= |steps|
    requires r < |states[k].requests| && DoneSent(states[k].requests[r])
    ensures r < |states[m].requests| && DoneSent(states[m].requests[r])
    ensures states[m].requests[r].id == states[k].requests[r].id
    ensures Project(states[m].log, states[m].requests[r].id) == Project(states[k].log, states[k].requests[r].id)
  {
    hide Inv, Enabled, Apply, Project, DoneSent;
    if k < m {
      DoneIsFinal(states, steps, k, m - 1, r);
      RunKeepsInv(states, steps, m - 1);
      DoneStepIsSilent(states[m - 1], steps[m - 1], r);
    }
  }

  lemma {:induction false} DoneStepIsSilent(s: State, step: Step, r: nat)
    requires Inv(s) && Enabled(s, step) && r < |s.requests| && DoneSent(s.requests[r])
    ensures
      var t := Apply(s, step);
      r < |t.requests| && DoneSent(t.requests[r]) && t.requests[r].id == s.requests[r].id &&
      Project(t.log, t.requests[r].id) == Project(s.log, s.requests[r].id)
  {
    OthersDoNotInterfere(s, step, r);
    assert LocalOk(s.requests[r], s.limit);
  }
}
