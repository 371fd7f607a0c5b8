/** What each goroutine of the client waits for, and what it puts on the stream, in every reachable state. */
module StreamSteps {
  import opened StreamProtocol
  import opened StreamProofs

  // ----------------------------------------------------------------- waiting

  /** Between messages the receive loop takes whatever comes: a new request, a heartbeat, anything else, the end. */
  lemma {:induction false} ReaderTakesAnything(s: State, id: RequestId, specs: nat, refused: bool)
    ensures Enabled(s, Receive(id, specs, refused)) <==>
              s.reader.Receiving? && forall r :: 0 <= r < |s.requests| ==> s.requests[r].id != id
    ensures Enabled(s, Beat) <==> s.reader.Receiving?
    ensures Enabled(s, Ignore) <==> s.reader.Receiving?
    ensures Enabled(s, StreamCloses) <==> s.reader.Receiving?
  {
  }

  /** While it answers a heartbeat the receive loop waits only for the write lock. */
  lemma {:induction false} ReaderWaitsOnlyFor(s: State, delivered: bool)
    ensures !Enabled(s, ReaderMoves(delivered)) <==>
              s.reader.Receiving? || s.reader.Stopped? || (s.reader.HealthPending? && s.writer.Some?)
  {
  }

  /** A worker of the request is running, or still to be started. */
  predicate Unfinished(q: Request) {
    exists i :: 0 <= i < |q.workers| && !q.workers[i].Unlaunched? && !q.workers[i].Finished?
  }

  /**
   A serve call waits only to send, for the write lock, and before it closes, for
   its own workers.
   */
  lemma {:induction false} ServerWaitsOnlyFor(configured: int, s: State, r: nat, delivered: bool)
    requires Reaches(configured, s) && r < |s.requests|
    ensures
      var q := s.requests[r];
      !Enabled(s, ServerMoves(r, delivered)) <==>
      || q.server.Ended?
      || (q.server.Waiting? && Unfinished(q))
      || (s.writer.Some? && (q.server.Closing? || (q.server.Refusing? && q.server.next < q.specs)))
  {
    ReachableInv(configured, s);
    var q := s.requests[r];
    assert LocalOk(q, s.limit);
    OutstandingIff(q);
    hide Reaches, Inv, Unfinished, Count;
  }

  lemma {:induction false} OutstandingIff(q: Request)
    ensures 0 < Count(q.workers, Outstanding) <==> Unfinished(q)
  {
    if 0 < Count(q.workers, Outstanding) {
      var i := CountPositive(q.workers, Outstanding);
    }
    if i :| 0 <= i < |q.workers| && !q.workers[i].Unlaunched? && !q.workers[i].Finished? {
      CountMember(q.workers, i, Outstanding);
    }
  }

  /** How many workers of the request hold a slot, by where they are in their program. */
  function Holders(workers: seq<Worker>): nat {
    if workers == [] then 0
    else
      var n := |workers| - 1;
      Holders(workers[..n]) + match workers[n]
                              case Unlaunched => 0
                              case Launched => 0
                              case SlotReturned => 0
                              case Finished => 0
                              case _ => 1
  }

  lemma {:induction false} HoldersAre(workers: seq<Worker>)
    ensures Holders(workers) == Count(workers, HoldingSlot)
  {
    if workers != [] {
      HoldersAre(workers[..|workers| - 1]);
    }
  }

  /**
   A worker waits only for a slot while every one is taken, for the write lock,
   or for the counter while another worker of its request has it.
   */
  lemma {:induction false} WorkerWaitsOnlyFor(configured: int, s: State, r: nat, i: nat, delivered: bool)
    requires Reaches(configured, s) && r < |s.requests| && i < |s.requests[r].workers|
    ensures
      var q := s.requests[r];
      !Enabled(s, WorkerMoves(r, i, delivered)) <==>
      || q.workers[i].Unlaunched? || q.workers[i].Finished?
      || (q.workers[i].Launched? && Holders(q.workers) == s.limit)
      || (q.workers[i].HasRecord? && s.writer.Some?)
      || (q.workers[i].Unlocked? && InTheCounter(q))
  {
    hide Reaches, LocalOk, LogOk, WriterOk, Attributed, DistinctIds, WorkerReady, Holders, InTheCounter;
    ReachableInv(configured, s);
    WorkerHeldUpIff(s.requests[r], i, s.limit, s.writer.None?);
  }

  lemma {:induction false} WorkerHeldUpIff(q: Request, i: nat, limit: nat, lockFree: bool)
    requires LocalOk(q, limit) && i < |q.workers|
    ensures
      !WorkerReady(q, i, limit, lockFree) <==>
      || q.workers[i].Unlaunched? || q.workers[i].Finished?
      || (q.workers[i].Launched? && Holders(q.workers) == limit)
      || (q.workers[i].HasRecord? && !lockFree)
      || (q.workers[i].Unlocked? && InTheCounter(q))
  {
    hide Count, Holders, InTheCounter, CounterOk, PhaseOk;
    HoldersAre(q.workers);
    CounterIff(q);
    if q.workers[i].Counted? {
      CountMember(q.workers, i, HoldingSlot);
    }
    if q.workers[i].SlotReturned? {
      CountMember(q.workers, i, Outstanding);
    }
  }

  /** Some worker of the request is between locking the counter and unlocking it. */
  predicate InTheCounter(q: Request) {
    exists i :: 0 <= i < |q.workers| &&
      (q.workers[i].CounterLocked? || q.workers[i].Loaded? || q.workers[i].Stored?)
  }

  lemma {:induction false} CounterIff(q: Request)
    requires CounterOk(q)
    ensures q.counter.Some? <==> InTheCounter(q)
  {
    if q.counter.Some? {
      assert InCounter(q.workers[q.counter.value]);
    }
    if i :| 0 <= i < |q.workers| && (q.workers[i].CounterLocked? || q.workers[i].Loaded? || q.workers[i].Stored?) {
      assert InCounter(q.workers[i]);
    }
  }

  // ---------------------------------------------------------------- requests

  /** A request that arrives is served under the terms it came with, and nothing has been done for it yet. */
  lemma {:induction false} ArrivesAsSent(s: State, id: RequestId, specs: nat, refused: bool)
    ensures
      var after := Apply(s, Receive(id, specs, refused)).requests;
      && |after| == |s.requests| + 1 && after[..|s.requests|] == s.requests
      && after[|s.requests|].id == id && after[|s.requests|].specs == specs && after[|s.requests|].refused == refused
      && after[|s.requests|].server == Deciding
      && |after[|s.requests|].workers| == specs && forall w :: w in after[|s.requests|].workers ==> w == Unlaunched
  {
  }

  /** The terms of a request never change. */
  lemma {:induction false} TermsStay(states: seq<State>, steps: seq<Step>, k: nat, m: nat, r: nat)
    requires IsRun(states, steps) && k <= m <= |steps| && r < |states[k].requests|
    ensures r < |states[m].requests|
    ensures
      var q, later := states[k].requests[r], states[m].requests[r];
      later.id == q.id && later.specs == q.specs && later.refused == q.refused
  {
    if k < m {
      TermsStay(states, steps, k, m - 1, r);
      var s, step := states[m - 1], steps[m - 1];
      assert Enabled(s, step) && states[m] == Apply(s, step);
      OneStepKeepsTerms(s, step, r);
      hide Apply, Enabled;
    }
  }

  lemma {:induction false} OneStepKeepsTerms(s: State, step: Step, r: nat)
    requires Enabled(s, step) && r < |s.requests|
    ensures r < |Apply(s, step).requests|
    ensures
      var q, later := s.requests[r], Apply(s, step).requests[r];
      later.id == q.id && later.specs == q.specs && later.refused == q.refused
  {
    hide Logged, WriterAfter;
  }

  // ----------------------------------------------------------------- sending

  /** What a step puts on the stream: each goroutine its own message, in the middle of its send, and nothing else. */
  function Puts(s: State, step: Step): seq<Attempt>
    requires Names(s, step)
  {
    match step
    case ReaderMoves(d) => if s.reader.HealthLocked? then [Attempt(Health, d)] else []
    case ServerMoves(r, d) =>
      var q := s.requests[r];
      if q.server.RefusalLocked? then [Attempt(Evidence(q.id, q.server.next, true), d)]
      else if q.server.ClosingLocked? then [Attempt(Done(q.id, Int32(q.server.count), Int32(q.specs)), d)]
      else []
    case WorkerMoves(r, i, d) =>
      var q := s.requests[r];
      if q.workers[i].WriteLocked? then [Attempt(Evidence(q.id, i, false), d)] else []
    case _ => []
  }

  lemma {:induction false} LogGrowsBy(s: State, step: Step)
    requires Names(s, step)
    ensures Apply(s, step).log == s.log + Puts(s, step)
  {
    hide ServerLocal, WorkerLocal, Int32;
    assert s.log + [] == s.log;
  }

  /** Whether a message was delivered changes nothing but the log's account of it. */
  lemma {:induction false} DeliveryChangesNothing(s: State, step: Step, other: Step)
    requires Names(s, step) && Names(s, other)
    requires
      || (step.ReaderMoves? && other.ReaderMoves?)
      || (step.ServerMoves? && other.ServerMoves? && step.request == other.request)
      || (step.WorkerMoves? && other.WorkerMoves? && step.request == other.request && step.worker == other.worker)
    ensures Apply(s, step).(log := []) == Apply(s, other).(log := [])
    ensures |Apply(s, step).log| == |Apply(s, other).log|
    ensures forall k :: 0 <= k < |Apply(s, step).log| ==>
              Apply(s, step).log[k].message == Apply(s, other).log[k].message
  {
    LogGrowsBy(s, step);
    LogGrowsBy(s, other);
    hide ServerLocal, WorkerLocal, Int32;
  }

  // -------------------------------------------------------------- heartbeats

  function Beats(steps: seq<Step>): nat {
    if steps == [] then 0 else Beats(steps[..|steps| - 1]) + if steps[|steps| - 1].Beat? then 1 else 0
  }

  function HealthsIn(log: seq<Attempt>): nat {
    if log == [] then 0 else HealthsIn(log[..|log| - 1]) + if log[|log| - 1].message.Health? then 1 else 0
  }

  lemma {:induction false} HealthsAppend(log: seq<Attempt>, more: seq<Attempt>)
    requires |more| <= 1
    ensures HealthsIn(log + more) == HealthsIn(log) + if more != [] && more[0].message.Health? then 1 else 0
  {
    if more == [] {
      assert log + more == log;
    } else {
      assert (log + more)[..|log|] == log;
    }
  }

  /** Every heartbeat is answered once: the answers sent, and the one still due, are as many as were received. */
  lemma {:induction false} HeartbeatsAreAnswered(configured: int, states: seq<State>, steps: seq<Step>, n: nat)
    requires IsRun(states, steps) && states[0] == Initial(configured) && n <= |steps|
    ensures HealthsIn(states[n].log) + (if states[n].reader in {HealthPending, HealthLocked} then 1 else 0)
            == Beats(steps[..n])
  {
    hide Apply, Enabled, HealthsIn, Names, Puts, EffectiveLimit;
    NoHealthYet();
    if n > 0 {
      HeartbeatsAreAnswered(configured, states, steps, n - 1);
      var s, step := states[n - 1], steps[n - 1];
      assert Enabled(s, step);
      EnabledNames(s, step);
      assert states[n] == Apply(s, step);
      assert steps[..n][..n - 1] == steps[..n - 1];
      LogGrowsBy(s, step);
      HealthIsPut(s, step);
      HealthsAppend(s.log, Puts(s, step));
      ReaderAfter(s, step);
    }
  }

  lemma {:induction false} NoHealthYet()
    ensures HealthsIn([]) == 0
  {
  }

  lemma {:induction false} HealthIsPut(s: State, step: Step)
    requires Names(s, step)
    ensures |Puts(s, step)| <= 1
    ensures Puts(s, step) != [] && Puts(s, step)[0].message.Health? <==> step.ReaderMoves? && s.reader.HealthLocked?
  {
    hide Int32;
  }

  lemma {:induction false} EnabledNames(s: State, step: Step)
    requires Enabled(s, step)
    ensures Names(s, step)
  {
  }

  /** Only its own steps and what it receives move the receive loop. */
  lemma {:induction false} ReaderAfter(s: State, step: Step)
    requires Enabled(s, step)
    ensures
      var after := Apply(s, step).reader;
      match step
      case Beat => s.reader.Receiving? && after == HealthPending
      case StreamCloses => s.reader.Receiving? && after == Stopped
      case ReaderMoves(_) =>
        && (s.reader == HealthPending ==> after == HealthLocked)
        && (s.reader == HealthLocked ==> after == HealthWritten)
        && (s.reader == HealthWritten ==> after == Receiving)
        && s.reader in {HealthPending, HealthLocked, HealthWritten}
      case _ => after == s.reader
  {
    hide ServerLocal, WorkerLocal, Logged, WriterAfter;
  }
}
