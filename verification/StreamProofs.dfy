/**
 What every interleaving of the stream protocol keeps, and why it always ends.
 */
module StreamProofs {
  import opened Prelude
  import opened StreamProtocol

  // ------------------------------------------------------ counting lemmas

  function Bit(b: bool): nat { if b then 1 else 0 }

  lemma {:induction false} CountUpdate(ws: seq<Worker>, i: nat, w: Worker, region: Region)
    requires i < |ws|
    ensures Count(ws[i := w], region) == Count(ws, region) - Bit(Within(region, ws[i])) + Bit(Within(region, w))
  {
    var n := |ws| - 1;
    if i == n {
      assert ws[i := w][..n] == ws[..n];
    } else {
      CountUpdate(ws[..n], i, w, region);
      assert ws[i := w][..n] == ws[..n][i := w];
    }
  }

  lemma {:induction false} SentUpdate(id: RequestId, ws: seq<Worker>, i: nat, w: Worker)
    requires i < |ws|
    requires PastSend(w) || !PastSend(ws[i])
    ensures SentBy(id, ws[i := w])
         == SentBy(id, ws) + if PastSend(w) && !PastSend(ws[i]) then multiset{Evidence(id, i, false)} else multiset{}
  {
    hide SentBy, PastSend;
    var n := |ws| - 1;
    var delta := if PastSend(w) && !PastSend(ws[i]) then multiset{Evidence(id, i, false)} else multiset{};
    SentLast(id, ws);
    SentLast(id, ws[i := w]);
    if i == n {
      assert ws[i := w][..n] == ws[..n];
    } else {
      SentUpdate(id, ws[..n], i, w);
      assert ws[i := w][..n] == ws[..n][i := w];
      Swap(SentBy(id, ws[..n]), delta, if PastSend(ws[n]) then multiset{Evidence(id, n, false)} else multiset{});
    }
  }

  lemma {:induction false} Swap(a: multiset<Message>, b: multiset<Message>, c: multiset<Message>)
    ensures a + b + c == a + c + b
  {
  }

  lemma {:induction false} SentLast(id: RequestId, ws: seq<Worker>)
    requires ws != []
    ensures
      var n := |ws| - 1;
      SentBy(id, ws) == SentBy(id, ws[..n]) + if PastSend(ws[n]) then multiset{Evidence(id, n, false)} else multiset{}
  {
  }

  lemma {:induction false} CountUniform(ws: seq<Worker>, w: Worker, region: Region)
    requires AllAre(ws, w)
    ensures Count(ws, region) == |ws| * Bit(Within(region, w))
  {
    if ws != [] {
      CountUniform(ws[..|ws| - 1], w, region);
    }
  }

  lemma {:induction false} SentUniform(id: RequestId, ws: seq<Worker>, w: Worker)
    requires AllAre(ws, w)
    ensures SentBy(id, ws) == if PastSend(w) then Evidences(id, |ws|, false) else multiset{}
  {
    if ws != [] {
      SentUniform(id, ws[..|ws| - 1], w);
    }
  }

  lemma {:induction false} CountZero(ws: seq<Worker>, region: Region)
    requires Count(ws, region) == 0
    ensures forall i :: 0 <= i < |ws| ==> !Within(region, ws[i])
  {
    if ws != [] {
      CountZero(ws[..|ws| - 1], region);
    }
  }

  lemma {:induction false} CountPositive(ws: seq<Worker>, region: Region) returns (i: nat)
    requires 0 < Count(ws, region)
    ensures i < |ws| && Within(region, ws[i])
  {
    var n := |ws| - 1;
    if Within(region, ws[n]) {
      i := n;
    } else {
      i := CountPositive(ws[..n], region);
    }
  }

  lemma {:induction false} CountMember(ws: seq<Worker>, i: nat, region: Region)
    requires i < |ws| && Within(region, ws[i])
    ensures 0 < Count(ws, region)
  {
    if Count(ws, region) == 0 {
      CountZero(ws, region);
    }
  }

  lemma {:induction false} ProjectAppend(log: seq<Attempt>, a: Attempt, id: RequestId)
    ensures Project(log + [a], id)
         == if !a.message.Health? && a.message.id == id then Project(log, id) + [a.message] else Project(log, id)
  {
    assert (log + [a])[..|log|] == log;
  }

  lemma {:induction false} ProjectStranger(log: seq<Attempt>, id: RequestId)
    requires forall k :: 0 <= k < |log| ==> log[k].message.Health? || log[k].message.id != id
    ensures Project(log, id) == []
  {
    if log != [] {
      ProjectStranger(log[..|log| - 1], id);
    }
  }

  // --------------------------------------------------- one request on its own

  lemma {:induction false} NewRequestOk(id: RequestId, specs: nat, refused: bool, limit: nat)
    ensures LocalOk(NewRequest(id, specs, refused), limit)
    ensures Sent(NewRequest(id, specs, refused)) == multiset{}
  {
    var q := NewRequest(id, specs, refused);
    CountUniform(q.workers, Unlaunched, HoldingSlot);
    CountUniform(q.workers, Unlaunched, Outstanding);
    CountUniform(q.workers, Unlaunched, Tallied);
    SentUniform(id, q.workers, Unlaunched);
  }

  lemma {:induction false} UpdateCounts(q: Request, i: nat, w: Worker)
    requires i < |q.workers|
    ensures Count(q.workers[i := w], HoldingSlot)
         == Count(q.workers, HoldingSlot) - Bit(Within(HoldingSlot, q.workers[i])) + Bit(Within(HoldingSlot, w))
    ensures Count(q.workers[i := w], Outstanding)
         == Count(q.workers, Outstanding) - Bit(Within(Outstanding, q.workers[i])) + Bit(Within(Outstanding, w))
    ensures Count(q.workers[i := w], Tallied)
         == Count(q.workers, Tallied) - Bit(Within(Tallied, q.workers[i])) + Bit(Within(Tallied, w))
  {
    CountUpdate(q.workers, i, w, HoldingSlot);
    CountUpdate(q.workers, i, w, Outstanding);
    CountUpdate(q.workers, i, w, Tallied);
  }

  /** Nothing outstanding and every spec launched: every worker is past its wait.Done. */
  lemma {:induction false} AllFinished(q: Request, limit: nat)
    requires LocalOk(q, limit) && q.server.Waiting? && q.pending == 0
    ensures AllAre(q.workers, Finished) && q.emitted == q.specs
  {
    CountZero(q.workers, Outstanding);
    CountUniform(q.workers, Finished, Tallied);
  }

  lemma {:induction false} ServerKeepsLocal(q: Request, limit: nat, lockFree: bool)
    requires LocalOk(q, limit) && ServerReady(q, lockFree)
    ensures LocalOk(ServerLocal(q), limit)
  {
    match q.server
    case Launching(next) => LaunchKeepsLocal(q, limit);
    case Waiting => AllFinished(q, limit);
    case _ =>
  }

  lemma {:induction false} LaunchKeepsLocal(q: Request, limit: nat)
    requires LocalOk(q, limit) && q.server.Launching?
    ensures LocalOk(ServerLocal(q), limit)
  {
    assert q.workers[q.server.next].Unlaunched?;
    UpdateCounts(q, q.server.next, Launched);
    hide Count;
  }

  lemma {:induction false} WorkerKeepsPhase(q: Request, i: nat)
    requires PhaseOk(q) && |q.workers| == q.specs && i < |q.workers|
    ensures PhaseOk(WorkerLocal(q, i))
    ensures !q.workers[i].Unlaunched? && !q.workers[i].Finished? ==> !q.refused && !DoneSent(q)
  {
    var next := WorkerLocal(q, i);
    assert next.server == q.server && next.refused == q.refused && next.specs == q.specs;
    if q.workers[i].Unlaunched? || q.workers[i].Finished? {
      assert next == q;
    } else {
      assert next.workers == q.workers[i := next.workers[i]] && !next.workers[i].Unlaunched?;
    }
  }

  lemma {:induction false} WorkerKeepsCounter(q: Request, i: nat, limit: nat, lockFree: bool)
    requires CounterOk(q) && i < |q.workers| && WorkerReady(q, i, limit, lockFree)
    ensures CounterOk(WorkerLocal(q, i))
  {
    var next := WorkerLocal(q, i);
    assert next.workers == q.workers[i := next.workers[i]];
    assert InCounter(q.workers[i]) <==> q.counter == Some(i);
  }

  lemma {:induction false} WorkerKeepsTotals(q: Request, i: nat, limit: nat, lockFree: bool)
    requires i < |q.workers| && WorkerReady(q, i, limit, lockFree) && CounterOk(q)
    requires q.slots == Count(q.workers, HoldingSlot) <= limit
    requires q.emitted == Count(q.workers, Tallied)
    ensures
      var next := WorkerLocal(q, i);
      && next.slots == Count(next.workers, HoldingSlot) <= limit
      && next.pending - Count(next.workers, Outstanding) == q.pending - Count(q.workers, Outstanding)
      && next.emitted == Count(next.workers, Tallied)
  {
    hide Count;
    var next := WorkerLocal(q, i);
    UpdateCounts(q, i, next.workers[i]);
    assert next.workers == q.workers[i := next.workers[i]];
  }

  lemma {:induction false} WorkerKeepsLocal(q: Request, i: nat, limit: nat, lockFree: bool)
    requires LocalOk(q, limit) && i < |q.workers| && WorkerReady(q, i, limit, lockFree)
    ensures LocalOk(WorkerLocal(q, i), limit)
  {
    WorkerKeepsPhase(q, i);
    WorkerKeepsCounter(q, i, limit, lockFree);
    WorkerKeepsTotals(q, i, limit, lockFree);
    assert WorkerLocal(q, i).server == q.server;
  }

  /** A server step and the messages accounted for by the request's counters. */
  lemma {:induction false} ServerKeepsSent(q: Request, limit: nat, lockFree: bool)
    requires LocalOk(q, limit) && ServerReady(q, lockFree)
    ensures q.server.RefusalLocked? ==>
              Sent(ServerLocal(q)) == Sent(q) + multiset{Evidence(q.id, q.server.next, true)}
    ensures !q.server.RefusalLocked? ==> Sent(ServerLocal(q)) == Sent(q)
  {
    var next := ServerLocal(q);
    if q.server.Launching? {
      SentUpdate(q.id, q.workers, q.server.next, Launched);
    } else {
      assert next.workers == q.workers;
      if q.refused {
        assert RefusalsSent(next) == RefusalsSent(q) + Bit(q.server.RefusalLocked?);
      }
    }
  }

  /** The three ways a step can move the account of one request. */
  lemma {:induction false} AccountQuiet(q: Request, next: Request, sent: seq<Message>)
    requires LogOk(q, sent)
    requires next.id == q.id && next.specs == q.specs && DoneSent(next) == DoneSent(q) && Sent(next) == Sent(q)
    ensures LogOk(next, sent)
  {
  }

  lemma {:induction false} AccountEvidence(q: Request, next: Request, sent: seq<Message>, m: Message)
    requires LogOk(q, sent)
    requires !DoneSent(q) && !DoneSent(next) && Sent(next) == Sent(q) + multiset{m}
    ensures LogOk(next, sent + [m])
  {
    assert multiset(sent + [m]) == multiset(sent) + multiset{m};
  }

  lemma {:induction false} AccountDone(q: Request, next: Request, sent: seq<Message>)
    requires LogOk(q, sent)
    requires !DoneSent(q) && DoneSent(next) && Sent(next) == Sent(q)
    ensures LogOk(next, sent + [Done(next.id, Int32(next.specs), Int32(next.specs))])
  {
    assert (sent + [Done(next.id, Int32(next.specs), Int32(next.specs))])[..|sent|] == sent;
  }

  lemma {:induction false} ServerFrame(q: Request)
    ensures var next := ServerLocal(q);
            && next.id == q.id && next.specs == q.specs && next.refused == q.refused
            && |next.workers| == |q.workers|
            && (DoneSent(next) <==> DoneSent(q) || q.server.ClosingLocked?)
  {
  }

  lemma {:induction false} ServerKeepsLog(q: Request, limit: nat, lockFree: bool, sent: seq<Message>)
    requires LocalOk(q, limit) && ServerReady(q, lockFree) && LogOk(q, sent)
    ensures LogOk(ServerLocal(q), sent + if ServerSends(q).Some? then [ServerSends(q).value] else [])
  {
    ServerFrame(q);
    ServerKeepsSent(q, limit, lockFree);
    assert q.server.ClosingLocked? ==> q.server.count == q.specs;
    hide LocalOk, LogOk, Sent, ServerLocal, ServerReady;
    if q.server.RefusalLocked? {
      AccountEvidence(q, ServerLocal(q), sent, Evidence(q.id, q.server.next, true));
    } else if q.server.ClosingLocked? {
      AccountDone(q, ServerLocal(q), sent);
    } else {
      assert sent + [] == sent;
      AccountQuiet(q, ServerLocal(q), sent);
    }
  }

  /** A worker step changes its own worker only, and passes send exactly when it was about to write. */
  lemma {:induction false} WorkerFrame(q: Request, i: nat)
    requires i < |q.workers|
    ensures
      var next := WorkerLocal(q, i);
      && next.id == q.id && next.specs == q.specs && next.refused == q.refused && next.server == q.server
      && |next.workers| == |q.workers| && next.workers == q.workers[i := next.workers[i]]
      && (PastSend(q.workers[i]) ==> PastSend(next.workers[i]))
      && (PastSend(next.workers[i]) && !PastSend(q.workers[i]) <==> q.workers[i].WriteLocked?)
  {
  }

  lemma {:induction false} WorkerKeepsLog(q: Request, i: nat, limit: nat, lockFree: bool, sent: seq<Message>)
    requires LocalOk(q, limit) && LogOk(q, sent)
    requires i < |q.workers| && WorkerReady(q, i, limit, lockFree)
    ensures LogOk(WorkerLocal(q, i), sent + if q.workers[i].WriteLocked? then [Evidence(q.id, i, false)] else [])
  {
    WorkerKeepsPhase(q, i);
    WorkerFrame(q, i);
    hide LocalOk, LogOk, PhaseOk, WorkerLocal, WorkerReady, SentBy, PastSend;
    var next := WorkerLocal(q, i);
    SentUpdate(q.id, q.workers, i, next.workers[i]);
    if q.workers[i].WriteLocked? {
      AccountEvidence(q, next, sent, Evidence(q.id, i, false));
    } else {
      assert sent + [] == sent;
      AccountQuiet(q, next, sent);
    }
  }

  // ------------------------------------------------------- the whole stream

  lemma {:induction false} InitialInv(configured: int)
    ensures Inv(Initial(configured))
  {
  }

  lemma {:induction false} ReceiveKeepsWriter(s: State, id: RequestId, specs: nat, refused: bool)
    requires WriterOk(s)
    ensures WriterOk(Apply(s, Receive(id, specs, refused)))
  {
  }

  lemma {:induction false} AttributedToMore(requests: seq<Request>, q: Request, log: seq<Attempt>)
    requires Attributed(requests, log)
    ensures Attributed(requests + [q], log)
  {
    forall k | 0 <= k < |log| && !log[k].message.Health?
      ensures exists r :: 0 <= r < |requests + [q]| && (requests + [q])[r].id == log[k].message.id
    {
      var r :| 0 <= r < |requests| && requests[r].id == log[k].message.id;
      assert (requests + [q])[r].id == log[k].message.id;
    }
  }

  lemma {:induction false} ReceiveKeepsInv(s: State, id: RequestId, specs: nat, refused: bool)
    requires Inv(s) && Enabled(s, Receive(id, specs, refused))
    ensures Inv(Apply(s, Receive(id, specs, refused)))
  {
    var q := NewRequest(id, specs, refused);
    NewRequestOk(id, specs, refused, s.limit);
    ProjectStranger(s.log, id);
    assert LogOk(q, []);
    ReceiveKeepsWriter(s, id, specs, refused);
    AttributedToMore(s.requests, q, s.log);
    hide LocalOk, LogOk, WriterOk, Sent, Project, Attributed;
  }

  /** A message attributed to request r leaves every other projection alone. */
  lemma {:induction false} LoggedProjects(s: State, r: nat, message: Option<Message>, delivered: bool)
    requires r < |s.requests|
    requires message.Some? ==> !message.value.Health? && message.value.id == s.requests[r].id
    requires Attributed(s.requests, s.log) && DistinctIds(s.requests)
    ensures Project(Logged(s.log, message, delivered), s.requests[r].id)
         == Project(s.log, s.requests[r].id) + if message.Some? then [message.value] else []
    ensures forall o :: 0 <= o < |s.requests| && o != r ==>
              Project(Logged(s.log, message, delivered), s.requests[o].id) == Project(s.log, s.requests[o].id)
    ensures Attributed(s.requests, Logged(s.log, message, delivered))
  {
    if message.Some? {
      var a := Attempt(message.value, delivered);
      forall id { ProjectAppend(s.log, a, id); }
      forall o | 0 <= o < |s.requests| && o != r
        ensures s.requests[o].id != s.requests[r].id
      {
      }
    }
  }

  /** Replacing request r by one that keeps the local and log invariants keeps the global ones. */
  lemma {:induction false} Splice(s: State, r: nat, next: Request, message: Option<Message>, delivered: bool)
    requires Inv(s) && r < |s.requests|
    requires next.id == s.requests[r].id
    requires LocalOk(next, s.limit)
    requires message.Some? ==> !message.value.Health? && message.value.id == next.id
    requires LogOk(next, Project(s.log, next.id) + if message.Some? then [message.value] else [])
    ensures
      var t := s.(requests := s.requests[r := next], log := Logged(s.log, message, delivered));
      DistinctIds(t.requests) && Attributed(t.requests, t.log) &&
      (forall o :: 0 <= o < |t.requests| ==> LocalOk(t.requests[o], t.limit)) &&
      (forall o :: 0 <= o < |t.requests| ==> LogOk(t.requests[o], Project(t.log, t.requests[o].id)))
  {
    hide LocalOk, LogOk, WriterOk, Project, Logged;
    LoggedProjects(s, r, message, delivered);
    var t := s.(requests := s.requests[r := next], log := Logged(s.log, message, delivered));
    forall o | 0 <= o < |t.requests|
      ensures LogOk(t.requests[o], Project(t.log, t.requests[o].id))
    {
      if o != r {
        assert LogOk(s.requests[o], Project(s.log, s.requests[o].id));
      }
    }
    forall k | 0 <= k < |t.log| && !t.log[k].message.Health?
      ensures exists o :: 0 <= o < |t.requests| && t.requests[o].id == t.log[k].message.id
    {
      var before := s.(log := t.log);
      var o :| 0 <= o < |before.requests| && before.requests[o].id == before.log[k].message.id;
      assert t.requests[o].id == t.log[k].message.id;
    }
  }

  lemma {:induction false} ServerKeepsInv(s: State, r: nat, delivered: bool)
    requires Inv(s) && Enabled(s, ServerMoves(r, delivered))
    ensures Inv(Apply(s, ServerMoves(r, delivered)))
  {
    hide LocalOk, LogOk, WriterOk, Attributed, DistinctIds, ServerReady;
    var q := s.requests[r];
    var next := ServerLocal(q);
    ServerKeepsLocal(q, s.limit, s.writer.None?);
    ServerKeepsLog(q, s.limit, s.writer.None?, Project(s.log, q.id));
    Splice(s, r, next, ServerSends(q), delivered);
    ServerKeepsWriter(s, r, delivered);
  }

  /** A server enters send only when the write lock is free, and never moves a worker across it. */
  lemma {:induction false} ServerLocking(q: Request, limit: nat, lockFree: bool)
    requires LocalOk(q, limit) && ServerReady(q, lockFree)
    ensures var next := ServerLocal(q);
            && |next.workers| == |q.workers|
            && (!ServerHolds(q.server) && ServerHolds(next.server) ==> lockFree)
            && (forall i :: 0 <= i < |q.workers| ==>
                  (WorkerHolds(next.workers[i]) <==> WorkerHolds(q.workers[i])))
  {
    if q.server.Launching? {
      assert q.workers[q.server.next].Unlaunched?;
    }
  }

  lemma {:induction false} ServerKeepsWriter(s: State, r: nat, delivered: bool)
    requires WriterOk(s) && r < |s.requests| && LocalOk(s.requests[r], s.limit)
    requires ServerReady(s.requests[r], s.writer.None?)
    ensures WriterOk(Apply(s, ServerMoves(r, delivered)))
  {
    var q := s.requests[r];
    ServerLocking(q, s.limit, s.writer.None?);
    hide LocalOk, ServerLocal, ServerReady, ServerSends, ServerHolds, WorkerHolds, ReaderHolds, Logged;
    assert ServerHolds(q.server) <==> s.writer == Some(ByServer(r));
    var t := Apply(s, ServerMoves(r, delivered));
    forall o, i | 0 <= o < |t.requests| && 0 <= i < |t.requests[o].workers|
      ensures WorkerHolds(t.requests[o].workers[i]) <==> t.writer == Some(ByWorker(o, i))
    {
      assert WorkerHolds(s.requests[o].workers[i]) <==> s.writer == Some(ByWorker(o, i));
    }
  }

  lemma {:induction false} WorkerKeepsInv(s: State, r: nat, i: nat, delivered: bool)
    requires Inv(s) && Enabled(s, WorkerMoves(r, i, delivered))
    ensures Inv(Apply(s, WorkerMoves(r, i, delivered)))
  {
    hide LocalOk, LogOk, WriterOk, Attributed, DistinctIds, WorkerReady;
    var q := s.requests[r];
    var next := WorkerLocal(q, i);
    WorkerKeepsLocal(q, i, s.limit, s.writer.None?);
    WorkerKeepsLog(q, i, s.limit, s.writer.None?, Project(s.log, q.id));
    Splice(s, r, next, if q.workers[i].WriteLocked? then Some(Evidence(q.id, i, false)) else None, delivered);
    WorkerKeepsWriter(s, r, i, delivered);
  }

  lemma {:induction false} WorkerLocking(q: Request, i: nat, limit: nat, lockFree: bool)
    requires i < |q.workers| && WorkerReady(q, i, limit, lockFree)
    ensures var next := WorkerLocal(q, i);
            && next.server == q.server && next.workers == q.workers[i := next.workers[i]]
            && (!WorkerHolds(q.workers[i]) && WorkerHolds(next.workers[i]) ==> lockFree)
  {
  }

  lemma {:induction false} WorkerKeepsWriter(s: State, r: nat, i: nat, delivered: bool)
    requires WriterOk(s) && r < |s.requests| && i < |s.requests[r].workers|
    requires WorkerReady(s.requests[r], i, s.limit, s.writer.None?)
    ensures WriterOk(Apply(s, WorkerMoves(r, i, delivered)))
  {
    var q := s.requests[r];
    WorkerLocking(q, i, s.limit, s.writer.None?);
    hide WorkerLocal, WorkerReady, ServerHolds, WorkerHolds, ReaderHolds, Logged;
    assert WorkerHolds(q.workers[i]) <==> s.writer == Some(ByWorker(r, i));
    var t := Apply(s, WorkerMoves(r, i, delivered));
    forall o, j | 0 <= o < |t.requests| && 0 <= j < |t.requests[o].workers|
      ensures WorkerHolds(t.requests[o].workers[j]) <==> t.writer == Some(ByWorker(o, j))
    {
      assert WorkerHolds(s.requests[o].workers[j]) <==> s.writer == Some(ByWorker(o, j));
    }
  }

  lemma {:induction false} ReaderKeepsInv(s: State, step: Step)
    requires Inv(s) && Enabled(s, step) && !step.Receive? && !step.ServerMoves? && !step.WorkerMoves?
    ensures Inv(Apply(s, step))
  {
    var t := Apply(s, step);
    if step.ReaderMoves? && s.reader.HealthLocked? {
      forall id { ProjectAppend(s.log, Attempt(Health, step.delivered), id); }
    }
  }

  lemma {:induction false} StepKeepsInv(s: State, step: Step)
    requires Inv(s) && Enabled(s, step)
    ensures Inv(Apply(s, step))
  {
    match step
    case Receive(id, specs, refused) => ReceiveKeepsInv(s, id, specs, refused);
    case ServerMoves(r, delivered) => ServerKeepsInv(s, r, delivered);
    case WorkerMoves(r, i, delivered) => WorkerKeepsInv(s, r, i, delivered);
    case _ => ReaderKeepsInv(s, step);
  }

  lemma {:induction false} RunKeepsInv(states: seq<State>, steps: seq<Step>, k: nat)
    requires IsRun(states, steps) && Inv(states[0]) && k <= |steps|
    ensures Inv(states[k])
  {
    if k > 0 {
      RunKeepsInv(states, steps, k - 1);
      StepKeepsInv(states[k - 1], steps[k - 1]);
    }
  }

  lemma {:induction false} ReachableInv(configured: int, s: State)
    requires Reaches(configured, s)
    ensures Inv(s) 
  {
    var states: seq<State>, steps: seq<Step> :|
      IsRun(states, steps) && states[0] == Initial(configured) && states[|steps|] == s;
    InitialInv(configured);
    RunKeepsInv(states, steps, |steps|);
  }
}
