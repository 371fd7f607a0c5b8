/**
 The agent's side of the stream: every serve call, the receive loop and the
 write lock they share, as one labelled transition system. A step is one
 indivisible action of one goroutine, so a run is any interleaving the Go
 scheduler may choose.
 */
module StreamProtocol {
  import opened Prelude

  type RequestId = string

  /** Sent on the stream. `forbidden` marks the refusal path's records. */
  datatype Message =
    | Evidence(id: RequestId, spec: nat, forbidden: bool)
    | Done(id: RequestId, emitted: int, requested: int)
    | Health

  /** One call of stream.Send. A failed send is only logged. */
  datatype Attempt = Attempt(message: Message, delivered: bool)

  /** The program counter of the goroutine that serves one spec. */
  datatype Worker =
    | Unlaunched
    | Launched              // before `limit <- struct{}{}`
    | Reading               // holds a slot, inside Collect
    | HasRecord             // about to call send
    | WriteLocked           // inside send, before stream.Send
    | Written               // inside send, after stream.Send
    | Unlocked              // send returned
    | CounterLocked         // before `emitted++`
    | Loaded(seen: nat)     // between the load and the store of `emitted++`
    | Stored                // before counter.Unlock
    | Counted               // body finished, deferred calls still to run
    | SlotReturned          // `<-limit` ran, wait.Done has not
    | Finished

  /** The program counter of the goroutine that runs serve. */
  datatype Server =
    | Deciding
    | Refusing(next: nat)
    | RefusalLocked(next: nat)
    | RefusalWritten(next: nat)
    | Adding(next: nat)     // top of the loop, before wait.Add(1)
    | Launching(next: nat)  // between wait.Add(1) and `go`
    | Waiting
    | Closing(count: nat)
    | ClosingLocked(count: nat)
    | ClosingWritten
    | Ended

  datatype Request = Request(
    id: RequestId,
    specs: nat,
    refused: bool,
    server: Server,
    workers: seq<Worker>,
    slots: int,             // occupancy of the `limit` channel
    pending: int,           // the WaitGroup counter
    emitted: nat,
    counter: Option<nat>)   // which worker holds the counter lock

  datatype Reader = Receiving | HealthPending | HealthLocked | HealthWritten | Stopped

  datatype Actor = ByReader | ByServer(request: nat) | ByWorker(request: nat, worker: nat)

  datatype State = State(
    limit: nat,
    requests: seq<Request>,
    writer: Option<Actor>,  // who holds writeLock
    reader: Reader,
    log: seq<Attempt>)

  datatype Step =
    | Receive(id: RequestId, specs: nat, refused: bool)
    | Beat
    | Ignore
    | StreamCloses
    | ReaderMoves(delivered: bool)
    | ServerMoves(request: nat, delivered: bool)
    | WorkerMoves(request: nat, worker: nat, delivered: bool)

  /** int32(n), which keeps the low 32 bits. */
  function Int32(n: nat): int {
    var low := n % 0x1_0000_0000;
    if low < 0x8000_0000 then low else low - 0x1_0000_0000
  }

  /** MaxConcurrent as New leaves it. */
  function EffectiveLimit(configured: int): (limit: nat)
    ensures 0 < limit
  {
    if configured <= 0 then 8 else configured
  }

  function Initial(configured: int): State {
    State(EffectiveLimit(configured), [], None, Receiving, [])
  }

  function NewRequest(id: RequestId, specs: nat, refused: bool): Request {
    Request(id, specs, refused, Deciding, seq(specs, i => Unlaunched), 0, 0, 0, None)
  }

  // ---------------------------------------------------------------- enabling

  predicate ServerReady(q: Request, lockFree: bool) {
    match q.server
    case Refusing(next) => next < q.specs ==> lockFree
    case Closing(_) => lockFree
    case Waiting => q.pending == 0
    case Launching(next) => next < |q.workers|
    case Ended => false
    case _ => true
  }

  predicate WorkerReady(q: Request, i: nat, limit: nat, lockFree: bool)
    requires i < |q.workers|
  {
    match q.workers[i]
    case Unlaunched => false
    case Launched => q.slots < limit
    case HasRecord => lockFree
    case Unlocked => q.counter.None?
    case Counted => 0 < q.slots
    case SlotReturned => 0 < q.pending
    case Finished => false
    case _ => true
  }

  predicate Enabled(s: State, step: Step) {
    match step
    // The platform never reuses a request id on one stream.
    case Receive(id, specs, refused) =>
      s.reader == Receiving && forall r :: 0 <= r < |s.requests| ==> s.requests[r].id != id
    case Beat => s.reader == Receiving
    case Ignore => s.reader == Receiving
    case StreamCloses => s.reader == Receiving
    case ReaderMoves(_) =>
      (s.reader == HealthPending && s.writer.None?) || s.reader == HealthLocked || s.reader == HealthWritten
    case ServerMoves(r, _) => r < |s.requests| && ServerReady(s.requests[r], s.writer.None?)
    case WorkerMoves(r, i, _) =>
      r < |s.requests| && i < |s.requests[r].workers| &&
      WorkerReady(s.requests[r], i, s.limit, s.writer.None?)
  }

  // ----------------------------------------------------------------- effects

  /** What a server step does to its own request. */
  function ServerLocal(q: Request): Request {
    match q.server
    case Deciding => q.(server := if q.refused then Refusing(0) else Adding(0))
    case Refusing(next) =>
      q.(server := if next < q.specs then RefusalLocked(next) else Closing(q.specs))
    case RefusalLocked(next) => q.(server := RefusalWritten(next))
    case RefusalWritten(next) => q.(server := Refusing(next + 1))
    case Adding(next) =>
      if next < q.specs then q.(server := Launching(next), pending := q.pending + 1)
      else q.(server := Waiting)
    case Launching(next) =>
      if next < |q.workers| then q.(server := Adding(next + 1), workers := q.workers[next := Launched]) else q
    case Waiting => q.(server := Closing(q.emitted))
    case Closing(count) => q.(server := ClosingLocked(count))
    case ClosingLocked(_) => q.(server := ClosingWritten)
    case ClosingWritten => q.(server := Ended)
    case Ended => q
  }

  /** What a worker step does to its own request. */
  function WorkerLocal(q: Request, i: nat): Request
    requires i < |q.workers|
  {
    match q.workers[i]
    case Unlaunched => q
    case Launched => q.(workers := q.workers[i := Reading], slots := q.slots + 1)
    case Reading => q.(workers := q.workers[i := HasRecord])
    case HasRecord => q.(workers := q.workers[i := WriteLocked])
    case WriteLocked => q.(workers := q.workers[i := Written])
    case Written => q.(workers := q.workers[i := Unlocked])
    case Unlocked => q.(workers := q.workers[i := CounterLocked], counter := Some(i))
    case CounterLocked => q.(workers := q.workers[i := Loaded(q.emitted)])
    case Loaded(seen) => q.(workers := q.workers[i := Stored], emitted := seen + 1)
    case Stored => q.(workers := q.workers[i := Counted], counter := None)
    case Counted => q.(workers := q.workers[i := SlotReturned], slots := q.slots - 1)
    case SlotReturned => q.(workers := q.workers[i := Finished], pending := q.pending - 1)
    case Finished => q
  }

  /** The message a server is about to hand to stream.Send, if that is its next step. */
  function ServerSends(q: Request): Option<Message> {
    match q.server
    case RefusalLocked(next) => Some(Evidence(q.id, next, true))
    case ClosingLocked(count) => Some(Done(q.id, Int32(count), Int32(q.specs)))
    case _ => None
  }

  function Logged(log: seq<Attempt>, message: Option<Message>, delivered: bool): seq<Attempt> {
    if message.Some? then log + [Attempt(message.value, delivered)] else log
  }

  predicate ServerHolds(server: Server) {
    server.RefusalLocked? || server.RefusalWritten? || server.ClosingLocked? || server.ClosingWritten?
  }

  predicate WorkerHolds(worker: Worker) {
    worker.WriteLocked? || worker.Written?
  }

  predicate ReaderHolds(reader: Reader) {
    reader.HealthLocked? || reader.HealthWritten?
  }

  /** Lock on entering a writing region, unlock on leaving it. */
  function WriterAfter(writer: Option<Actor>, actor: Actor, before: bool, after: bool): Option<Actor> {
    if after && !before then Some(actor) else if before && !after then None else writer
  }

  function ReaderNext(reader: Reader): Reader {
    match reader
    case HealthPending => HealthLocked
    case HealthLocked => HealthWritten
    case _ => Receiving
  }

  predicate Names(s: State, step: Step) {
    && (step.ServerMoves? ==> step.request < |s.requests|)
    && (step.WorkerMoves? ==> step.request < |s.requests| && step.worker < |s.requests[step.request].workers|)
  }

  function Apply(s: State, step: Step): State
    requires Names(s, step)
  {
    match step
    case Receive(id, specs, refused) => s.(requests := s.requests + [NewRequest(id, specs, refused)])
    case Beat => s.(reader := HealthPending)
    case Ignore => s
    case StreamCloses => s.(reader := Stopped)
    case ReaderMoves(delivered) =>
      var next := ReaderNext(s.reader);
      s.(reader := next,
         writer := WriterAfter(s.writer, ByReader, ReaderHolds(s.reader), ReaderHolds(next)),
         log := Logged(s.log, if s.reader.HealthLocked? then Some(Health) else None, delivered))
    case ServerMoves(r, delivered) =>
      var q := s.requests[r];
      var next := ServerLocal(q);
      s.(requests := s.requests[r := next],
         writer := WriterAfter(s.writer, ByServer(r), ServerHolds(q.server), ServerHolds(next.server)),
         log := Logged(s.log, ServerSends(q), delivered))
    case WorkerMoves(r, i, delivered) =>
      var q := s.requests[r];
      var next := WorkerLocal(q, i);
      s.(requests := s.requests[r := next],
         writer := WriterAfter(s.writer, ByWorker(r, i), WorkerHolds(q.workers[i]), WorkerHolds(next.workers[i])),
         log := Logged(s.log, if q.workers[i].WriteLocked? then Some(Evidence(q.id, i, false)) else None, delivered))
  }

  // -------------------------------------------------------------------- runs

  /** A run: each state follows from the one before it by some enabled step. */
  ghost predicate IsRun(states: seq<State>, steps: seq<Step>) {
    && |states| == |steps| + 1
    && (forall k :: 0 <= k < |steps| ==> Enabled(states[k], steps[k]) && states[k + 1] == Apply(states[k], steps[k]))
  }

  ghost predicate Reaches(configured: int, s: State) {
    exists states: seq<State>, steps: seq<Step> ::
      IsRun(states, steps) && states[0] == Initial(configured) && states[|steps|] == s
  }

  /** The messages handed to stream.Send for one request, in order. */
  function Project(log: seq<Attempt>, id: RequestId): seq<Message> {
    if log == [] then []
    else
      var rest := Project(log[..|log| - 1], id);
      var last := log[|log| - 1].message;
      if !last.Health? && last.id == id then rest + [last] else rest
  }

  /** One evidence message for each of the first n specs. */
  function Evidences(id: RequestId, n: nat, forbidden: bool): multiset<Message> {
    if n == 0 then multiset{} else Evidences(id, n - 1, forbidden) + multiset{Evidence(id, n - 1, forbidden)}
  }

  // ----------------------------------------------------------------- regions

  /** Stretches of a worker's program that the shared counters count. */
  datatype Region = HoldingSlot | Outstanding | Tallied

  predicate Within(region: Region, w: Worker) {
    match region
    case HoldingSlot => !(w.Unlaunched? || w.Launched? || w.SlotReturned? || w.Finished?)
    case Outstanding => !(w.Unlaunched? || w.Finished?)
    case Tallied => w.Stored? || w.Counted? || w.SlotReturned? || w.Finished?
  }

  predicate PastSend(w: Worker) {
    !(w.Unlaunched? || w.Launched? || w.Reading? || w.HasRecord? || w.WriteLocked?)
  }

  predicate InCounter(w: Worker) {
    w.CounterLocked? || w.Loaded? || w.Stored?
  }

  function Count(workers: seq<Worker>, region: Region): nat {
    if workers == [] then 0
    else Count(workers[..|workers| - 1], region) + (if Within(region, workers[|workers| - 1]) then 1 else 0)
  }

  /** The evidence messages the workers have handed to stream.Send. */
  function SentBy(id: RequestId, workers: seq<Worker>): multiset<Message> {
    if workers == [] then multiset{}
    else
      var n := |workers| - 1;
      SentBy(id, workers[..n]) + (if PastSend(workers[n]) then multiset{Evidence(id, n, false)} else multiset{})
  }

  // --------------------------------------------------------------- invariant

  predicate AllAre(workers: seq<Worker>, w: Worker) {
    forall i :: 0 <= i < |workers| ==> workers[i] == w
  }

  predicate LaunchedUpTo(workers: seq<Worker>, n: nat) {
    forall i :: 0 <= i < |workers| ==> (workers[i].Unlaunched? <==> n <= i)
  }

  predicate PhaseOk(q: Request) {
    match q.server
    case Deciding => AllAre(q.workers, Unlaunched)
    case Refusing(next) => q.refused && next <= q.specs && AllAre(q.workers, Unlaunched)
    case RefusalLocked(next) => q.refused && next < q.specs && AllAre(q.workers, Unlaunched)
    case RefusalWritten(next) => q.refused && next < q.specs && AllAre(q.workers, Unlaunched)
    case Adding(next) => !q.refused && next <= q.specs && LaunchedUpTo(q.workers, next)
    case Launching(next) => !q.refused && next < q.specs && LaunchedUpTo(q.workers, next)
    case Waiting => !q.refused && LaunchedUpTo(q.workers, q.specs)
    case Closing(count) => count == q.specs && AllAre(q.workers, if q.refused then Unlaunched else Finished)
    case ClosingLocked(count) => count == q.specs && AllAre(q.workers, if q.refused then Unlaunched else Finished)
    case ClosingWritten => AllAre(q.workers, if q.refused then Unlaunched else Finished)
    case Ended => AllAre(q.workers, if q.refused then Unlaunched else Finished)
  }

  predicate CounterOk(q: Request) {
    && (forall i :: 0 <= i < |q.workers| ==> (InCounter(q.workers[i]) <==> q.counter == Some(i)))
    && (forall i :: 0 <= i < |q.workers| && q.workers[i].Loaded? ==> q.workers[i].seen == q.emitted)
    && (q.counter.Some? ==> q.counter.value < |q.workers|)
  }

  /** What holds inside one request, whatever the others do. */
  predicate LocalOk(q: Request, limit: nat) {
    && |q.workers| == q.specs
    && PhaseOk(q)
    && q.slots == Count(q.workers, HoldingSlot) <= limit
    && q.pending == Count(q.workers, Outstanding) + (if q.server.Launching? then 1 else 0)
    && q.emitted == Count(q.workers, Tallied)
    && CounterOk(q)
  }

  /** How many refusal records the server has handed to stream.Send. */
  function RefusalsSent(q: Request): nat {
    match q.server
    case Refusing(next) => next
    case RefusalLocked(next) => next
    case RefusalWritten(next) => next + 1
    case Deciding => 0
    case _ => if q.refused then q.specs else 0
  }

  function Sent(q: Request): multiset<Message> {
    if q.refused then Evidences(q.id, RefusalsSent(q), true) else SentBy(q.id, q.workers)
  }

  predicate DoneSent(q: Request) {
    q.server.ClosingWritten? || q.server.Ended?
  }

  /** What the log says about one request, at any moment. */
  predicate LogOk(q: Request, sent: seq<Message>) {
    if DoneSent(q) then
      sent != [] && sent[|sent| - 1] == Done(q.id, Int32(q.specs), Int32(q.specs)) &&
      multiset(sent[..|sent| - 1]) == Sent(q)
    else multiset(sent) == Sent(q)
  }

  /** The write lock is held by exactly the goroutine that is inside send. */
  predicate WriterOk(s: State) {
    && (ReaderHolds(s.reader) <==> s.writer == Some(ByReader))
    && (forall r :: 0 <= r < |s.requests| ==>
          (ServerHolds(s.requests[r].server) <==> s.writer == Some(ByServer(r))))
    && (forall r, i :: 0 <= r < |s.requests| && 0 <= i < |s.requests[r].workers| ==>
          (WorkerHolds(s.requests[r].workers[i]) <==> s.writer == Some(ByWorker(r, i))))
    && (s.writer.Some? && s.writer.value.ByServer? ==> s.writer.value.request < |s.requests|)
    && (s.writer.Some? && s.writer.value.ByWorker? ==>
          s.writer.value.request < |s.requests| &&
          s.writer.value.worker < |s.requests[s.writer.value.request].workers|)
  }

  predicate DistinctIds(requests: seq<Request>) {
    forall a, b :: 0 <= a < b < |requests| ==> requests[a].id != requests[b].id
  }

  /** A message that belongs to nobody is a heartbeat. */
  ghost predicate Attributed(requests: seq<Request>, log: seq<Attempt>) {
    forall k :: 0 <= k < |log| ==>
      log[k].message.Health? || exists r :: 0 <= r < |requests| && requests[r].id == log[k].message.id
  }

  ghost predicate Inv(s: State) {
    && 0 < s.limit
    && DistinctIds(s.requests)
    && (forall r :: 0 <= r < |s.requests| ==> LocalOk(s.requests[r], s.limit))
    && (forall r :: 0 <= r < |s.requests| ==> LogOk(s.requests[r], Project(s.log, s.requests[r].id)))
    && WriterOk(s)
    && Attributed(s.requests, s.log)
  }
}
