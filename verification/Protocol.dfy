// The running server as a step relation. One IO thread, any number of request workers, the
// EuroScope main thread pushing events and a thread calling Stop take atomic steps in any
// order. A critical section without a send is one step. One that sends holds m_clientsMutex
// over many: taking it, for each client the size check and then the send, and giving it back.
// In between, everything that does not take the mutex may happen: the IO thread answers inline,
// connections drain or die, other workers run.

module Protocol {
  import opened Common
  import opened Messages
  import opened Registry
  import opened Network
  import opened Requests
  import Handlers

  datatype Config = Config(sizeOf: Sizer, hasProcessor: bool)

  // OnMessage in progress: session found, request admitted, m_activeWorkers incremented.
  datatype IoPc =
    | Idle
    | Holding(h: Handle, ticket: nat, clientId: string, payload: Payload)
    | Admitted(h: Handle, ticket: nat, request: Json)
    | Counted(h: Handle, ticket: nat, request: Json)
    | Exited

  // How a request ended that was not answered.
  datatype Outcome = ClientGone | Dropped | ToEverybody | Silent | NoProcessor | Raised

  datatype WorkerPc = Ready | Routing(reply: Message, clientId: string) | Leaving

  datatype Worker = Worker(origin: Handle, ticket: nat, request: Json, pc: WorkerPc)

  // The main thread between the HasSubscribers gate and Broadcast, and inside Broadcast.
  datatype PushPc = Quiet | Passed(event: string) | Sending

  // Who is sending under the mutex: a callback to the listeners, worker `w` to its own client, or
  // worker `w` to everybody.
  datatype Owner = Callback | Replier(w: nat) | Flooder(w: nat)

  // The size check of the frame for `h` has been made; `room` is what it said.
  datatype Checked = Checked(h: Handle, room: bool)

  // m_clientsMutex between two steps. Nobody else can change the tables while it is held, so the
  // clients the loop will reach are known from the start: those `left`, and the one just checked.
  datatype Mutex = Free | Held(owner: Owner, f: Frame, left: set<Handle>, next: Option<Checked>)

  datatype StopPc = Up | Collecting | Closing(left: set<Handle>) | Joining | Waiting | Clearing | Down

  // A message received from a registered session; its ticket is its place in `requests`.
  datatype Request = Request(h: Handle, payload: Payload)

  // What has happened on one connection, oldest first: a frame was queued, as the answer to a
  // request unless it is a push; a request changed the subscriptions; a request ended unanswered.
  datatype Entry =
    | Enqueued(f: Frame, answers: Option<nat>)
    | Changed(op: SubOp, listed: set<string>, maker: nat)
    | Lost(ticket: nat, why: Outcome)

  // `queues` are the open connections, `wire` what has already left each of them, `ids` every
  // client id ever given out, `history` the entries of every connection ever opened, and
  // `settledAt` where in its connection's history each finished request ended.
  datatype State = State(
    reg: Registry,
    queues: Queues,
    wire: map<Handle, seq<Frame>>,
    ids: map<Handle, string>,
    history: map<Handle, seq<Entry>>,
    requests: seq<Request>,
    settledAt: map<nat, nat>,
    running: bool,
    io: IoPc,
    active: nat,
    workers: map<nat, Worker>,
    push: PushPc,
    stop: StopPc,
    lock: Mutex)

  // Close is both the close and the fail handler: their code is the same.
  datatype IoStep =
    | Open(h: Handle, id: string)
    | Close(h: Handle)
    | Receive(h: Handle, payload: Payload)
    | Dispatch
    | Count
    | Spawn(w: nat)
    | Exit

  datatype WorkStep = ManageSubscription | Handle(sdk: Handlers.Sdk) | Raise | Route | Leave

  datatype PushStep = Gate(event: string) | Send(data: Json) | Abandon

  datatype SendStep = Check(h: Handle) | Act | Release

  datatype NetStep = Drain(h: Handle, n: nat) | Die(h: Handle)

  datatype StopStep = Begin | Collect | CloseOne(h: Handle) | Halt | Join | WaitDone | Clear | Restart

  datatype Step =
    | Io(io: IoStep)
    | Work(w: nat, work: WorkStep)
    | Main(push: PushStep)
    | Deliver(send: SendStep)
    | Net(net: NetStep)
    | Stop(stop: StopStep)

  const INITIAL := State(
    EMPTY, map[], map[], map[], map[], [], map[], false, Exited, 0, map[], Quiet, Down, Free)

  // ----- when a step may happen -----

  predicate IoEnabled(s: State, step: IoStep) {
    match step
    // Handles are fresh, client ids are never given out twice and are not empty.
    case Open(h, id) => s.io.Idle? && s.lock.Free? && h !in s.ids && id !in s.ids.Values && id != ""
    case Close(_) => s.io.Idle? && s.lock.Free?
    case Receive(_, _) => s.io.Idle? && s.lock.Free?
    case Dispatch => s.io.Holding?
    case Count => s.io.Admitted?
    case Spawn(w) => s.io.Counted? && w !in s.workers
    case Exit => s.io.Idle?
  }

  predicate Holds(lock: Mutex, w: nat) {
    lock.Held? && (lock.owner.Replier? || lock.owner.Flooder?) && lock.owner.w == w
  }

  predicate WorkEnabled(s: State, w: nat, step: WorkStep) {
    && w in s.workers
    && match step
       case ManageSubscription => s.workers[w].pc.Ready? && s.lock.Free? && IsSubscription(s.workers[w].request)
       case Handle(_) => s.workers[w].pc.Ready? && !IsSubscription(s.workers[w].request)
       case Raise => !s.workers[w].pc.Leaving?
       case Route => s.workers[w].pc.Routing? && s.lock.Free?
       case Leave => s.workers[w].pc.Leaving? && !Holds(s.lock, w) && s.active > 0
  }

  predicate PushEnabled(s: State, step: PushStep) {
    match step
    case Gate(_) => s.push.Quiet? && s.lock.Free?
    case Send(_) => s.push.Passed? && s.lock.Free?
    case Abandon => s.push.Passed?
  }

  predicate SendEnabled(s: State, step: SendStep) {
    && s.lock.Held?
    && match step
       case Check(h) => s.lock.next.None? && h in s.lock.left
       case Act => s.lock.next.Some?
       case Release => s.lock.next.None? && s.lock.left == {}
  }

  predicate NetEnabled(s: State, step: NetStep) {
    && step.h in s.queues
    && (step.Drain? ==> step.h in s.wire && step.n <= |s.queues[step.h]|)
  }

  predicate StopEnabled(s: State, step: StopStep) {
    match step
    case Begin => s.stop.Up? || s.stop.Down?
    case Collect => s.stop.Collecting? && s.lock.Free?
    case CloseOne(h) => s.stop.Closing? && h in s.stop.left
    case Halt => s.stop.Closing? && s.stop.left == {}
    case Join => s.stop.Joining? && s.io.Exited?
    case WaitDone => s.stop.Waiting? && s.active == 0
    case Clear => s.stop.Clearing? && s.lock.Free?
    case Restart => s.stop.Down? && !s.running && s.io.Exited?
  }

  predicate Enabled(s: State, step: Step) {
    match step
    case Io(io) => IoEnabled(s, io)
    case Work(w, work) => WorkEnabled(s, w, work)
    case Main(push) => PushEnabled(s, push)
    case Deliver(send) => SendEnabled(s, send)
    case Net(net) => NetEnabled(s, net)
    case Stop(stop) => StopEnabled(s, stop)
  }

  // ----- effects -----

  // The queues become `after`, and every queue that grew by `f` has it in its history.
  function Transmitted(s: State, after: Queues, f: Frame, answers: Option<nat>): State {
    s.(queues := after,
       history := map h | h in s.history ::
         if h in s.queues && h in after && after[h] == s.queues[h] + [f] then s.history[h] + [Enqueued(f, answers)]
         else s.history[h])
  }

  function Noted(s: State, h: Handle, entry: Entry): State {
    s.(history := if h in s.history then s.history[h := s.history[h] + [entry]] else s.history)
  }

  // Request `ticket` of connection `h` ends with the next entry of that connection.
  function Settled(s: State, h: Handle, ticket: nat): State {
    s.(settledAt := s.settledAt[ticket := if h in s.history then |s.history[h]| else 0])
  }

  // It ends unanswered.
  function LosesRequest(s: State, h: Handle, ticket: nat, why: Outcome): State {
    Noted(Settled(s, h, ticket), h, Lost(ticket, why))
  }

  function Opening(s: State, h: Handle, id: string): State {
    s.(reg := Opened(s.reg, h, id),
       queues := s.queues[h := []],
       wire := s.wire[h := []],
       ids := s.ids[h := id],
       history := s.history[h := []])
  }

  function Receiving(s: State, h: Handle, payload: Payload): State {
    if h !in s.reg.sessions then s
    else s.(io := Holding(h, |s.requests|, s.reg.sessions[h].clientId, payload),
            requests := s.requests + [Request(h, payload)])
  }

  // A send to a connection that is gone is lost.
  function AnsweredInline(cfg: Config, s: State, h: Handle, ticket: nat, m: Message): State {
    var f := MakeFrame(cfg.sizeOf, Inline, m);
    if h in s.queues then Transmitted(Settled(s, h, ticket), Sent(s.queues, h, f), f, Some(ticket))
    else LosesRequest(s, h, ticket, ClientGone)
  }

  function Inlined(cfg: Config, s: State, h: Handle, ticket: nat, m: Message): State {
    AnsweredInline(cfg, s, h, ticket, m).(io := Idle)
  }

  function Dispatching(cfg: Config, s: State): State
    requires s.io.Holding?
  {
    match Triaged(s.io.payload, s.io.clientId, cfg.hasProcessor, s.active)
    case Reject(m) => Inlined(cfg, s, s.io.h, s.io.ticket, m)
    case Heartbeat(m) => Inlined(cfg, s, s.io.h, s.io.ticket, m)
    case Unhandled => LosesRequest(s, s.io.h, s.io.ticket, NoProcessor).(io := Idle)
    case Overloaded(m) => Inlined(cfg, s, s.io.h, s.io.ticket, m)
    case Admit(request) => s.(io := Admitted(s.io.h, s.io.ticket, request))
  }

  function WithPc(s: State, w: nat, pc: WorkerPc): State
    requires w in s.workers
  {
    s.(workers := s.workers[w := s.workers[w].(pc := pc)])
  }

  // A worker is done with a request it does not answer.
  function Ending(s: State, w: nat, why: Outcome): State
    requires w in s.workers
  {
    WithPc(LosesRequest(s, s.workers[w].origin, s.workers[w].ticket, why), w, Leaving)
  }

  function Subscribing(s: State, w: nat): State
    requires w in s.workers
  {
    var request := s.workers[w].request;
    match SubscriptionHandled(s.reg, Parsed(request))
    case NoAnswer => Ending(s, w, Silent)
    case Answer(r, reply, change) =>
      var s' := WithPc(s, w, Routing(reply, OrEmpty(StrField(request, CLIENT_ID)))).(reg := r);
      if change.Some? && change.value.h in s.history then
        var c := change.value;
        s'.(history := s.history[c.h := s.history[c.h] + [Changed(c.op, c.listed, s.workers[w].ticket)]])
      else s'
  }

  function Handling(s: State, w: nat, sdk: Handlers.Sdk): State
    requires w in s.workers
  {
    var request := s.workers[w].request;
    var reply := Handlers.Answered(sdk, Parsed(request));
    if reply.None? then Ending(s, w, Silent)
    else WithPc(s, w, Routing(reply.value, OrEmpty(StrField(request, CLIENT_ID))))
  }

  function ReplyFrame(cfg: Config, worker: Worker): Frame
    requires worker.pc.Routing?
  {
    MakeFrame(cfg.sizeOf, ReplyTo(worker.origin), worker.pc.reply)
  }

  // RouteOutgoing takes the mutex and looks the client up.
  function RoutingReply(cfg: Config, s: State, w: nat): State
    requires w in s.workers && s.workers[w].pc.Routing?
  {
    var id, f := s.workers[w].pc.clientId, ReplyFrame(cfg, s.workers[w]);
    if id == "" then Ending(s, w, ToEverybody).(lock := Held(Flooder(w), f, Handshaken(s.reg), None))
    else if id !in s.reg.idToHdl then Ending(s, w, ClientGone)
    else s.(lock := Held(Replier(w), f, {s.reg.idToHdl[id]}, None))
  }

  // An exception gives the mutex back.
  function Raising(s: State, w: nat): State
    requires w in s.workers
  {
    Ending(if Holds(s.lock, w) then s.(lock := Free) else s, w, Raised)
  }

  // A worker's reply is queued on `h`, which ends its request.
  function Answering(s: State, w: nat, h: Handle, f: Frame): State
    requires w in s.workers
  {
    var worker := s.workers[w];
    var mid := Settled(s, worker.origin, worker.ticket);
    WithPc(Transmitted(mid, Sent(s.queues, h, f), f, Some(worker.ticket)), w, Leaving)
  }

  // What follows a size check: the send, if there was room. A send to a connection that has died
  // since queues nothing.
  function Acting(s: State): State
    requires s.lock.Held? && s.lock.next.Some?
  {
    var c := s.lock.next.value;
    match s.lock.owner
    case Replier(w) =>
      if w !in s.workers then s
      else if !c.room then Ending(s, w, Dropped)
      else if c.h !in s.queues then Ending(s, w, ClientGone)
      else Answering(s, w, c.h, s.lock.f)
    case _ => if c.room then Transmitted(s, Sent(s.queues, c.h, s.lock.f), s.lock.f, None) else s
  }

  function Exiting(s: State, w: nat): State
    requires w in s.workers && s.workers[w].pc.Leaving? && s.active > 0
  {
    s.(active := s.active - 1, workers := s.workers - {w})
  }

  function PushFrame(cfg: Config, e: string, data: Json): Frame {
    MakeFrame(cfg.sizeOf, PushOf(e), Push(e, data))
  }

  // Broadcast takes the mutex.
  function Pushing(cfg: Config, s: State, data: Json): State
    requires s.push.Passed?
  {
    var e := s.push.event;
    s.(push := Sending, lock := Held(Callback, PushFrame(cfg, e, data), Listeners(s.reg, e), None))
  }

  function Started(s: State): Worker
    requires s.io.Counted?
  {
    Worker(s.io.h, s.io.ticket, s.io.request, Ready)
  }

  function ExecIo(cfg: Config, s: State, step: IoStep): State
    requires IoEnabled(s, step)
  {
    match step
    case Open(h, id) => Opening(s, h, id)
    case Close(h) => s.(reg := Closed(s.reg, h))
    case Receive(h, payload) => Receiving(s, h, payload)
    case Dispatch => Dispatching(cfg, s)
    case Count => s.(active := s.active + 1, io := Counted(s.io.h, s.io.ticket, s.io.request))
    case Spawn(w) => s.(workers := s.workers[w := Started(s)], io := Idle)
    case Exit => s.(io := Exited, running := false)
  }

  function ExecWork(cfg: Config, s: State, w: nat, step: WorkStep): State
    requires WorkEnabled(s, w, step)
  {
    match step
    case ManageSubscription => Subscribing(s, w)
    case Handle(sdk) => Handling(s, w, sdk)
    case Raise => Raising(s, w)
    case Route => RoutingReply(cfg, s, w)
    case Leave => Exiting(s, w)
  }

  function ExecPush(cfg: Config, s: State, step: PushStep): State
    requires PushEnabled(s, step)
  {
    match step
    case Gate(e) => if HasSubscribers(s.reg, e) then s.(push := Passed(e)) else s
    case Send(data) => Pushing(cfg, s, data)
    case Abandon => s.(push := Quiet)
  }

  function ExecSend(s: State, step: SendStep): State
    requires SendEnabled(s, step)
  {
    match step
    case Check(h) =>
      var room := !IsFull(s.queues, h, s.lock.f.size);
      s.(lock := s.lock.(left := s.lock.left - {h}, next := Some(Checked(h, room))))
    case Act => Acting(s).(lock := s.lock.(next := None))
    case Release => s.(lock := Free, push := if s.lock.owner.Callback? then Quiet else s.push)
  }

  function ExecNet(s: State, step: NetStep): State
    requires NetEnabled(s, step)
  {
    match step
    case Drain(h, n) => s.(queues := s.queues[h := s.queues[h][n..]], wire := s.wire[h := s.wire[h] + s.queues[h][..n]])
    case Die(h) => s.(queues := s.queues - {h})
  }

  function ExecStop(s: State, step: StopStep): State
    requires StopEnabled(s, step)
  {
    match step
    case Begin => if s.running then s.(running := false, stop := Collecting) else s.(stop := Joining)
    case Collect => s.(stop := Closing(s.reg.sessions.Keys))
    case CloseOne(h) => s.(queues := s.queues - {h}, stop := Closing(s.stop.left - {h}))
    case Halt => s.(stop := Joining)
    case Join => s.(stop := Waiting)
    case WaitDone => s.(stop := Clearing)
    case Clear => s.(reg := EMPTY, stop := Down)
    case Restart => s.(running := true, io := Idle, stop := Up)
  }

  function Exec(cfg: Config, s: State, step: Step): State
    requires Enabled(s, step)
  {
    match step
    case Io(io) => ExecIo(cfg, s, io)
    case Work(w, work) => ExecWork(cfg, s, w, work)
    case Main(push) => ExecPush(cfg, s, push)
    case Deliver(send) => ExecSend(s, send)
    case Net(net) => ExecNet(s, net)
    case Stop(stop) => ExecStop(s, stop)
  }

  // ----- runs -----

  ghost predicate CanRun(cfg: Config, s: State, steps: seq<Step>)
    decreases |steps|
  {
    steps == [] || (Enabled(s, steps[0]) && CanRun(cfg, Exec(cfg, s, steps[0]), steps[1..]))
  }

  ghost function After(cfg: Config, s: State, steps: seq<Step>): State
    requires CanRun(cfg, s, steps)
    decreases |steps|
  {
    if steps == [] then s else After(cfg, Exec(cfg, s, steps[0]), steps[1..])
  }

  // Some interleaving leads here from the state the plugin starts in.
  ghost predicate Reachable(cfg: Config, s: State) {
    exists steps :: CanRun(cfg, INITIAL, steps) && After(cfg, INITIAL, steps) == s
  }
}
