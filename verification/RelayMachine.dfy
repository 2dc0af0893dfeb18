/**
  src/zmq_relay.cpp:84-293: the relay and its threads as a state machine.

  Each thread of the program is a function from state to state that performs one atomic step: a lock
  region, a read of `running_`, or one counter update. An execution is any interleaving of the steps of
  any number of callers of `PublishPacket`, the three worker threads, and the thread that calls
  `Initialize` and `Shutdown`. A step that cannot be taken in a state yields None.
 */
module RelayMachine {
  import opened Sequences
  import opened PacketTypes

  type ThreadId = nat

  /** `filter` accepts every packet when none is set; `respond` is `ProcessCommand` at a given time. */
  datatype Config = Config(
    streaming: bool,
    commands: bool,
    reliable: bool,
    maxQueueSize: nat,
    filter: PacketInfo -> bool,
    respond: (nat, string) -> string)

  // ---------------------------------------------------------------------------------------------
  // Where each thread is

  /** A call of `PublishPacket`, with its argument. */
  datatype Call =
    | SawRunning(packet: PacketInfo)  // `running_` was true
    | Admitted(packet: PacketInfo)    // ... and so was `pub_socket_`
    | Passed(packet: PacketInfo)      // the filter accepts the packet
    | Offered(packet: PacketInfo)     // the reliable queue has been dealt with

  datatype Publisher =
    | PubOff
    | PubTop                                       // about to test `running_` in the loop condition
    | PubLocked                                    // holds the lock, about to test `running_` again
    | PubPopping                                   // about to test the queue and pop
    | PubHolding(packet: PacketInfo)               // popped, no id yet
    | PubSending(packet: PacketInfo, id: nat)      // id assigned, not sent yet
    | PubCounting                                  // sent, not counted yet
    | PubFailing                                   // threw, not counted yet

  datatype Pusher =
    | PushOff
    | PushTop
    | PushLocked
    | PushHolding(packet: PacketInfo)

  datatype Commander =
    | CmdOff
    | CmdTop
    | CmdReceiving
    | CmdGot(request: string)
    | CmdReplying(reply: string)
    | CmdCounting

  /** `Initialize` works through seven stages, `Shutdown` through four. */
  datatype Phase =
    | Down
    | Starting(stage: nat)
    | Returned(success: bool)   // `Initialize` has returned
    | Stopping(stage: nat)

  datatype RepSocket = RepClosed | AwaitRequest | AwaitReply

  // ---------------------------------------------------------------------------------------------
  // Histories

  /** A packet and the caller that handed it in. */
  datatype Entry = Entry(caller: ThreadId, packet: PacketInfo)

  /** An attempt to put a packet on the reliable queue. */
  datatype Offer = Offer(entry: Entry, kept: bool)

  datatype Outcome = Sent(id: nat) | LostWithId(id: nat) | LostWithoutId

  datatype Finished = Finished(packet: PacketInfo, outcome: Outcome)

  /** A non-blocking send returns having sent, returns without sending, or throws. */
  datatype SendResult = Delivered | WouldBlock | Threw

  datatype Handled = Handled(packet: PacketInfo, result: SendResult)

  // ---------------------------------------------------------------------------------------------
  // The state, grouped by what guards it; the sequences marked as histories are read by no step

  /** `running_`, the sockets, and the thread that calls `Initialize` and `Shutdown`. */
  datatype Control = Control(running: bool, pubSocket: bool, pushSocket: bool, phase: Phase)

  /** The calls in progress and `packets_filtered`; history: how many calls passed both checks. */
  datatype Callers = Callers(calls: map<ThreadId, Call>, packetsFiltered: nat, admitted: nat)

  /** `publish_queue_`, `next_message_id_` and the counters of the publisher; histories: both its ends. */
  datatype PublishSide = PublishSide(
    queue: seq<PacketInfo>,
    nextMessageId: nat,
    packetsPublished: nat,
    publishDropped: nat,
    sendErrors: nat,
    thread: Publisher,
    pushed: seq<Entry>,
    finished: seq<Finished>)

  /** `packet_queue_`; histories: both its ends. */
  datatype ReliableSide = ReliableSide(
    queue: seq<PacketInfo>,
    thread: Pusher,
    offers: seq<Offer>,
    handled: seq<Handled>)

  /** `rep_socket_` and `commands_processed`; histories: the traffic of the current socket, sends that returned. */
  datatype CommandSide = CommandSide(
    socket: RepSocket,
    commandsProcessed: nat,
    thread: Commander,
    requests: seq<string>,
    ticks: seq<nat>,
    replies: seq<string>,
    returned: nat)

  datatype State = State(
    control: Control,
    callers: Callers,
    publish: PublishSide,
    reliable: ReliableSide,
    command: CommandSide)

  /** A relay object that has just been constructed. */
  const INITIAL: State := State(
    Control(false, false, false, Down),
    Callers(map[], 0, 0),
    PublishSide([], 1, 0, 0, 0, PubOff, [], []),
    ReliableSide([], PushOff, [], []),
    CommandSide(RepClosed, 0, CmdOff, [], [], [], 0))

  // ---------------------------------------------------------------------------------------------
  // PublishPacket (146-169)

  /** A call begins: it returns at once unless the relay is running. */
  function BeginStep(s: State, t: ThreadId, p: PacketInfo): Option<State> {
    if t in s.callers.calls then None
    else if !s.control.running then Some(s)
    else Some(MoveCall(s, t, SawRunning(p)))
  }

  /** The next step of a call in progress. */
  function ContinueStep(c: Config, s: State, t: ThreadId): Option<State> {
    if t !in s.callers.calls then None
    else
      match s.callers.calls[t]
      case SawRunning(p) =>
        if !s.control.pubSocket then Some(EndCall(s, t))
        else
          var r := MoveCall(s, t, Admitted(p));
          Some(r.(callers := r.callers.(admitted := r.callers.admitted + 1)))
      case Admitted(p) =>
        if !c.filter(p) then
          var r := EndCall(s, t);
          Some(r.(callers := r.callers.(packetsFiltered := r.callers.packetsFiltered + 1)))
        else Some(MoveCall(s, t, Passed(p)))
      case Passed(p) =>
        if !c.reliable then Some(MoveCall(s, t, Offered(p)))
        else Some(MoveCall(s, t, Offered(p)).(reliable := OfferPacket(c, s.reliable, Entry(t, p))))
      case Offered(p) => Some(EndCall(s, t).(publish := PushPacket(s.publish, Entry(t, p))))
  }

  function MoveCall(s: State, t: ThreadId, k: Call): State {
    s.(callers := s.callers.(calls := s.callers.calls[t := k]))
  }

  function EndCall(s: State, t: ThreadId): State {
    s.(callers := s.callers.(calls := s.callers.calls - {t}))
  }

  /** The region under `queue_mutex_`: a full queue drops the packet without a trace in the counters. */
  function OfferPacket(c: Config, r: ReliableSide, e: Entry): ReliableSide {
    if |r.queue| < c.maxQueueSize then r.(queue := r.queue + [e.packet], offers := r.offers + [Offer(e, true)])
    else r.(offers := r.offers + [Offer(e, false)])
  }

  /** The region under `publish_mutex_`. */
  function PushPacket(q: PublishSide, e: Entry): PublishSide {
    q.(queue := q.queue + [e.packet], pushed := q.pushed + [e])
  }

  // ---------------------------------------------------------------------------------------------
  // PublisherThread (187-239)

  /** `ok` tells whether what the step does in the library returns or throws. */
  function PublisherStep(q: PublishSide, running: bool, ok: bool): Option<PublishSide> {
    match q.thread
    case PubOff => None
    case PubTop => Some(q.(thread := if running then PubLocked else PubOff))
    case PubLocked => Some(q.(thread := if running then PubPopping else PubOff))
    case PubPopping =>
      if q.queue == [] then Some(q.(thread := PubTop))
      else Some(q.(thread := PubHolding(q.queue[0]), queue := q.queue[1..]))
    case PubHolding(p) =>
      if ok then Some(q.(thread := PubSending(p, q.nextMessageId), nextMessageId := q.nextMessageId + 1))
      else Some(q.(thread := PubFailing, finished := q.finished + [Finished(p, LostWithoutId)]))
    case PubSending(p, id) =>
      if ok then Some(q.(thread := PubCounting, finished := q.finished + [Finished(p, Sent(id))]))
      else Some(q.(thread := PubFailing, finished := q.finished + [Finished(p, LostWithId(id))]))
    case PubCounting => Some(q.(thread := PubTop, packetsPublished := q.packetsPublished + 1))
    case PubFailing => Some(q.(thread := PubTop, sendErrors := q.sendErrors + 1))
  }

  // ---------------------------------------------------------------------------------------------
  // ReliableQueueThread (268-293)

  function PusherStep(r: ReliableSide, running: bool, result: SendResult): Option<ReliableSide> {
    match r.thread
    case PushOff => None
    case PushTop => Some(r.(thread := if running then PushLocked else PushOff))
    case PushLocked =>
      if r.queue == [] then Some(r.(thread := PushTop))
      else Some(r.(thread := PushHolding(r.queue[0]), queue := r.queue[1..]))
    case PushHolding(p) => Some(r.(thread := PushTop, handled := r.handled + [Handled(p, result)]))
  }

  // ---------------------------------------------------------------------------------------------
  // CommandThread (241-266)

  /** What a receive would yield, when a command would be processed, and how a send would end. */
  datatype CommandEvent = CommandEvent(request: Option<string>, time: nat, sent: SendResult)

  function CommanderStep(c: Config, m: CommandSide, running: bool, e: CommandEvent): Option<CommandSide> {
    match m.thread
    case CmdOff => None
    case CmdTop => Some(m.(thread := if running then CmdReceiving else CmdOff))
    case CmdReceiving =>
      // Receiving on a socket that owes a reply throws; the exception is caught and the loop goes on.
      if e.request.Some? && m.socket == AwaitRequest then
        Some(m.(thread := CmdGot(e.request.value), socket := AwaitReply, requests := m.requests + [e.request.value]))
      else Some(m.(thread := CmdTop))
    case CmdGot(request) =>
      Some(m.(thread := CmdReplying(c.respond(e.time, request)), ticks := m.ticks + [e.time]))
    case CmdReplying(reply) =>
      if e.sent == Threw then Some(m.(thread := CmdTop))
      else if e.sent == WouldBlock then Some(m.(thread := CmdCounting, returned := m.returned + 1))
      else
        Some(m.(thread := CmdCounting, socket := AwaitRequest, returned := m.returned + 1,
                replies := m.replies + [reply]))
    case CmdCounting => Some(m.(thread := CmdTop, commandsProcessed := m.commandsProcessed + 1))
  }

  // ---------------------------------------------------------------------------------------------
  // Initialize (84-129) and Shutdown (131-144)

  /** `Fails(true)` throws after the socket has been stored, `Fails(false)` before. */
  datatype ControlEvent = Succeeds | Fails(stored: bool)

  /** Up to stage 2 sockets are opened, at stage 3 `running_` is set, then the threads are started. */
  function InitializeStep(c: Config, s: State, e: ControlEvent): Option<State> {
    var k := s.control;
    var stored := e.Succeeds? || e.stored;
    match k.phase
    case Down => Some(if e.Succeeds? then s.(control := k.(phase := Starting(0))) else s)
    case Starting(stage) =>
      if stage == 0 && c.streaming then Some(s.(control := k.(pubSocket := stored, phase := After(0, e))))
      else if stage == 1 && c.commands then
        Some(s.(control := k.(phase := After(1, e)), command := OpenRep(s.command, stored)))
      else if stage == 2 && c.reliable then Some(s.(control := k.(pushSocket := stored, phase := After(2, e))))
      else if stage == 3 then Some(s.(control := k.(running := true, phase := Starting(4))))
      else if stage == 4 && c.streaming then
        Some(s.(control := k.(phase := After(4, e)),
                publish := if e.Succeeds? then s.publish.(thread := PubTop) else s.publish))
      else if stage == 5 && c.commands then
        Some(s.(control := k.(phase := After(5, e)),
                command := if e.Succeeds? then s.command.(thread := CmdTop) else s.command))
      else if stage == 6 && c.reliable then
        Some(s.(control := k.(phase := After(6, e)),
                reliable := if e.Succeeds? then s.reliable.(thread := PushTop) else s.reliable))
      else Some(s.(control := k.(phase := After(stage, Succeeds))))
    case Returned(_) => None
    case Stopping(_) => None
  }

  function After(stage: nat, e: ControlEvent): Phase {
    if e.Fails? then Returned(false) else if stage >= 6 then Returned(true) else Starting(stage + 1)
  }

  function OpenRep(m: CommandSide, stored: bool): CommandSide {
    m.(socket := if stored then AwaitRequest else RepClosed, requests := [], ticks := [], replies := [])
  }

  /** `running_` is cleared, the threads are joined one by one, then the sockets are closed. */
  function ShutdownStep(s: State): Option<State> {
    var k := s.control;
    match k.phase
    case Starting(_) => None
    case Stopping(stage) =>
      if stage <= 1 then if s.publish.thread == PubOff then Some(s.(control := k.(phase := Stopping(2)))) else None
      else if stage == 2 then if s.command.thread == CmdOff then Some(s.(control := k.(phase := Stopping(3)))) else None
      else if stage == 3 then if s.reliable.thread == PushOff then Some(s.(control := k.(phase := Stopping(4)))) else None
      else Some(s.(control := Control(k.running, false, false, Down), command := s.command.(socket := RepClosed)))
    case _ => Some(s.(control := k.(running := false, phase := Stopping(1))))
  }

  // ---------------------------------------------------------------------------------------------
  // Executions

  datatype Action =
    | Begin(t: ThreadId, packet: PacketInfo)
    | Continue(t: ThreadId)
    | Publish(ok: bool)
    | Push(result: SendResult)
    | Serve(event: CommandEvent)
    | Initialize(outcome: ControlEvent)
    | Shutdown

  function Step(c: Config, s: State, a: Action): Option<State> {
    match a
    case Begin(t, p) => BeginStep(s, t, p)
    case Continue(t) => ContinueStep(c, s, t)
    case Publish(ok) =>
      var q :- PublisherStep(s.publish, s.control.running, ok);
      Some(s.(publish := q))
    case Push(result) =>
      var r :- PusherStep(s.reliable, s.control.running, result);
      Some(s.(reliable := r))
    case Serve(event) =>
      var m :- CommanderStep(c, s.command, s.control.running, event);
      Some(s.(command := m))
    case Initialize(outcome) => InitializeStep(c, s, outcome)
    case Shutdown => ShutdownStep(s)
  }

  /** The state after the actions `run`, if each of them can be taken. */
  function Execute(c: Config, s: State, run: seq<Action>): Option<State>
    decreases |run|
  {
    if run == [] then Some(s)
    else
      var r :- Execute(c, s, Front(run));
      Step(c, r, Last(run))
  }

  lemma ExecuteSnoc(c: Config, s: State, run: seq<Action>, a: Action)
    ensures Execute(c, s, run + [a]) ==
      if Execute(c, s, run).None? then None else Step(c, Execute(c, s, run).value, a)
  {
    assert Front(run + [a]) == run;
  }

  lemma {:induction false} ExecuteConcat(c: Config, s: State, first: seq<Action>, second: seq<Action>)
    requires Execute(c, s, first).Some?
    ensures Execute(c, s, first + second) == Execute(c, Execute(c, s, first).value, second)
    decreases |second|
  {
    if second == [] {
      assert first + second == first;
    } else {
      ExecuteConcat(c, s, first, Front(second));
      assert first + second == (first + Front(second)) + [Last(second)];
      ExecuteSnoc(c, s, first + Front(second), Last(second));
    }
  }

  /** Some execution of the relay ends in `s`. */
  ghost predicate Reachable(c: Config, s: State) {
    exists run :: Execute(c, INITIAL, run) == Some(s)
  }
}
