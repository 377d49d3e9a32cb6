/**
 * The playback state machine of server.js as a value: the module-level
 * variables `currentStream`, `messages`, `isPlayingMessage` and `clients`,
 * the 60-second waits that `playSequentialMessages` and
 * `playMessageEvery30Minutes` are suspended in, and the events emitted so far.
 * Every callback of the program is one transition function here.
 */
module Playback {
  import opened Wrappers
  import opened Streams
  import opened Schedule
  import opened Catalogue
  import opened Registry

  /** The URL every `play-stream` event carries: listeners always fetch the proxy. */
  const StreamPath: string := "/stream"

  /** The payloads of the three push events. */
  datatype Payload =
    | PlayStream(url: string, description: string)   // 'play-stream'
    | PlayMensagem(name: string, url: string)        // 'play-mensagem'
    | StopMensagem                                   // 'stop-mensagem'

  /** `io.emit` reaches every listener; `socket.emit` only one. */
  datatype Event = Broadcast(payload: Payload) | ToSocket(socket: string, payload: Payload)

  /**
   * An `await` on a 60-second timer that has not yet resolved:
   * `BlockWait(i)` is the message-block loop after playing message `i`,
   * `MessageWait` is `playMessageEvery30Minutes` after its single message.
   */
  datatype Pending = BlockWait(index: nat) | MessageWait

  datatype State = State(
    current: StreamId,
    messages: seq<Message>,
    isPlayingMessage: bool,
    clients: seq<string>,
    pending: seq<Pending>,
    log: seq<Event>)

  /** The state right after the module is loaded. */
  function Init(): State {
    State(Imaculado, [], false, [], [], [])
  }

  function Announce(id: StreamId): Payload {
    PlayStream(StreamPath, Lookup(id).description)
  }

  function MessagePayload(m: Message): Payload {
    PlayMensagem(m.name, m.url)
  }

  /** The `play-mensagem` broadcasts for a list of messages, one per message, in order. */
  function MessageEvents(ms: seq<Message>): (es: seq<Event>)
    ensures |es| == |ms|
    ensures forall i :: 0 <= i < |ms| ==> es[i] == Broadcast(PlayMensagem(ms[i].name, ms[i].url))
  {
    if ms == [] then [] else MessageEvents(ms[..|ms| - 1]) + [Broadcast(MessagePayload(ms[|ms| - 1]))]
  }

  /** Extending the message list by one appends its one event. */
  lemma MessageEventsSnoc(ms: seq<Message>, i: nat)
    requires i < |ms|
    ensures MessageEvents(ms[..i + 1]) == MessageEvents(ms[..i]) + [Broadcast(MessagePayload(ms[i]))]
  {
    assert ms[..i + 1][..i] == ms[..i];
  }

  /** What a whole message block emits: every message, then `stop-mensagem`, then the stream. */
  function BlockEvents(ms: seq<Message>, id: StreamId): seq<Event> {
    MessageEvents(ms) + [Broadcast(StopMensagem), Broadcast(Announce(id))]
  }

  /** The random index `playMessageEvery30Minutes` draws must be in range. */
  predicate PickOk(s: State, pick: nat) {
    |s.messages| == 0 || pick < |s.messages|
  }

  // ---- The catalogue ----

  /** The outcome of the Drive listing: a failure (caught and logged) or the response's `files`, possibly absent. */
  datatype Listing = ListFailed | Listed(files: Option<seq<DriveFile>>)

  /** `loadMessagesFromGoogleDrive`: a failed listing leaves `messages` as it was. */
  function LoadMessages(s: State, l: Listing): State {
    match l
    case ListFailed => s
    case Listed(files) => s.(messages := ToMessages(if files.Some? then files.value else []))
  }

  // ---- The cron handlers ----

  /** The handlers that only switch the stream and announce it. */
  function SwitchTo(s: State, id: StreamId): State {
    s.(current := id, log := s.log + [Broadcast(Announce(id))])
  }

  /** `playSequentialMessages` up to its first `await`. */
  function PlaySequentialMessages(s: State): State {
    if |s.messages| == 0 then s
    else s.(isPlayingMessage := true,
            pending := s.pending + [BlockWait(0)],
            log := s.log + [Broadcast(MessagePayload(s.messages[0]))])
  }

  /** `playMessageEvery30Minutes` up to its `await`, with `pick` standing for the random index. */
  function PlayMessageEvery30Minutes(s: State, pick: nat): State
    requires PickOk(s, pick)
  {
    if |s.messages| == 0 then s
    else s.(pending := s.pending + [MessageWait],
            log := s.log + [Broadcast(MessagePayload(s.messages[pick]))])
  }

  /** The handler of '0,30 1-4 * * *'. */
  function NightTrigger(s: State, pick: nat): State
    requires PickOk(s, pick)
  {
    if !s.isPlayingMessage then PlayMessageEvery30Minutes(s, pick) else s
  }

  /** The handler of '0 12 * * *'. */
  function NoonReturn(s: State): State {
    s.(isPlayingMessage := false,
       current := Imaculado,
       log := s.log + [Broadcast(StopMensagem), Broadcast(Announce(Imaculado))])
  }

  function RunJob(s: State, j: Job, pick: nat): State
    requires PickOk(s, pick)
  {
    match j
    case ToClassica => SwitchTo(s, Classica)
    case NightMessage => NightTrigger(s, pick)
    case ToImaculado => SwitchTo(s, Imaculado)
    case MessageBlock => PlaySequentialMessages(s)
    case Noon => NoonReturn(s)
    case SaturdayMass => SwitchTo(s, Missa)
    case SaturdayMassEnd => SwitchTo(s, Imaculado)
  }

  /** One minute of wall-clock time: the job due at `t`, if any, runs. */
  function OnTick(s: State, t: Time, pick: nat): State
    requires PickOk(s, pick)
  {
    match Due(t)
    case None => s
    case Some(j) => RunJob(s, j, pick)
  }

  // ---- Resuming after a 60-second wait ----

  function RemoveAt(ps: seq<Pending>, k: nat): seq<Pending>
    requires k < |ps|
  {
    ps[..k] + ps[k + 1..]
  }

  /**
   * The timer of pending wait `k` resolves. The block loop moves on to the next
   * message, or leaves the loop, clears `isPlayingMessage` and announces the
   * stream; the single night message announces the stream.
   */
  function Resume(s: State, k: nat): State
    requires k < |s.pending|
  {
    var rest := RemoveAt(s.pending, k);
    match s.pending[k]
    case BlockWait(i) =>
      if i + 1 < |s.messages| then
        s.(pending := rest + [BlockWait(i + 1)],
           log := s.log + [Broadcast(MessagePayload(s.messages[i + 1]))])
      else
        s.(isPlayingMessage := false,
           pending := rest,
           log := s.log + [Broadcast(StopMensagem), Broadcast(Announce(s.current))])
    case MessageWait =>
      s.(pending := rest,
         log := s.log + [Broadcast(StopMensagem), Broadcast(Announce(s.current))])
  }

  // ---- Socket callbacks ----

  /** 'connection': register the socket and tell it, and only it, what is playing. */
  function Connect(s: State, id: string): State {
    s.(clients := s.clients + [id], log := s.log + [ToSocket(id, Announce(s.current))])
  }

  /** 'disconnect'. */
  function Disconnect(s: State, id: string): State {
    s.(clients := RemoveAll(s.clients, id))
  }

  /** 'get-current-stream'. */
  function GetCurrentStream(s: State, id: string): State {
    s.(log := s.log + [ToSocket(id, Announce(s.current))])
  }

  // ---- The /health snapshot ----

  datatype Health = Health(status: string, icecast: string, nginx: string, messages: nat, currentStream: string)

  /** The body of GET /health; whether each daemon's process handle has been set is supplied from outside. */
  function HealthOf(s: State, icecastStarted: bool, nginxStarted: bool): Health {
    Health("ok",
           if icecastStarted then "running" else "stopped",
           if nginxStarted then "running" else "stopped",
           |s.messages|,
           Lookup(s.current).description)
  }

  // ---- Every step the running server can take ----

  datatype Input =
    | Clock(t: Time, pick: nat)
    | TimerDone(k: nat)
    | Connected(id: string)
    | Disconnected(id: string)
    | AskedCurrentStream(id: string)

  predicate Enabled(s: State, i: Input) {
    match i
    case Clock(_, pick) => PickOk(s, pick)
    case TimerDone(k) => k < |s.pending|
    case _ => true
  }

  function Step(s: State, i: Input): State
    requires Enabled(s, i)
  {
    match i
    case Clock(t, pick) => OnTick(s, t, pick)
    case TimerDone(k) => Resume(s, k)
    case Connected(id) => Connect(s, id)
    case Disconnected(id) => Disconnect(s, id)
    case AskedCurrentStream(id) => GetCurrentStream(s, id)
  }
}
