/**
 * The running server: the module-level variables of server.js as the fields
 * of one object, and one method per callback that changes them. Every method
 * is specified by the matching transition function of `Playback`.
 */
module Server {
  import opened Streams
  import opened Schedule
  import opened Catalogue
  import opened Registry
  import Playback

  class Station {
    var currentStream: StreamId
    var messages: seq<Message>
    var isPlayingMessage: bool
    var clients: seq<string>
    /** The 60-second waits that a message routine is suspended in. */
    var pending: seq<Playback.Pending>
    /** Every event emitted so far, to all listeners or to one socket. */
    ghost var log: seq<Playback.Event>

    ghost function Snapshot(): Playback.State
      reads this
    {
      Playback.State(currentStream, messages, isPlayingMessage, clients, pending, log)
    }

    constructor ()
      ensures Snapshot() == Playback.Init()
    {
      currentStream := Imaculado;
      messages := [];
      isPlayingMessage := false;
      clients := [];
      pending := [];
      log := [];
    }

    /** `io.emit`. */
    method Emit(p: Playback.Payload)
      modifies this`log
      ensures log == old(log) + [Playback.Broadcast(p)]
    {
      log := log + [Playback.Broadcast(p)];
    }

    method LoadMessagesFromGoogleDrive(l: Playback.Listing)
      modifies this
      ensures Snapshot() == Playback.LoadMessages(old(Snapshot()), l)
    {
      match l
      case ListFailed =>
      case Listed(files) =>
        messages := ToMessages(if files.Some? then files.value else []);
    }

    /** The body shared by the handlers that switch streams. */
    method SwitchStream(id: StreamId)
      modifies this
      ensures Snapshot() == Playback.SwitchTo(old(Snapshot()), id)
    {
      currentStream := id;
      Emit(Playback.Announce(currentStream));
    }

    /** `playSequentialMessages` up to its first `await`. */
    method PlaySequentialMessages()
      modifies this
      ensures Snapshot() == Playback.PlaySequentialMessages(old(Snapshot()))
    {
      if |messages| == 0 {
        return;
      }
      isPlayingMessage := true;
      Emit(Playback.MessagePayload(messages[0]));
      pending := pending + [Playback.BlockWait(0)];
    }

    /** `playMessageEvery30Minutes` up to its `await`; `pick` stands for the random index. */
    method PlayMessageEvery30Minutes(pick: nat)
      requires |messages| == 0 || pick < |messages|
      modifies this
      ensures Snapshot() == Playback.PlayMessageEvery30Minutes(old(Snapshot()), pick)
    {
      if |messages| == 0 {
        return;
      }
      Emit(Playback.MessagePayload(messages[pick]));
      pending := pending + [Playback.MessageWait];
    }

    /** The handler of '0 12 * * *'. */
    method NoonReturn()
      modifies this
      ensures Snapshot() == Playback.NoonReturn(old(Snapshot()))
    {
      isPlayingMessage := false;
      currentStream := Imaculado;
      Emit(Playback.StopMensagem);
      Emit(Playback.Announce(currentStream));
    }

    /** The minute `t` arrives: the handler whose cron expression matches runs. */
    method Tick(t: Time, pick: nat)
      requires |messages| == 0 || pick < |messages|
      modifies this
      ensures Snapshot() == Playback.OnTick(old(Snapshot()), t, pick)
    {
      match Due(t)
      case None =>
      case Some(j) =>
        match j
        case ToClassica => SwitchStream(Classica);
        case NightMessage =>
          if !isPlayingMessage {
            PlayMessageEvery30Minutes(pick);
          }
        case ToImaculado => SwitchStream(Imaculado);
        case MessageBlock => PlaySequentialMessages();
        case Noon => NoonReturn();
        case SaturdayMass => SwitchStream(Missa);
        case SaturdayMassEnd => SwitchStream(Imaculado);
    }

    /** The timer of pending wait `k` resolves and its routine continues. */
    method ResumeWait(k: nat)
      requires k < |pending|
      modifies this
      ensures Snapshot() == Playback.Resume(old(Snapshot()), k)
    {
      var waiting := pending[k];
      pending := pending[..k] + pending[k + 1..];
      match waiting
      case BlockWait(i) =>
        if i + 1 < |messages| {
          Emit(Playback.MessagePayload(messages[i + 1]));
          pending := pending + [Playback.BlockWait(i + 1)];
        } else {
          isPlayingMessage := false;
          Emit(Playback.StopMensagem);
          Emit(Playback.Announce(currentStream));
        }
      case MessageWait =>
        Emit(Playback.StopMensagem);
        Emit(Playback.Announce(currentStream));
    }

    /**
     * The `for` loop of `playSequentialMessages` run to its end without any
     * other callback in between: one `play-mensagem` per message in order,
     * then `stop-mensagem` and the current stream.
     */
    method RunMessageBlock()
      modifies this
      ensures messages == old(messages) && clients == old(clients)
      ensures currentStream == old(currentStream) && pending == old(pending)
      ensures |messages| == 0 ==> isPlayingMessage == old(isPlayingMessage) && log == old(log)
      ensures |messages| > 0 ==> !isPlayingMessage && log == old(log) + Playback.BlockEvents(messages, currentStream)
    {
      PlaySequentialMessages();
      if |messages| == 0 {
        return;
      }
      Playback.MessageEventsSnoc(messages, 0);
      assert messages[..0] == [];
      var i := 0;
      while i + 1 < |messages|
        invariant 0 <= i < |messages|
        invariant messages == old(messages) && clients == old(clients) && currentStream == old(currentStream)
        invariant isPlayingMessage
        invariant pending == old(pending) + [Playback.BlockWait(i)]
        invariant log == old(log) + Playback.MessageEvents(messages[..i + 1])
      {
        assert pending[..|pending| - 1] == old(pending);
        ResumeWait(|pending| - 1);
        Playback.MessageEventsSnoc(messages, i + 1);
        i := i + 1;
      }
      assert pending[..|pending| - 1] == old(pending);
      assert messages[..i + 1] == messages;
      ResumeWait(|pending| - 1);
    }

    /** 'connection'. */
    method Connect(id: string)
      modifies this
      ensures Snapshot() == Playback.Connect(old(Snapshot()), id)
    {
      clients := clients + [id];
      log := log + [Playback.ToSocket(id, Playback.Announce(currentStream))];
    }

    /** 'disconnect'. */
    method Disconnect(id: string)
      modifies this
      ensures Snapshot() == Playback.Disconnect(old(Snapshot()), id)
    {
      clients := RemoveAll(clients, id);
    }

    /** 'get-current-stream'. */
    method GetCurrentStream(id: string)
      modifies this
      ensures Snapshot() == Playback.GetCurrentStream(old(Snapshot()), id)
    {
      log := log + [Playback.ToSocket(id, Playback.Announce(currentStream))];
    }

    /** GET /health. */
    method Health(icecastStarted: bool, nginxStarted: bool) returns (h: Playback.Health)
      ensures h == Playback.HealthOf(Snapshot(), icecastStarted, nginxStarted)
      ensures h.messages == |messages| && h.currentStream == Lookup(currentStream).description
    {
      h := Playback.Health("ok",
                           if icecastStarted then "running" else "stopped",
                           if nginxStarted then "running" else "stopped",
                           |messages|,
                           Lookup(currentStream).description);
    }
  }
}
