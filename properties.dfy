/**
 * What the schedule and the message routines promise, stated over the
 * transition functions of `Playback`.
 */
module Properties {
  import opened Wrappers
  import opened Streams
  import opened Schedule
  import opened Catalogue
  import opened Registry
  import opened Playback

  // ---- Stream switches ----

  /** At 00:10, every day, the stream becomes the classical one; only that and one announcement change. */
  lemma ClassicaAtTenPastMidnight(s: State, t: Time, pick: nat)
    requires PickOk(s, pick) && t.hour == 0 && t.minute == 10
    ensures var u := OnTick(s, t, pick);
      u.current == Classica &&
      u.log == s.log + [Broadcast(PlayStream("/stream", "Clássica"))] &&
      u.isPlayingMessage == s.isPlayingMessage && u.messages == s.messages &&
      u.clients == s.clients && u.pending == s.pending
  {
  }

  /** At 05:00, every day, the stream returns to Voz do Coração Imaculado. */
  lemma ImaculadoAtFive(s: State, t: Time, pick: nat)
    requires PickOk(s, pick) && t.hour == 5 && t.minute == 0
    ensures var u := OnTick(s, t, pick);
      u.current == Imaculado &&
      u.log == s.log + [Broadcast(PlayStream("/stream", "Voz do Coração Imaculado"))] &&
      u.isPlayingMessage == s.isPlayingMessage && u.messages == s.messages &&
      u.clients == s.clients && u.pending == s.pending
  {
  }

  /** Saturday at 19:00 the Mass is relayed, Saturday at 20:30 the normal stream returns. */
  lemma SaturdayMassSwitches(s: State, t: Time, pick: nat)
    requires PickOk(s, pick) && t.dayOfWeek == 6
    ensures t.hour == 19 && t.minute == 0 ==>
      var u := OnTick(s, t, pick);
      u.current == Missa && u.log == s.log + [Broadcast(PlayStream("/stream", "Missa de Sábado"))] &&
      u.isPlayingMessage == s.isPlayingMessage && u.pending == s.pending && u.clients == s.clients &&
      u.messages == s.messages
    ensures t.hour == 20 && t.minute == 30 ==>
      var u := OnTick(s, t, pick);
      u.current == Imaculado && u.log == s.log + [Broadcast(PlayStream("/stream", "Voz do Coração Imaculado"))] &&
      u.isPlayingMessage == s.isPlayingMessage && u.pending == s.pending && u.clients == s.clients &&
      u.messages == s.messages
  {
  }

  /** On any other day those two minutes do nothing at all. */
  lemma NoMassOnOtherDays(s: State, t: Time, pick: nat)
    requires PickOk(s, pick) && t.dayOfWeek != 6
    requires (t.hour == 19 && t.minute == 0) || (t.hour == 20 && t.minute == 30)
    ensures OnTick(s, t, pick) == s
  {
  }

  /** A minute at which no job is due leaves the state as it is. */
  lemma IdleMinute(s: State, t: Time, pick: nat)
    requires PickOk(s, pick) && forall j :: !Fires(j, t)
    ensures OnTick(s, t, pick) == s
  {
  }

  // ---- 12:00 ----

  /**
   * Whatever the state, noon clears the message flag, selects the main stream and
   * emits `stop-mensagem` then `play-stream`. Waits still pending are not cancelled.
   */
  lemma NoonResets(s: State, t: Time, pick: nat)
    requires PickOk(s, pick) && t.hour == 12 && t.minute == 0
    ensures var u := OnTick(s, t, pick);
      !u.isPlayingMessage && u.current == Imaculado &&
      u.log == s.log + [Broadcast(StopMensagem), Broadcast(PlayStream("/stream", "Voz do Coração Imaculado"))] &&
      u.messages == s.messages && u.clients == s.clients && u.pending == s.pending
  {
  }

  // ---- Message triggers ----

  /**
   * The half-hour night trigger (01:00 to 04:30) plays one message, chosen by
   * `pick`, only when `isPlayingMessage` is false and the catalogue is not
   * empty; otherwise it changes nothing and emits nothing. It does not set the
   * message flag.
   */
  lemma NightTriggerGuard(s: State, t: Time, pick: nat)
    requires PickOk(s, pick) && 1 <= t.hour <= 4 && (t.minute == 0 || t.minute == 30)
    ensures s.isPlayingMessage || |s.messages| == 0 ==> OnTick(s, t, pick) == s
    ensures !s.isPlayingMessage && |s.messages| > 0 ==>
      var u := OnTick(s, t, pick);
      u.log == s.log + [Broadcast(PlayMensagem(s.messages[pick].name, s.messages[pick].url))] &&
      u.pending == s.pending + [MessageWait] &&
      u.isPlayingMessage == s.isPlayingMessage && u.current == s.current &&
      u.messages == s.messages && u.clients == s.clients
  {
  }

  /**
   * The flag does not always mean "no block is running": noon clears it while a
   * block wait may still be pending, and a night trigger after that plays its
   * message beside the unfinished block.
   */
  lemma NoonThenNightOverlapsBlock(s: State, w: nat, noon: Time, night: Time, pick: nat)
    requires w < |s.pending| && s.pending[w].BlockWait? && pick < |s.messages|
    requires noon.hour == 12 && noon.minute == 0
    requires 1 <= night.hour <= 4 && (night.minute == 0 || night.minute == 30)
    ensures !OnTick(s, noon, pick).isPlayingMessage
    ensures var u := OnTick(OnTick(s, noon, pick), night, pick);
      u.pending == s.pending + [MessageWait] && u.pending[w].BlockWait? &&
      u.log[|u.log| - 1] == Broadcast(PlayMensagem(s.messages[pick].name, s.messages[pick].url))
  {
  }

  /** With an empty catalogue the 11:00 block returns at once: no flag, no event. */
  lemma EmptyBlockIsNoop(s: State, t: Time, pick: nat)
    requires PickOk(s, pick) && t.hour == 11 && t.minute == 0 && |s.messages| == 0
    ensures OnTick(s, t, pick) == s
  {
  }

  /** The single night message ends with `stop-mensagem` and the current stream. */
  lemma NightMessageEnds(s: State, k: nat)
    requires k < |s.pending| && s.pending[k] == MessageWait
    ensures var u := Resume(s, k);
      u.log == s.log + [Broadcast(StopMensagem), Broadcast(PlayStream("/stream", Lookup(s.current).description))] &&
      u.pending == s.pending[..k] + s.pending[k + 1..] &&
      u.isPlayingMessage == s.isPlayingMessage && u.current == s.current &&
      u.messages == s.messages && u.clients == s.clients
  {
  }

  /**
   * The timer of a block wait resolves, wherever it sits among the pending
   * waits (a night message may have been queued after it): the block plays its
   * next message, or, after the last one, clears the flag and announces the
   * stream. No other field changes.
   */
  lemma BlockWaitResumes(s: State, k: nat, i: nat)
    requires k < |s.pending| && s.pending[k] == BlockWait(i)
    ensures var u := Resume(s, k);
      u.current == s.current && u.messages == s.messages && u.clients == s.clients &&
      (if i + 1 < |s.messages| then
         u.pending == RemoveAt(s.pending, k) + [BlockWait(i + 1)] &&
         u.log == s.log + [Broadcast(PlayMensagem(s.messages[i + 1].name, s.messages[i + 1].url))] &&
         u.isPlayingMessage == s.isPlayingMessage
       else
         u.pending == RemoveAt(s.pending, k) && !u.isPlayingMessage &&
         u.log == s.log + [Broadcast(StopMensagem), Broadcast(PlayStream("/stream", Lookup(s.current).description))])
  {
  }

  // ---- A whole message block ----

  /** The block's own timers resolve one after another, `n` times, with no other callback between. */
  function RunUninterrupted(s: State, n: nat): State
    decreases n
  {
    if n == 0 || |s.pending| == 0 then s else RunUninterrupted(Resume(s, |s.pending| - 1), n - 1)
  }

  /** From the wait after message `i` on, the block plays the rest and then finishes. */
  lemma {:induction false} BlockFinishesFrom(s: State, i: nat)
    requires i < |s.messages|
    ensures RunUninterrupted(
              s.(isPlayingMessage := true,
                 pending := s.pending + [BlockWait(i)],
                 log := s.log + MessageEvents(s.messages[..i + 1])),
              |s.messages| - i)
         == s.(isPlayingMessage := false, log := s.log + BlockEvents(s.messages, s.current))
    decreases |s.messages| - i
  {
    var u := s.(isPlayingMessage := true,
                pending := s.pending + [BlockWait(i)],
                log := s.log + MessageEvents(s.messages[..i + 1]));
    var k := |u.pending| - 1;
    assert u.pending[k] == BlockWait(i);
    assert RemoveAt(u.pending, k) == s.pending;
    if i + 1 < |s.messages| {
      MessageEventsSnoc(s.messages, i + 1);
      assert Resume(u, k) == s.(isPlayingMessage := true,
                                pending := s.pending + [BlockWait(i + 1)],
                                log := s.log + MessageEvents(s.messages[..i + 2]));
      BlockFinishesFrom(s, i + 1);
    } else {
      assert s.messages[..i + 1] == s.messages;
      assert Resume(u, k) == s.(isPlayingMessage := false, log := s.log + BlockEvents(s.messages, s.current));
    }
  }

  /**
   * A message block over a non-empty catalogue, left to run: it sets the flag,
   * emits one `play-mensagem` per message in catalogue order (name and url),
   * then clears the flag and emits `stop-mensagem` and the current stream.
   * Nothing else changes, and no wait of its own is left pending.
   */
  lemma BlockPlaysEveryMessage(s: State)
    requires |s.messages| > 0
    ensures PlaySequentialMessages(s).isPlayingMessage
    ensures RunUninterrupted(PlaySequentialMessages(s), |s.messages|)
         == s.(isPlayingMessage := false, log := s.log + BlockEvents(s.messages, s.current))
  {
    MessageEventsSnoc(s.messages, 0);
    assert s.messages[..0] == [];
    assert PlaySequentialMessages(s) == s.(isPlayingMessage := true,
                                           pending := s.pending + [BlockWait(0)],
                                           log := s.log + MessageEvents(s.messages[..1]));
    BlockFinishesFrom(s, 0);
  }

  /** The 11:00 tick is exactly the block's start, for every state and every pick. */
  lemma ElevenStartsBlock(s: State, t: Time, pick: nat)
    requires PickOk(s, pick) && t.hour == 11 && t.minute == 0
    ensures OnTick(s, t, pick) == PlaySequentialMessages(s)
  {
  }

  // ---- Invariants of every step ----

  /**
   * Between steps: the flag is only ever up while some block wait is pending,
   * and every block wait points into the catalogue.
   */
  ghost predicate Inv(s: State) {
    (s.isPlayingMessage ==> exists k :: 0 <= k < |s.pending| && s.pending[k].BlockWait?) &&
    (forall k :: 0 <= k < |s.pending| && s.pending[k].BlockWait? ==> s.pending[k].index < |s.messages|)
  }

  lemma InitInv()
    ensures Inv(Init())
  {
  }

  /** The schedule starts from the loaded catalogue, which the invariant also holds for. */
  lemma LoadedInitInv(l: Listing)
    ensures Inv(LoadMessages(Init(), l))
  {
  }

  /** Removing one pending wait keeps every other one. */
  lemma RemoveAtKeeps(ps: seq<Pending>, k: nat, j: nat)
    requires k < |ps| && j < |ps| && j != k
    ensures var r := RemoveAt(ps, k); |r| == |ps| - 1 && r[if j < k then j else j - 1] == ps[j]
  {
  }

  lemma RemoveAtFrom(ps: seq<Pending>, k: nat, j: nat)
    requires k < |ps| && j < |ps| - 1
    ensures RemoveAt(ps, k)[j] == ps[if j < k then j else j + 1]
  {
  }

  lemma {:induction false} StepKeepsInv(s: State, i: Input)
    requires Enabled(s, i) && Inv(s)
    ensures Inv(Step(s, i))
  {
    var u := Step(s, i);
    if i.TimerDone? {
      var k := i.k;
      forall j | 0 <= j < |u.pending| && u.pending[j].BlockWait?
        ensures u.pending[j].index < |u.messages|
      {
        if j < |s.pending| - 1 {
          RemoveAtFrom(s.pending, k, j);
        }
      }
      if u.isPlayingMessage {
        var w :| 0 <= w < |s.pending| && s.pending[w].BlockWait?;
        if s.pending[k].BlockWait? {
          assert u.pending[|u.pending| - 1].BlockWait?;
        } else {
          RemoveAtKeeps(s.pending, k, w);
          assert u.pending[if w < k then w else w - 1].BlockWait?;
        }
      }
    } else if i.Clock? {
      assert s.pending <= u.pending;
      assert |u.pending| == |s.pending| || u.pending == s.pending + [u.pending[|s.pending|]];
      if u.isPlayingMessage {
        if s.isPlayingMessage {
          var w :| 0 <= w < |s.pending| && s.pending[w].BlockWait?;
          assert u.pending[w] == s.pending[w];
        } else {
          assert u.pending[|u.pending| - 1].BlockWait?;
        }
      }
    }
  }

  /** No step rewrites the past or touches the catalogue: events are only ever appended. */
  lemma StepOnlyAppends(s: State, i: Input)
    requires Enabled(s, i)
    ensures s.log <= Step(s, i).log
    ensures Step(s, i).messages == s.messages
  {
  }

  // ---- The client registry ----

  /**
   * A connection registers the socket and sends the current stream to that
   * socket alone; the same socket's disconnection restores the registry.
   */
  lemma ConnectDisconnect(s: State, id: string)
    requires id !in s.clients
    ensures Connect(s, id).clients == s.clients + [id]
    ensures Connect(s, id).log == s.log + [ToSocket(id, PlayStream("/stream", Lookup(s.current).description))]
    ensures Disconnect(Connect(s, id), id).clients == s.clients
  {
    ConnectThenDisconnect(s.clients, id);
  }

  /** A disconnection removes every occurrence of the id, keeps the others with their counts, and emits nothing. */
  lemma DisconnectRemovesOnlyThatId(s: State, id: string, other: string)
    requires other != id
    ensures id !in Disconnect(s, id).clients
    ensures Count(Disconnect(s, id).clients, other) == Count(s.clients, other)
    ensures Disconnect(s, id).log == s.log && Disconnect(s, id).current == s.current
  {
    RemoveAllKeepsOthers(s.clients, id, other);
  }

  // ---- Catalogue and health ----

  /** After a successful listing the catalogue is the mapped file list; after a failed one it is unchanged. */
  lemma LoadedCatalogue(s: State, files: seq<DriveFile>)
    ensures LoadMessages(s, Listed(Some(files))) == s.(messages := ToMessages(files))
    ensures |LoadMessages(s, Listed(Some(files))).messages| == |files|
    ensures LoadMessages(s, Listed(None)) == s.(messages := [])
    ensures LoadMessages(s, ListFailed) == s
    ensures HealthOf(LoadMessages(s, Listed(Some(files))), true, true).messages == |files|
  {
  }

  /** After the 00:10 switch /health reports Clássica and the unchanged catalogue size. */
  lemma HealthAfterNight(s: State, t: Time, pick: nat, ic: bool, ng: bool)
    requires PickOk(s, pick) && t.hour == 0 && t.minute == 10
    ensures HealthOf(OnTick(s, t, pick), ic, ng).currentStream == "Clássica"
    ensures HealthOf(OnTick(s, t, pick), ic, ng).messages == |s.messages|
  {
  }
}
