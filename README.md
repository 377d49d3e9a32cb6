# Parish web radio: schedule-driven playback state machine

This project models the core of `server.js` in the parish web radio server. The server relays one
"current" radio stream to its listeners. It also broadcasts push events over a socket channel
(`play-stream`, `play-mensagem`, `stop-mensagem`). Seven cron jobs drive it through the day:

- at 00:10 it switches to the classical stream;
- from 01:00 to 04:30, every half hour, it plays one random recorded message;
- at 05:00 it returns to *Voz do Coração Imaculado*;
- at 11:00 it plays every catalogued message in turn, 60 seconds each;
- at 12:00 it resets to the main stream;
- on Saturday at 19:00 it relays the Mass, and at 20:30 it returns.

The message catalogue is the list of audio files in a Google Drive folder.

The model has these modules (one file each):

- `Streams`: the `STREAMS` table.
- `Schedule`: the seven cron expressions, what it means for one to match a minute, and the job due
  at a given minute.
- `Catalogue`: how a Drive file listing becomes the message catalogue, with its download links.
- `Registry`: the list of connected socket ids and the `filter` that removes one.
- `Template`: the placeholder substitution that produces the Icecast configuration.
- `Playback`: the whole server state as a value (`currentStream`, `messages`, `isPlayingMessage`,
  `clients`, the 60-second waits a routine is suspended in, and the emitted events). It has one
  transition function per callback.
- `Properties`: the schedule's promises and the message routines' promises, proved over
  `Playback`. This includes an invariant kept by every step.
- `Server`: the imperative form: class `Station` holds the module-level variables as fields and has one
  method per callback. Each method is proved to update its fields exactly as the matching
  `Playback` function does. `RunMessageBlock` runs the block's `for` loop to the end with loop
  invariants.

The async routines are cut at each `await`. `playSequentialMessages` starts, emits message 0 and
leaves a pending `BlockWait(0)`. When that timer resolves (`ResumeWait`), it emits the next message
and waits again. After the last message it clears `isPlayingMessage` and emits `stop-mensagem` and
`play-stream`. `playMessageEvery30Minutes` works the same way with a single `MessageWait`.
`Math.random` becomes a parameter `pick` that must index the catalogue. Whether each daemon's process
handle has been set, which is all `/health` tests, is also a parameter.

Some consequences of how the code is written:

- Each of the seven cron jobs makes its assignments at a fixed minute; nothing evaluates time
  windows. `Schedule.Due` shows that no two jobs share a minute.
- Stream switches happen whether or not a message is playing. `isPlayingMessage` guards only the
  night trigger.
- The night message does not set `isPlayingMessage`.
- Every message lasts a fixed 60 seconds, modelled as an explicit timer step.
- Nothing cancels a pending wait. The 12:00 handler clears the flag and announces the main stream,
  but a block still running (one with more than 60 messages) goes on emitting messages and then
  finishes on its own. A night trigger plays beside such a block only if the block is still
  running at 01:00 the next day, which takes more than 840 messages (the listing returns at most
  1000). The model, which resumes waits in any order, shows the overlap in
  `Properties.NoonThenNightOverlapsBlock`.

## Model

| member | source | states |
|---|---|---|
| Streams.Lookup | server.js:30-55 | every entry of the stream table has a description and an http or https URL |
| Streams.DescriptionIdentifiesStream | server.js:30-55 | the description that listeners receive determines the table entry |
| Streams.UrlIsShared | server.js:30-55 | the `maraba` and `ametista` entries have the same URL, so the URL does not determine the entry |
| Schedule.Due | server.js:231-294 | the job given by clock times is due exactly when its cron expression matches, so at most one job is due in any minute |
| Schedule.AtMostOneJobFires | server.js:232-287 | the seven cron expressions are pairwise disjoint |
| Schedule.SaturdayJobsNeedSaturday | server.js:277-294 | 19:00 and 20:30 on a day other than Saturday run no job |
| Catalogue.ToMessages | server.js:157-161 | the catalogue has one message per listed file, in listing order, with the file's id and name and url `https://drive.google.com/uc?id=` + id + `&export=download` |
| Catalogue.UrlRoundTrip | server.js:160 | the id can be read back from the download link |
| Catalogue.DownloadUrlInjective | server.js:160 | distinct file ids get distinct links |
| Catalogue.CatalogueUrlsNameTheirFiles | server.js:157-161 | each message's link leads back to that message's own id |
| Registry.RemoveAll | server.js:381 | an id survives the filter iff it was registered and differs from the leaving socket; the length drops by the number of occurrences removed |
| Registry.RemoveAllAppend | server.js:381 | the filter works piecewise, so the surviving ids keep their order |
| Registry.RemoveAllKeepsOthers | server.js:381 | every other id keeps its number of occurrences |
| Registry.RemoveAllAbsent | server.js:381 | removing an unregistered id changes nothing |
| Registry.ConnectThenDisconnect | server.js:373-381 | pushing a new id and then filtering it out restores the list |
| Template.ReplaceAll | server.js:73-77 | a global replacement of a literal pattern leaves a text with no match unchanged |
| Template.MatchAtStart | server.js:73-77 | a match at the front is replaced by the value and the scan continues after it |
| Template.SkipPlain | server.js:73-77 | text without `$` cannot start a `${NAME}` match and is copied unchanged |
| Template.PlainUnchanged | server.js:73-77 | a `$`-free text is left unchanged by every placeholder replacement |
| Template.ReplaceOne | server.js:73-77 | a placeholder between two `$`-free stretches of text is replaced by the value, and the rest is kept |
| Template.OtherPlaceholderUntouched | server.js:73-77 | replacing one placeholder leaves a different placeholder and the `$`-free text around it unchanged |
| Template.IcecastConfig | server.js:72-77 | a template without any of the four placeholders is written out unchanged |
| Template.IcecastSubstitutes | server.js:72-77 | for every environment whose chosen value has no `$`, a template `a + ${KEY} + b` with `$`-free `a` and `b` becomes `a + value + b`, the value being the environment variable or, when unset or empty, the key's default |
| Template.UnsetOrEmptyFallsBack | server.js:74-77 | for each of the four keys, an unset or empty environment variable puts the built-in default in the placeholder's place |
| Playback.MessageEvents | server.js:192-200 | one `play-mensagem` broadcast per message, in catalogue order, with its name and url |
| Playback.MessageEventsSnoc | server.js:192-200 | each loop iteration appends exactly its own message's event |
| Properties.ClassicaAtTenPastMidnight | server.js:232-239 | at 00:10 the stream becomes Clássica and exactly one `play-stream` with that description is broadcast; nothing else changes |
| Properties.ImaculadoAtFive | server.js:249-256 | at 05:00 the stream becomes Voz do Coração Imaculado with one announcement; nothing else changes |
| Properties.SaturdayMassSwitches | server.js:277-294 | Saturday 19:00 switches to Missa de Sábado and Saturday 20:30 back to the main stream, each with one announcement |
| Properties.NoMassOnOtherDays | server.js:277-294 | on any other day those minutes leave the whole state unchanged |
| Properties.IdleMinute | server.js:228-297 | a minute that no cron expression matches changes nothing |
| Properties.NoonResets | server.js:265-274 | whatever the prior state, noon clears the flag, selects the main stream and emits `stop-mensagem` then `play-stream`; pending waits and the registry are untouched |
| Properties.NightTriggerGuard | server.js:242-246 | the half-hour night trigger plays the picked message only when `isPlayingMessage` is false and the catalogue is non-empty, and otherwise changes nothing and emits nothing |
| Properties.NoonThenNightOverlapsBlock | server.js:243-267 | noon clears the flag while a block wait may still be pending, so a later night trigger plays its message while that block is unfinished |
| Properties.EmptyBlockIsNoop | server.js:185-189 | with an empty catalogue the 11:00 block returns without setting the flag or emitting anything |
| Properties.NightMessageEnds | server.js:219-224 | when the night message's wait ends, `stop-mensagem` and the current stream are broadcast |
| Properties.BlockWaitResumes | server.js:192-207 | when a block wait ends, wherever it sits among the pending waits, the next message is broadcast and a wait for it queued, or after the last message the flag is cleared and `stop-mensagem` and the current stream are broadcast; nothing else changes |
| Properties.BlockFinishesFrom | server.js:192-207 | from the wait after message i, the block plays the remaining messages and then finishes |
| Properties.BlockPlaysEveryMessage | server.js:185-208 | a block over a non-empty catalogue sets the flag, broadcasts every message in order, then clears the flag and broadcasts `stop-mensagem` and the current stream, leaving no wait of its own |
| Properties.ElevenStartsBlock | server.js:258-261 | the 11:00 tick runs exactly `playSequentialMessages`, whatever the state |
| Properties.InitInv | server.js:58-62 | the initial state satisfies the flag invariant |
| Properties.LoadedInitInv | server.js:406-407 | the state the schedule starts from, after the catalogue is loaded, satisfies the flag invariant, whatever the listing returned |
| Properties.StepKeepsInv | server.js:190-202 | every callback keeps the invariant: the flag is up only while a block wait is pending, and every block wait's index lies within the catalogue |
| Properties.StepOnlyAppends | server.js:228-297 | no callback removes an emitted event or changes the catalogue |
| Properties.ConnectDisconnect | server.js:371-382 | a connection registers the socket and sends the current stream to that socket only; its disconnection restores the registry |
| Properties.DisconnectRemovesOnlyThatId | server.js:379-382 | a disconnection removes every occurrence of the id, keeps the other ids' counts and emits nothing |
| Properties.LoadedCatalogue | server.js:156-167 | a successful listing replaces the catalogue by the mapped files and changes nothing else (`[]` for missing files); a failed one leaves the state unchanged; /health then reports the new size |
| Properties.HealthAfterNight | server.js:360-367 | after the 00:10 switch /health reports Clássica and the unchanged catalogue size |
| Server.Station.constructor | server.js:58-62 | the initial values of the globals |
| Server.Station.LoadMessagesFromGoogleDrive | server.js:147-168 | the catalogue is replaced by the mapped listing, or kept when the listing fails |
| Server.Station.SwitchStream | server.js:232-239 | sets `currentStream` and broadcasts its description |
| Server.Station.PlaySequentialMessages | server.js:185-199 | with messages: raises the flag, broadcasts message 0 and waits; without messages: changes nothing |
| Server.Station.PlayMessageEvery30Minutes | server.js:211-219 | broadcasts the picked message and waits, or does nothing without messages |
| Server.Station.NoonReturn | server.js:265-274 | the noon handler's four effects |
| Server.Station.Tick | server.js:228-297 | runs the handler whose cron expression matches the minute, with the night trigger's guard |
| Server.Station.ResumeWait | server.js:192-224 | a resolved wait, at any position among the pending ones, continues its routine: the next block message, the end of the block, or the end of the night message (`Properties.BlockWaitResumes`, `Properties.NightMessageEnds`) |
| Server.Station.RunMessageBlock | server.js:185-208 | the block's loop run to its end: no change for an empty catalogue; otherwise the flag ends false and the log gains every message's event, then `stop-mensagem` and the current stream |
| Server.Station.Connect | server.js:371-378 | appends the socket id and sends the current stream to that socket |
| Server.Station.Disconnect | server.js:379-382 | filters the socket id out of the registry |
| Server.Station.GetCurrentStream | server.js:384-389 | sends the current stream to the asking socket |
| Server.Station.Health | server.js:360-368 | the /health body: status, whether each daemon's process handle is set, catalogue size and current description |

## Left out

- The `/stream` HTTP proxy (server.js:300-357) is network I/O: its request, piping, timeouts and error statuses.
- Express, Socket.io, CORS and static serving are transport. An emit is an entry in the event log.
- Google Drive authentication and the `drive.files.list` call are calls into a foreign library. Only
  the outcome of the listing (failed, or a possibly absent `files` array) is an input. The
  `process.exit(1)` on a failed authentication is also left out.
- Starting Icecast and Nginx, the 5-second restart after they exit, the startup sleeps and the
  SIGTERM handler are process management. `/health` receives, as two
  booleans, whether each process handle has been set. The code never clears a handle, so
  "running" is also reported during the restart gap and after a failed spawn.
- Reading the template file and writing `icecast.xml` are file I/O. Only the substitution is modelled.
- Template.ReplaceAll: it does not interpret the special patterns (`$$`, `$&`, `` $` ``, `$'`) that
  JavaScript expands in a replacement string, so an environment value containing `$` is inserted literally.
- Template.IcecastSubstitutes: it is stated only for a template holding one placeholder between
  `$`-free text, with a chosen value free of `$`. A value that itself contains a later placeholder
  (`${ICECAST_HOSTNAME}` set as the source password, say) is replaced again by the later
  `.replace`; the lemma does not describe that case.
- Time itself: each 60-second wait is an explicit resume step. Any pending wait may be resumed at
  any point, which allows more orderings than the real timers give.
- The `pick` parameter, which stands for `Math.random` (server.js:213), takes any index into the catalogue.
- The unused `messageTimeout` variable (server.js:61).
- Console logging and the startup banner.
