# Minecraft Bedrock chat logger — a Dafny model

`mc-bedrock-chatlog.js` is a bot that joins a Bedrock server, listens to its
`text` and `kick` packets, and writes a human-readable activity log into one
file per day. This project models its core and proves what it promises:

- **Translation** (`Translation.dfy`): the five `text` packet handlers
  (`processChat`, `processAnnouncements`, `processConnections`,
  `processPlayerActions`, `processDeaths`), each as a function giving the
  lines it logs, and `Lines`, their concatenation in the order the `text`
  handler calls them. The death reason is the source's chain of 27
  `if (message === key) deathReason = ...` tests (`ReassignChain` over
  `DEATH_PHRASES`) and, equivalently, a lookup in the same table with the raw
  key as fallback (`DeathReason`). `Translate` is an independent classifier
  (chat, announcement, left, joined, skipping night, death, ignored); the
  five handlers, run one after another, log exactly its line, so a packet
  never logs more than one line.
- **LogWriter** (`LogWriter.dfy`): `AllocateLogStream` and `log`. The
  module-level `lastLogDate`, `logFile` and `logStream` become the fields of
  the class `RollingLog`, together with the file system (a map from path to
  the lines appended to it), the streams opened and ended so far, and the
  console. `LogState`, `Allocate` and `Write` state the same behaviour on
  values, and the lemmas about them prove one file per date stamp, no reopen
  on the same day, rotation on a date change, and no line lost, duplicated or
  reordered over any sequence of `log` calls, as the files stand once every
  stream has flushed.
- **Session** (`Session.dfy`): the `kick` handler's mapping from the three
  known kick messages to their narratives, and the class `Bot`, whose
  `OnText` and `OnKick` run the handlers against a `RollingLog`. Every kick
  schedules a reconnect after 5000 ms, recorded in `reconnects`.

The clock is an input: every operation that writes takes the UTC date stamp
(`toISOString().slice(0, 10)`) and the local time string
(`toLocaleTimeString()`) as parameters. Strings are Dafny strings; the `§`
in the join and leave keys is the character U+00A7.

Behaviour of the code worth stating explicitly:

- A death caused by an entity appends the raw second parameter: `death.attack.mob`
  with `["Bob", "%entity.zombie.name"]` logs
  `* [Bob] was killed caused by [%entity.zombie.name].` (`MobExample`); the
  `%entity.` prefix and `.name` suffix are not stripped.
- A translation key outside the join, leave, skipping-night and `death.`
  families produces no line; there is no catch-all that logs the raw key
  (`UnknownTranslationIgnored`).
- The log file is `<logFolder>/<prefix><date>.log` with the date in UTC; the
  folder is not created by this file.
- The reconnect is unconditional after a fixed 5000 ms; there is no retry
  toggle, interval option, phase check or stale-timer guard.

## Model

| member | source | states |
|---|---|---|
| `Translation.DispatchIsTranslate` | mc-bedrock-chatlog.js:132-140 | the five handlers, all run on every packet in source order, log exactly the classifier's line: their guards are mutually exclusive |
| `Translation.AtMostOneLine` | mc-bedrock-chatlog.js:132-140 | every text packet produces at most one line |
| `Translation.ProducesLineIff` | mc-bedrock-chatlog.js:210-270 | a packet produces a line if and only if it is chat, an announcement, or a translation whose key is the leave, join or skipping-night key or starts with `death.` |
| `Translation.ExactKeysAreNotDeaths` | mc-bedrock-chatlog.js:236-270 | none of the three exact translation keys starts with `death.`, so the death handler never fires beside them |
| `Translation.ChatPacket` | mc-bedrock-chatlog.js:210-218 | a `chat` packet logs exactly `[speaker] message` |
| `Translation.AnnouncementPacket` | mc-bedrock-chatlog.js:220-227 | an `announcement` packet logs its message verbatim and nothing else |
| `Translation.ConnectionPackets` | mc-bedrock-chatlog.js:229-247 | the `§e%multiplayer.player.joined` / `.left` keys log `* [player] joined the game.` / `left the game.` with the first parameter |
| `Translation.ConnectionPacketsWithoutPlayer` | mc-bedrock-chatlog.js:239-245 | with no parameters the join and leave lines name the player `undefined` |
| `Translation.SkippingNightPacket` | mc-bedrock-chatlog.js:249-261 | the skipping-night key logs the fixed line `* Players are skipping the night.` |
| `Translation.OtherTypesIgnored` | mc-bedrock-chatlog.js:210-268 | a packet of any type other than chat, announcement and translation logs nothing |
| `Translation.UnknownTranslationIgnored` | mc-bedrock-chatlog.js:229-270 | a translation key in none of the families logs nothing |
| `Translation.Translate` | mc-bedrock-chatlog.js:132-140 | the classifier yields no line exactly for ignored packets |
| `Translation.ChainUnlisted` | mc-bedrock-chatlog.js:279-413 | the reassignment chain leaves the reason unchanged for a key it does not list |
| `Translation.ChainListed` | mc-bedrock-chatlog.js:279-413 | over distinct keys, the reassignment chain ends with the phrase of the key's one entry |
| `Translation.DeathKeysDistinct` | mc-bedrock-chatlog.js:280-413 | no death key is tested twice, so the table is a function |
| `Translation.DeathReasonListed` | mc-bedrock-chatlog.js:280-413 | each listed death key gets exactly its own phrase |
| `Translation.DeathReasonFallback` | mc-bedrock-chatlog.js:279 | an unlisted death key falls back to the raw key |
| `Translation.DeathReasonIsChain` | mc-bedrock-chatlog.js:279-413 | the source's chain of reassignments, started from the raw key, computes exactly the table lookup with raw-key fallback |
| `Translation.DeathReasonLookup` | mc-bedrock-chatlog.js:279-413 | for every key, the reason is the phrase of its table entry if listed and the raw key otherwise |
| `Translation.LavaPhrase` | mc-bedrock-chatlog.js:410-413 | `death.attack.lava` reads `was burnt to a crisp whilst fighting` |
| `Translation.DrownPhrase` | mc-bedrock-chatlog.js:345-348 | `death.attack.drown` reads `drowned` |
| `Translation.MagicAndPotionAgree` | mc-bedrock-chatlog.js:320-403 | `death.attack.magic` and `death.attack.potion` both read `was killed by magic` |
| `Translation.DeathPacket` | mc-bedrock-chatlog.js:263-421 | any translation whose key starts with `death.` logs exactly one line, `* [player] reason<suffix>.`; no death is dropped |
| `Translation.DeathCause` | mc-bedrock-chatlog.js:277-420 | with two or more parameters the reason is followed by ` caused by [<second parameter>]` verbatim; with one there is no suffix; with none the player reads `null` |
| `Translation.DeathLineShape` | mc-bedrock-chatlog.js:420 | a death line ends in `.` and starts with `* [<player>] ` |
| `Translation.ChatExample` | mc-bedrock-chatlog.js:216 | Alice's chat `Hello` logs `[Alice] Hello` |
| `Translation.LavaExample` | mc-bedrock-chatlog.js:410-420 | Bob dying in lava logs `* [Bob] was burnt to a crisp whilst fighting.` |
| `Translation.MobExample` | mc-bedrock-chatlog.js:285-420 | Bob killed by `%entity.zombie.name` logs `* [Bob] was killed caused by [%entity.zombie.name].` |
| `LogWriter.Initial` | mc-bedrock-chatlog.js:171-173 | at start-up the date, file and stream are all unset, no stream has been opened or ended, folder and prefix are the given ones, the invariant holds and the disk is untouched |
| `LogWriter.Allocate` | mc-bedrock-chatlog.js:187-198 | afterwards the last date is today's and the log file is today's; nothing changes if and only if the last date already was today's; otherwise the open stream is ended, one stream is opened on `<folder>/<prefix><date>.log`, which holds its earlier contents or is created empty, and no file loses contents; folder and prefix never change |
| `LogWriter.Write` | mc-bedrock-chatlog.js:175-180 | `log` leaves the stream on today's stamp, appends `(<time>) <message>\n` to that file, which exists afterwards, and leaves every other file as it was |
| `LogWriter.WriteAll` | mc-bedrock-chatlog.js:175-198 | any sequence of `log` calls keeps the writer's invariant and its folder and prefix; after at least one call, the one open stream is on the file of the last call's date stamp |
| `LogWriter.LogFileNameInjective` | mc-bedrock-chatlog.js:196 | distinct date stamps name distinct log files |
| `LogWriter.AllocateIdempotent` | mc-bedrock-chatlog.js:189-192 | allocating twice on the same stamp is allocating once |
| `LogWriter.SameDayAppends` | mc-bedrock-chatlog.js:175-198 | two writes on one date stamp open and end nothing the second time, and the day's file holds both lines in order |
| `LogWriter.Rotation` | mc-bedrock-chatlog.js:187-198 | a date change ends the old day's stream, opens the new day's file, and leaves the old day's file with its last line |
| `LogWriter.WriteAppends` | mc-bedrock-chatlog.js:175-180 | on the file system, one `log` call is exactly one append of its file line to the file of its date stamp, creating that file when absent |
| `LogWriter.WriteAllAppends` | mc-bedrock-chatlog.js:175-198 | on the file system, any sequence of `log` calls is exactly the sequence of those appends, whatever reopening happens between them |
| `LogWriter.FilesAfterByDay` | mc-bedrock-chatlog.js:175-198 | the appends give each day's file its earlier contents followed by exactly the lines of that day, in order, and create it exactly when it gets a line |
| `LogWriter.DailyFiles` | mc-bedrock-chatlog.js:175-198 | after any sequence of `log` calls each day's file holds its earlier contents followed by exactly that day's lines in call order, and exists exactly when it existed or received a line |
| `LogWriter.FileLineShape` | mc-bedrock-chatlog.js:179 | each file line is `(`, the time, `) `, the message and a newline |
| `LogWriter.RollingLog.constructor` | mc-bedrock-chatlog.js:171-173 | the writer starts with no date, no file and no stream, over the existing disk |
| `LogWriter.RollingLog.AllocateLogStream` | mc-bedrock-chatlog.js:187-198 | updates the fields in place exactly as `Allocate` says and prints nothing |
| `LogWriter.RollingLog.Log` | mc-bedrock-chatlog.js:175-180 | updates the fields as `Write` says and prints `(<time>) <message>` on the console |
| `Session.KickLinesAreNarrative` | mc-bedrock-chatlog.js:143-158 | the three kick tests are exclusive: the handler logs the narrative, if any, and nothing else |
| `Session.KickNarratedIff` | mc-bedrock-chatlog.js:143-158 | a kick is narrated if and only if its message is `%disconnect.kicked`, `%disconnect.timeout` or `disconnectionScreen.serverIdConflict`, and never twice |
| `Session.KickLineShape` | mc-bedrock-chatlog.js:147-157 | a kick line starts with `Bot [<username>] ` and ends with `(<raw message>)` |
| `Session.KickNarrativeShape` | mc-bedrock-chatlog.js:145-158 | every narrative embeds the bot's username and the raw kick message |
| `Session.KickNarrativesDistinct` | mc-bedrock-chatlog.js:145-158 | the three known kick messages give three different narratives |
| `Session.Bot.constructor` | mc-bedrock-chatlog.js:117-131 | the bot starts with its username, a fresh writer over the existing disk and no reconnects scheduled |
| `Session.Bot.OnText` | mc-bedrock-chatlog.js:132-140 | the text handler logs the packet's one translated line, if any, at this instant, and changes nothing otherwise |
| `Session.Bot.OnKick` | mc-bedrock-chatlog.js:143-161 | the kick handler logs the narrative of a known message, nothing for any other, and always schedules one reconnect after 5000 ms |

## Left out

- Dependency probing and `process.exit` at start-up: process control.
- Command-line parsing and its defaults: the username, log folder and prefix
  are constructor parameters; the host and port, used only to create the
  protocol client, are not used by anything modelled.
- Creating the protocol client, wiring its events, `client?.close()` and the
  timer that calls `Connect` again: network I/O and timers. A kick's reconnect
  request is recorded as its delay in `Bot.reconnects`.
- The `error` handler and the raw-packet handler, which write `JSON.stringify`
  of a packet to the log without a timestamp: serialisation belongs to the
  JavaScript runtime. (The raw-packet handler is attached once, to the first
  client only.)
- Write errors of the stream, including a missing log folder: the file system
  is a map that always accepts an append.
- Stream buffering: `files` is what each file holds once every stream has
  flushed. `write` and `end` are buffered and asynchronous in the source, so
  lines still buffered when the process dies are lost, and when the date stamp
  goes back to an earlier day a file can be reopened while its old stream is
  still flushing; neither that loss nor the interleaving of two streams on one
  file is modelled.
- The clock: `RollingLog.AllocateLogStream` takes one date stamp where the
  source reads the clock twice (once to compare, once to assign), and
  `RollingLog.Log` takes one time string where the source reads the clock once
  for the console and once for the file.
- `Translation.Packet`: fields the handlers never read (`needs_translation`,
  `xuid`, `platform_chat_id`, `filtered_message`) are not modelled,
  `parameters` is always a sequence and `message` is always a string; a
  translation packet without `parameters`, or one without `message` (on which
  the `startsWith('death.')` test of the death handler would throw), is not
  modelled.
