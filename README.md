# MineCraft Bot Tool: connection orchestration, in Dafny

This is a Dafny model of the connection orchestration in `main.js`. The tool starts a fleet of Minecraft bots and connects them to a server through a bounded admission queue. Each bot retries its first connection with exponential backoff. After its first spawn it reconnects with a capped, growing delay. The fleet leaves maintenance mode once every bot has either connected or given up. A console accepts `start`, `stop`, `kick`, `restore`, `say`, `bots`, `status` and `help`.

The program is single-threaded and event-driven, so every handler runs to completion. The model follows that shape:

- `Orchestrator.Fleet` is a class. It holds the module-level state: the roster, the admission queue, the connection counter and the four flags. It also holds the timers that are still pending: bot creations of a start, and restores.
- `Orchestrator.Bot` is a class. It holds a bot wrapper together with the variables of its `createBot` closure.
- Each event handler is a method. These events are inputs: the game library's `spawn`, `connect`, `end` and `error`, a connection timeout, and the firing of a retry, creation or restore timer. The caller picks the bot and the moment. A connection timeout from an earlier attempt is never cleared, so it stays pending and can still fire.
- The policy decisions are pure functions that specify the methods:
  - `Policy.OnFailure` is one step of the first-connection retry state machine.
  - `Policy.Readiness` is the one-shot readiness check.
  - The delays come from module `Backoff`.
- The console is module `Commands`. It covers tokenising, JavaScript's `parseInt`, the `host:port` split, command parsing, and `handleCommand` with its maintenance-mode gate.

The properties proved include:

- The connection counter never exceeds 3.
- The queue is first-in, first-out and admits one bot at a time.
- Every handler except the restore timer keeps the fleet `Saturated`: if no bot waited beside a free slot before, none does after.
- A bot gets at most four first-connection retries, at 2000, 3000, 4500 and 6750 ms, and is given up at the fifth failure.
- Reconnect delays never decrease and are capped at 10000 ms.
- Readiness fires once.
- The names one start of at most 100 bots schedules are pairwise distinct. Creation timers left over from a stopped start still fire (main.js:305-325 never cancels them), so they can add a bot whose name is already in the roster.
- `stop` is idempotent.
- The maintenance gate holds.
- Several round trips hold:
  - `parseInt(String(n)) == n`;
  - `host:port` splits back into the host and the port;
  - joined words split back into the same words;
  - a written-out `start` line parses back to its parts.

The delays use floating point in the source (`Math.pow(1.5, n)`, `* 1.5`). Every value the code can reach is an integer, so the model uses exact integers: `d * 3 / 2` capped at 10000, and `2000 * 3^k / 2^k` capped. `Backoff.FirstRetryDelayIsLadder` proves the two formulas agree.

Some behaviour of `main.js` that a reader might not expect, and that the model keeps as written:

- **Retries.** A bot is given up when its retry count reaches 5 (main.js:197). So it waits out only four retry delays (2000, 3000, 4500 and 6750 ms); the fifth value of the formula, 10000 ms, is never used for a first connection (`Policy.FailureRunFromCreation`).
- **Restore.** The restore timer builds the replacement with `createBot` (main.js:416-422). `createBot` pushes it onto the admission queue, and nothing pumps the queue afterwards (see Findings).
- **Stale events.** There is no per-attempt token. A retry or reconnect timer checks only `botServiceRunning` and `manualDisconnect` when it fires (main.js:154-158, 211-215), and a connection timeout of an earlier attempt is never cleared.
- **Quit and chat before the first connection.** A bot's `quit` and `chat` are no-ops until its first connection attempt has begun (main.js:84-85).

## Model

| member | source | states |
|---|---|---|
| Backoff.FirstRetryDelay | main.js:204-207 | the delay before a first-connection retry lies between 2000 and 10000 ms |
| Backoff.NextReconnectDelay | main.js:159 | the grown reconnect delay never passes 10000 ms, and never shrinks a delay within the cap |
| Backoff.NextReconnectDelayGrows | main.js:159 | growing a delay never shrinks it, never passes 10000, and leaves 10000 at 10000 |
| Backoff.LadderBounds | main.js:153-160 | every reconnect delay a bot can hold lies between 2000 and 10000 ms |
| Backoff.LadderMonotone | main.js:148-161 | successive reconnect delays between two spawns never decrease |
| Backoff.LadderCapped | main.js:158-159 | once four reconnects have been scheduled since a spawn, the held delay is 10000 ms, so the fifth and every later reconnect waits 10000 ms |
| Backoff.FirstRetryDelayIsLadder | main.js:204-207 | the retry delay min(2000·1.5^(n−1), 10000) equals the reconnect ladder after n−1 steps |
| Backoff.FirstRetrySchedule | main.js:204-207 | first-connection retries 1 to 4 wait 2000, 3000, 4500 and 6750 ms |
| Naming.Decimal | main.js:280 | `String(n)` is one or more digits, with no leading zero for a positive number |
| Naming.PadStart | main.js:280 | `padStart` keeps the string as the suffix, fills only in front, and reaches the width unless the string is already longer |
| Naming.Pad3 | main.js:280 | the padded number is at least three characters and ends with `String(n)` |
| Naming.Username | main.js:280 | a bot's name starts with the prefix and has at least three more characters |
| Naming.DecimalShape | main.js:280 | `String(n)` is one or more digits, and at most three below 1000 |
| Naming.DecimalRoundTrip | main.js:280 | reading the digits of `String(n)` back gives `n` |
| Naming.Pad3RoundTrip | main.js:280 | the zero-padded number reads back as the number and is exactly three characters for 1..999 |
| Naming.Pad3Injective | main.js:280 | different numbers pad to different strings |
| Naming.UsernamesDistinct | main.js:280 | bots created at different indexes of one start get different names |
| Naming.FleetNames | main.js:279-281 | a start of at most 100 bots names them prefix + three digits, pairwise distinct |
| Policy.OnFailure | main.js:190-217 | a failure counts only while first-pending and not quit by hand. It gives the bot up exactly when the count reaches 5. Otherwise it schedules a retry whose delay is the ladder's and lies in 2000..10000. An ignored failure changes nothing |
| Policy.RetryBudget | main.js:194-216 | however many failures follow, a bot schedules no more retries than it has left, and is given up at most once |
| Policy.FailureRunFromCreation | main.js:194-216 | a new bot that keeps failing retries after 2000, 3000, 4500 and 6750 ms, is given up at the fifth failure, and ignores every later failure |
| Policy.IgnoredForever | main.js:194 | a settled or manually quit bot ignores every further failure |
| Policy.Readiness | main.js:229-254 | readiness fires exactly when the roster is non-empty, every bot is settled and it has not fired before. Firing clears maintenance and starting, and stops the service exactly when no bot is connected. Otherwise the flags are unchanged |
| Policy.ReadinessIdempotent | main.js:236 | a second readiness check right after the first changes nothing |
| Orchestrator.Bot.constructor | main.js:78-90 | a new bot is first-pending, offline, not quit, with no retries counted, the initial delay and no session |
| Orchestrator.Bot.Connect | main.js:92-116 | a connection attempt opens a session with a fresh timeout. The previous attempt's timeout stays pending. Nothing else changes |
| Orchestrator.Bot.ClearTimeout | main.js:119 | the current attempt's timeout is cancelled |
| Orchestrator.Bot.Spawned | main.js:118-137 | a spawn resets retries and delay, marks the bot online and connected and not quit, and reports whether it was the first spawn |
| Orchestrator.Bot.CountFailure | main.js:190-216 | a failure takes the bot offline and takes exactly one `OnFailure` step; a scheduled retry adds one pending timer |
| Orchestrator.Bot.Quit | main.js:178-181 | `quit` marks a manual disconnect once a session exists, and is a no-op before that |
| Orchestrator.Bot.Chat | main.js:183-187 | `chat` sends the message only on an online session |
| Orchestrator.Schedule | main.js:279-282 | entry i of a start is named prefix + pad3(i + 1), is the main listener exactly when i = 0, and targets the given server |
| Orchestrator.ScheduleNames | main.js:279-281 | for at most 100 bots, the scheduled names are pairwise distinct and only the first bot is the main listener |
| Orchestrator.CountSettled | main.js:232 | the number of bots past their first spawn is at most the roster size |
| Orchestrator.CountConnected | main.js:241 | the number of connected bots is at most the roster size |
| Orchestrator.OnlineNames | main.js:437-441 | the names of the online bots, at most one per bot |
| Orchestrator.OnlineNamesExact | main.js:437-441 | every online bot's name is listed, and every listed name belongs to an online bot |
| Orchestrator.AllSettledIff | main.js:232-235 | the settled count equals the roster size exactly when no bot is first-pending |
| Orchestrator.NoneConnectedIff | main.js:241-245 | the connected count is zero exactly when no bot is connected |
| Orchestrator.FindByName | main.js:390 | `find` by name returns the first bot with that name, or none when no bot has it |
| Orchestrator.IndexOf | main.js:419 | `indexOf` returns the first position of that very bot, or −1 exactly when it is absent |
| Orchestrator.Fleet.constructor | main.js:31-40 | the program starts with no bots, an empty queue, a zero counter and all flags false |
| Orchestrator.Fleet.ProcessConnectionQueue | main.js:65-72 | the queue head is admitted, and its session opened, exactly when the queue is non-empty and fewer than 3 connections are active; otherwise nothing changes. The counter stays at most 3 |
| Orchestrator.Fleet.CheckAllBotsConnected | main.js:229-254 | the flags become `Readiness` of the old flags and the roster's counts |
| Orchestrator.Fleet.ReleaseSlot | main.js:128-130 | one slot is given back, the queue is pumped once and readiness is checked |
| Orchestrator.Fleet.OnConnect | main.js:140-146 | a connect clears the current timeout and marks the bot connected |
| Orchestrator.Fleet.OnSpawn | main.js:118-138 | a first spawn settles the bot, releases exactly one slot, pumps and checks readiness. A later spawn leaves the queue, counter, flags and the waiting queue head alone. Either way the retry counters and the manual flag reset |
| Orchestrator.Fleet.OnEnd | main.js:148-161 | a reconnect is scheduled only for a spawned, not manually quit bot of a running service. It uses the current delay, then the delay grows within the cap |
| Orchestrator.Fleet.HandleConnectionFailure | main.js:190-218 | the bot takes one `OnFailure` step. Only a given-up bot releases its slot, pumps the queue and checks readiness; otherwise the queue head is untouched |
| Orchestrator.Fleet.OnError | main.js:163-169 | an error clears the current timeout, takes the bot offline and is handled as a failure; unless the bot is given up, the queue head is untouched |
| Orchestrator.Fleet.OnTimeout | main.js:111-116 | a firing timeout, current or left over, counts as a failure only while the bot is first-pending; unless the bot is given up, the queue head is untouched |
| Orchestrator.Fleet.OnRetryTimer | main.js:154-158 | a retry or reconnect timer reconnects only if the service runs and the bot was not quit; otherwise the bot, its session included, is unchanged |
| Orchestrator.Fleet.QuitAll | main.js:274 | every bot of the roster is quit and nothing else changes |
| Orchestrator.Fleet.StartBots | main.js:257-302 | a start while starting or running changes nothing. Otherwise it sets the flags to starting, running and maintenance, clears the readiness flag, empties the queue, zeroes the counter, quits and forgets the old roster, and schedules the creations |
| Orchestrator.Fleet.ScheduleBatch | main.js:278-300 | the start's creation loop schedules exactly `Schedule(prefix, count, …)`: one creation per index, in index order |
| Orchestrator.Fleet.Register | main.js:284-286 | a creation is consumed, and its fresh bot is added to the roster and counted in its batch; the queue is untouched |
| Orchestrator.Fleet.JoinAndPump | main.js:220-223 | a new bot joins the tail of the queue and the queue is pumped once: the old head, or the new bot if the queue was empty, is admitted when a slot is free, and nothing is touched when none is |
| Orchestrator.Fleet.OnCreationTimer | main.js:283-300 | a creation adds a fresh first-pending bot to the roster and the queue, and pumps; the new bot is admitted, with its connection timeout armed, exactly when the queue was empty and a slot free; with every slot taken the queue head is untouched. The starting phase ends when the batch's last bot is created |
| Orchestrator.Fleet.StopBots | main.js:305-325 | stop always leaves every flag false and the roster empty. With bots present it quits them and resets the queue and counter; a second stop changes nothing |
| Orchestrator.Fleet.Kick | main.js:383-398 | kick quits the first bot of that name and touches no other bot; an unknown name changes nothing |
| Orchestrator.Fleet.RequestRestore | main.js:400-426 | restore refuses an empty name and changes nothing for an unknown one. Otherwise it quits the first bot of that name, touches no other bot, and schedules its replacement |
| Orchestrator.Fleet.OnRestoreTimer | main.js:416-422 | as written: the replacement is fresh, keeps the name, is the main listener exactly when the name is first in the roster, takes the old bot's index if the old bot is still there, and joins the queue without a pump |
| Orchestrator.Fleet.OnRestoreTimerPumped | main.js:416-422 | the restore timer with the queue pumped: the replacement is fresh, valid, aimed at the current server and admitted, with its connection timeout armed, exactly when the queue was empty and a slot free; the old head is admitted or untouched; if no slot was idle while a bot waited, none is afterwards |
| Orchestrator.Fleet.ChatAt | main.js:437-441 | one bot of the roster chats and the fleet stays valid; every other bot is unchanged |
| Orchestrator.Fleet.SayAll | main.js:434-442 | exactly the online bots speak, in roster order, and no other bot's state changes |
| Orchestrator.Fleet.SayTo | main.js:443-454 | the message is delivered exactly when the first bot of that name exists and is online, and no other bot changes; otherwise nothing changes |
| Commands.Words | main.js:329 | splitting a line on white space yields only non-empty words without white space |
| Commands.Join | main.js:445 | joining words starts with the first word |
| Commands.ParseInt | main.js:359 | `parseInt` of an empty or all-white-space string is `NaN` |
| Commands.SplitServer | main.js:362 | the host is the text before the first colon, or the whole string when there is none; the port piece is present exactly when there is a colon, and is the text after it up to the next colon or the end |
| Commands.PortOf | main.js:370 | a missing or empty port gives 25565; a port of digits gives its decimal value |
| Commands.WordsJoin | main.js:445 | splitting words that were joined by single spaces gives the same words back |
| Commands.Lower | main.js:330 | lower-casing keeps the length and maps each character on its own |
| Commands.ParseIntDecimal | main.js:359 | `parseInt` of the decimal form of any integer, optionally followed by non-digits, is that integer |
| Commands.SplitServerRoundTrip | main.js:362-370 | a colon-free host splits to itself with the default port, and host:port splits back into host and port |
| Commands.Parse | main.js:328-481 | a blank line, `stop`, `start` with a count in 1..100, and the two forms of `say` are recognised exactly when their words say so, with the arguments in place. Each usage error (too few words for `start`, `kick`, `restore` or `say`), an out-of-range count, `kick`/`restore` with their name, `bots`, `status` and `help` are tied to their words, and `Unknown` is returned exactly for a first word that is not a command |
| Commands.StartLineRoundTrip | main.js:353-371 | a written-out `start` line parses back to its count, prefix, host and port |
| Commands.WhisperParse | main.js:443-445 | `say` with three or more words whispers the joined remaining words to the second word |
| Commands.WhisperLineRoundTrip | main.js:443-445 | `say <name> <words…>` sends the joined words to that name, and they split back into the same words |
| Commands.HandleCommand | main.js:328-483 | `stop` is always obeyed: with the service running it clears every flag, quits and forgets the roster, resets the queue and counter when there were bots, and leaves pending creations, pending restores and the server address as they were. In maintenance mode every other command is rejected and changes nothing. Outside it, every other command has exactly the effect `Effect` lists: usage errors, a bad count and unknown commands complain and change nothing, displays change nothing, and each fleet command has its full effect on the roster, queue, flags and timers |
| Commands.Dispatch | main.js:353-481 | each command other than `stop` has the effect `Effect` lists: the server address changes only on `start`, pending restores only on `restore`, errors and displays change nothing, and each fleet command answers and changes the state as its handler does |
| Commands.StartCommand | main.js:353-372 | `start` records the server address and starts a fleet exactly when none is starting or running. A refused start changes nothing else. An accepted one sets the flags to starting, running and maintenance, quits and forgets the old roster, empties the queue, zeroes the counter and schedules one creation per index of a new batch |
| Commands.KickCommand | main.js:383-398 | `kick` answers whether the name exists and quits the first bot of that name; every other bot and the fleet state are unchanged |
| Commands.RestoreCommand | main.js:400-426 | `restore` answers `EmptyName` exactly for an empty name and `NotFound` exactly for an unknown one, changing nothing in either case. Otherwise it quits the first bot of that name and appends it to the pending restores, leaving every other bot unchanged |
| Commands.BroadcastCommand | main.js:434-442 | `say <message>` answers the names of the bots that were online, every bot takes the message as `chat` would, and the fleet state is unchanged |
| Commands.WhisperCommand | main.js:443-454 | `say <name> <message>` answers whether the first bot of that name was online; if so that bot sends the message, and every other bot and the fleet state are unchanged |
| Scenarios.FirstName | main.js:280 | the first bot of prefix `bot_` is `bot_001` |
| Scenarios.StartedFleet | main.js:283-300 | a one-bot start whose creation fires admits the bot at once |
| Scenarios.SettledFleet | main.js:118-138 | once that bot spawns, the fleet settles: online, no slot in use, maintenance over |
| Scenarios.RestoreAfterSettling | main.js:416-422 | restoring in a settled one-bot fleet leaves the new bot queued with no connection active; the pumped timer admits it |

## Left out

- The game library (mineflayer): sessions, the protocol and the main listener's chat logging (main.js:100-109, 171-176) are not modelled. Its `spawn`, `connect`, `end` and `error` events are inputs to the handlers.
- Timer durations: the 100 ms creation stagger, the 1000 ms restore delay and the retry and reconnect delays are returned or recorded as values, not waited out. Which pending timer fires next is the caller's choice.
- Orchestrator.Fleet.OnCreationTimer: lets any pending creation fire, whereas the source fires one start's creations in index order.
- Console I/O: the `log` formatting and colours, readline, and `process.exit` (modelled as the reply `Exited`) are left out. So is the text printed by `bots`, `status` and `help` (modelled as the reply `Displayed`).
- Command-line startup (main.js:7-19, 486-511) is left out: it is a parsing-library wrapper, and the `num` option is passed on as a string.
- Exceptions: an exception from `createBot` (main.js:296-299), and the swallowed exception when quitting a replaced session (main.js:93-98), are not modelled.
- Commands.Lower and Commands.IsSpace: only ASCII is handled. JavaScript's `toLowerCase` and `\s` also cover other Unicode letters and spaces.
- Commands.ParseInt: uses exact integers, so the precision loss of very long digit strings is not modelled.
- Orchestrator.Fleet.Valid: only bounds the connection counter above. It does not tie the counter to the bots actually connecting. As in the source, events of bots from a stopped fleet still reach the handlers, so a late first spawn of such a bot releases a slot of the current fleet.
- Orchestrator.Bot.Spawned: clears the manual-disconnect flag before the fleet-level steps of a first spawn rather than after them. Those steps never read the flag.
- Orchestrator.Fleet.OnCreationTimer: appends the new bot to the roster before it joins the queue, where the source pushes to the queue first. Neither step reads the other's state.

## Findings

| source | as written | input that shows it | evidently intended | confidence | as-written member | corrected member |
|---|---|---|---|---|---|---|
| main.js:416-422 | The restore timer creates the replacement with `createBot`, which only pushes it onto the admission queue. Nothing calls `processConnectionQueue` after that. | Start one bot and let it spawn: the fleet settles with no connection active. Then `restore bot_001`: the new bot waits in the queue with every slot free, and no later event of a settled fleet pumps the queue. | The replacement connects: the queue is pumped after the push, as a creation does at main.js:289. | medium (not executed) | Orchestrator.Fleet.OnRestoreTimer | Orchestrator.Fleet.OnRestoreTimerPumped |

`Scenarios.RestoreAfterSettling` calls both timer methods on that input; its postcondition states the outcome of each. With the as-written timer it ends with one bot queued, no connection active, and the fleet not `Saturated`. With the pumped timer the bot is admitted and the fleet is `Saturated`.
