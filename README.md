# Camera bot: verified model of its sequential core

The repository is a small camera service. A Telegram bot answers `/photo` with
a frame from the camera. `/getvideo` opens an ngrok tunnel to a web page that
streams frames over a web socket, and `/stopvideo` closes that tunnel. Most of
the program is glue around libraries. This project models the three pieces of
self-contained logic inside that glue and proves their properties in Dafny:

- **Configuration builder** (`core.dfy`, module `Core`): `init_config_by_env`
  turns key/value pairs into the `Variables` record. It builds a last-wins map,
  requires five keys, and falls back to defaults for the optional ones. It
  parses numbers into fixed-width integers and fills in constant fields. Each
  `expect`/`unwrap` panic is a `Failure` carrying a `ConfigError`. The map loop
  and the allow-list loop are methods with loop invariants.
  `decimal.dfy` (module `Decimal`) models Rust's `str::parse` for integer
  types and `Display` for `i64`, which the builder and the bot rely on.
- **Tunnel state machine** (`telegram_bot.dfy`, module `TelegramBot`): the
  `/photo`, `/getvideo` and `/stopvideo` arms of `command_handler`, the
  non-command filter, and the admin's report of an invalid command.
  - The shared flag `is_ngrok_started` and the shutdown slot `ngrok_shutdown_tx`
    are fields of the class `Bot`. Its handler methods update them in place.
  - Telegram sends, tunnel spawns and shutdown signals are recorded as `Effect`s
    in the `outbox` field.
  - Each handler is proved equal to a pure reaction function
    (`GetVideoReaction`, ...). The properties are proved about those functions
    and about `Drive`, which runs a sequence of tunnel commands.
- **Web-socket send loop** (`ws_server.dfy`, module `WsServer`): the counters
  and the retry rule of `websocket_handler`, and the `ws_path` format.
  - The loop is a method whose invariant ties its variables to the fold
    `SessionAfter`.
  - Lemmas relate that fold to independent counts of frames, bytes, failures
    and delivered payloads.

`wrappers.dfy` holds the `Option` and `Result` types.

Inputs the program gets from outside are parameters of the model:
- the value a non-blocking `try_recv` returned (`pending`);
- the messages a blocking `recv` returned before its first error (`inbox`);
- whether a socket send succeeds (`sendOk`);
- whether a tunnel task is still alive when it is signalled (`receiverAlive`);
- the sender of a freshly spawned tunnel (`tx`).

A panic inside a handler is modelled as the end of the run (`Outcome.Panicked`,
`Run.panicked`): the program installs a panic hook at start-up (`src/main.rs`),
and a panic is taken to stop the service.

## Model

| member | source | states |
|---|---|---|
| Core.DeliveryPolicyOf | src/core.rs:14-16 | every worker message, frame or terminate, is delivered with the `Latest` policy |
| Core.CollectEnv | src/core.rs:49-52 | the insert loop leaves exactly the map `EnvMap` of the pairs, whose keys are exactly the keys that occur in the pairs |
| Core.EnvMapLastWins | src/core.rs:49-52 | a key that occurs several times maps to the value of its last pair |
| Core.LastDomainPairWins | src/core.rs:49-52 | the record's tunnel domain is the value of the last `NGROK_DOMAIN` pair |
| Core.Split | src/core.rs:62 | `split(',')` yields at least one piece, exactly one iff the text has no comma, and no piece contains a comma |
| Core.SplitJoin | src/core.rs:62 | `split(',')` keeps every character: the pieces joined with commas give back the text |
| Core.ParseAllowedIds | src/core.rs:62 | the allow-list text parses iff every comma-separated piece parses as `i64`; the values are those pieces' values in order; a failure names one bad piece and its parse error |
| Core.EmptyAllowedEntryFails | src/core.rs:62 | an empty allow-list text, or one ending in a comma, has an empty piece and cannot parse |
| Core.InitConfigByEnv | src/core.rs:48-93 | the build succeeds iff all five required keys are present and the admin id, allow-list entries, width, height and device index parse into their types; a failure names a missing required key or an unparsable text of a numeric key; a success holds the parsed numbers, the looked-up strings, the defaults and the constant fields |
| Core.DefaultsWhenAbsent | src/core.rs:68-72 | with no pair for them, width is 640, height 480, device index 0 and server address "localhost:8080" |
| Core.MissingRequiredKeyFails | src/core.rs:54-61 | a required key that no pair carries makes the build fail |
| Core.AllowListTextIgnored | src/core.rs:62-63 | environments that differ only in the allow-list text give the same record, whose allow-list is `[admin_user_id, 427348891]` |
| Decimal.ParseInt | src/core.rs:57-58 | a successful parse is in the type's range and is the value of a well-formed text (an optional sign, `-` only for signed types, then digits); an empty text is the `Empty` error |
| Decimal.ParseIntCharacterised | src/core.rs:68-72 | parsing succeeds iff the text is well formed and its value is in range; a too large value is `PosOverflow`, a too small one `NegOverflow` |
| Decimal.Dec | src/workers/telegram_bot.rs:298-300 | `{}` on the chat id prints a well-formed decimal text that denotes the id, with a `-` exactly when it is negative, never a `+`, and no leading zeros ("0" for zero) |
| Decimal.DecRoundTrip | src/workers/telegram_bot.rs:298-300 | the decimal text of an in-range integer parses back to that integer |
| WsServer.WsPath | src/workers/ws_server.rs:38 | the path is "wss://", the domain, then "/ws", and the domain can be read back from it |
| WsServer.WsPathInjective | src/workers/ws_server.rs:38 | different domains give different socket paths |
| WsServer.ServerStateOf | src/workers/ws_server.rs:37-39 | the server state's socket path is `WsPath` of the configured domain: "wss://", the domain, then "/ws" |
| WsServer.SessionAfter | src/workers/ws_server.rs:89-96 | the failure counter never exceeds 6, and no more payloads are delivered than frames received |
| WsServer.SessionBeforeSeventhFailure | src/workers/ws_server.rs:73-96 | up to six failed sends, the loop has counted every frame and the sum of their lengths; `attempts` is the number of failed sends so far, not reset by a success; exactly the successfully sent payloads reached the socket, in order and once each |
| WsServer.SessionEndsAtSeventhFailure | src/workers/ws_server.rs:91-93 | the seventh failed send ends the session, with that frame counted and the failure counter at 6 |
| WsServer.GivingUpIsFinal | src/workers/ws_server.rs:91-93 | once the loop has given up, later messages change nothing |
| WsServer.SessionOutcomeAtSeventhFailure | src/workers/ws_server.rs:73-96 | whatever follows it, the session's counters are those of the messages up to and including the seventh failed send |
| WsServer.WebsocketHandler | src/workers/ws_server.rs:65-102 | the loop's counters equal the fold over what it received and over the whole inbox; it stops early only by giving up, and only right after a failed send |
| TelegramBot.ShouldNotifyAdmin | src/workers/telegram_bot.rs:309-313 | admins are always notified |
| TelegramBot.AsI64 | src/workers/telegram_bot.rs:182 | the cast keeps the value modulo 2^64 and keeps every id up to `i64::MAX` unchanged |
| TelegramBot.IsNonCommand | src/workers/telegram_bot.rs:129 | a message passes the non-command filter iff it is not the case that it has text starting with '/' |
| TelegramBot.RouteOf | src/workers/telegram_bot.rs:126-131 | a parsed command goes to the command handler; otherwise a message goes to the invalid-command handler iff it has no text or its text does not start with '/' |
| TelegramBot.CommandTextsAreNeverInvalid | src/workers/telegram_bot.rs:100-111 | the text of every command starts with '/', so it never reaches the invalid-command handler |
| TelegramBot.GetVideoReaction | src/workers/telegram_bot.rs:202-248 | always replies with the stream URL and never signals; with the flag set, nothing changes, no tunnel is spawned and the last reply is "already started"; with it clear, the flag is set, the new sender is stored and exactly one tunnel is spawned with the configured token, domain and address; consistency of flag and slot is kept |
| TelegramBot.StopVideoReaction | src/workers/telegram_bot.rs:249-281 | with an empty slot nothing changes and the last reply is "not running"; with a live handle the state becomes idle, exactly that handle is signalled once and the last reply is "stopped"; with an ended tunnel the handler panics, leaving the flag as it was and the slot empty |
| TelegramBot.StopVideoRecovering | src/workers/telegram_bot.rs:267-280 | the corrected stop never panics, always leaves the state idle when a handle was stored, and agrees with the handler whenever the tunnel is alive |
| TelegramBot.PhotoReaction | src/workers/telegram_bot.rs:162-201 | the tunnel state is untouched; it panics iff the message has no sender; a sender not on the allow-list gets the refusal; an allowed one gets the pending frame as a photo, or the failure reply when none is pending |
| TelegramBot.HandleCommand | src/workers/telegram_bot.rs:157-282 | `/help` sends only the command list and changes nothing; only `/getvideo` spawns and only `/stopvideo` signals, each at most once; a handler panics iff it is `/photo` without a sender or `/stopvideo` on an ended tunnel; `/help` and `/photo` leave the tunnel state alone; flag and slot stay in step unless a stop hits an ended tunnel |
| TelegramBot.TunnelCommandsIgnoreAllowList | src/workers/telegram_bot.rs:202-281 | `/getvideo` and `/stopvideo` react the same whatever the allow-list holds |
| TelegramBot.AdminInvalidCommandText | src/workers/telegram_bot.rs:298-303 | the report starts with the fixed header and ends with the message text, or "No text" when there is none |
| TelegramBot.AdminInvalidCommandTextNamesChat | src/workers/telegram_bot.rs:296-307 | the admin's report starts with the fixed header, its id field is exactly the `{}` text of the chat id (`Dec`) and parses back to it, then come ", Username: ", the chat's username or nothing, ", Command: ", and it ends with the message text or "No text" |
| TelegramBot.InvalidCommandEffects | src/workers/telegram_bot.rs:286-307 | exactly two effects: the fixed reply to the chat, then the rendered report to the admin; no tunnel is spawned or signalled |
| TelegramBot.LiveRunKeepsConsistent | src/workers/telegram_bot.rs:202-281 | while tunnels stay alive, any run of tunnel commands keeps flag and slot in step, never panics, and spawns minus signals equals the change of the flag |
| TelegramBot.RecoveringRunKeepsConsistent | src/workers/telegram_bot.rs:267-280 | with the corrected stop, flag and slot stay in step and nothing panics, whatever happens to the tunnels |
| TelegramBot.RecoveringStopAllowsRestart | src/workers/telegram_bot.rs:238-247 | after a corrected stop the next `/getvideo` always spawns a tunnel |
| TelegramBot.EndedTunnelStopPanics | src/workers/telegram_bot.rs:270-271 | `/getvideo` then `/stopvideo` on an ended tunnel panics and leaves the flag set with an empty slot |
| TelegramBot.LeftoverStateNeverRestarts | src/workers/telegram_bot.rs:229-236 | from that state no run of tunnel commands ever spawns or signals a tunnel again |
| TelegramBot.StartTwiceSpawnsOnce | src/workers/telegram_bot.rs:229-247 | two `/getvideo` from idle spawn one tunnel, and the second reports "already started" |
| TelegramBot.StartStopStopReturnsToIdle | src/workers/telegram_bot.rs:238-280 | `/getvideo`, `/stopvideo`, `/stopvideo` from idle end idle with one signal, and the second stop reports "not running" |
| TelegramBot.Bot.constructor | src/core.rs:88-89 | the bot starts from the record's flag and slot with nothing sent |
| TelegramBot.Bot.NotifyAdminOfCommand | src/workers/telegram_bot.rs:206-217 | one notice to the admin when the message has a sender, nothing otherwise |
| TelegramBot.Bot.GetVideo | src/workers/telegram_bot.rs:202-248 | the new flag, slot and sent effects are those of `GetVideoReaction` on the old state |
| TelegramBot.Bot.StopVideo | src/workers/telegram_bot.rs:249-281 | the new flag, slot and sent effects are those of `StopVideoReaction` on the old state |
| TelegramBot.Bot.Photo | src/workers/telegram_bot.rs:162-201 | the sent effects are those of `PhotoReaction`; the tunnel state is not touched |
| TelegramBot.Bot.CommandHandler | src/workers/telegram_bot.rs:146-284 | the new flag, slot, sent effects and outcome are those of `HandleCommand` on the old state |
| TelegramBot.Bot.InvalidCommandHandler | src/workers/telegram_bot.rs:286-307 | sends the fixed reply to the chat, then the rendered report to the admin |

## Left out

- Hub internals (register, send, `recv`, `try_recv`, the `Latest` overwrite): they belong to the roboplc library, which is not part of this model. Their results are inputs.
- Concurrency: races between simultaneous `/getvideo` and `/stopvideo` on the separately locked flag and slot, the `tokio::select!` between tunnel close and shutdown, and the mutex around the hub client shared by socket sessions. Handlers are modelled as running one at a time.
- Network and chat I/O: Telegram calls and their errors (`?` and `expect` on a send), dispatcher setup, the connectivity check, the ngrok session, the axum server and the HTML page. Sends are recorded effects that always succeed.
- The tunnel task itself (`run_ngrok`): a spawn is the `SpawnTunnel` effect, and a task that ended on its own is the `receiverAlive` input.
- The hub registration `unwrap` at the top of `command_handler`: it fails only inside the hub.
- The text of the admin notices for `/photo`, `/getvideo` and `/stopvideo` uses Rust's `Debug` formatting of library types; they are recorded as structured `NotifyAdmin` effects instead. The `/help` command list is the `SendHelp` effect.
- The floating-point statistics every 120 frames and the one-second sleep after a failed send.
- WsServer.WebsocketHandler: the counters are unbounded integers; the source's `frame_count` is an `i32` and `total_bytes` a `usize`, whose overflow after billions of frames is not modelled.
- Core.InitConfigByEnv: when several keys are wrong, the contract does not say which error is reported; the method reports them in the source's order.
- The camera capture loop, the rvideo wrapper, worker wiring and signal handling in `src/main.rs`, and module declarations.
- WsServer.WebsocketHandler: the failure counter is never reset by a successful send; the loop gives up at the seventh failed send of the session, not after a run of consecutive failures, and the model states exactly that.

## Findings

| source | as written | input that shows it | evidently intended | confidence | as-written member | corrected member |
|---|---|---|---|---|---|---|
| src/workers/telegram_bot.rs:267-280 | `/stopvideo` takes the sender out of the slot and then `expect`s the signal to succeed. When the tunnel task has already ended on its own, the signal fails and the handler panics. With the panic hook installed in `src/main.rs` this ends the whole service. The slot is left empty with the flag still set; were the panic contained to the handler, every later `/getvideo` would say "already started" and every `/stopvideo` "not running", so the stream could never be restarted. | from idle: `/getvideo`, the tunnel closes by itself, then `/stopvideo` | treat a failed signal as a tunnel that is already gone: clear the flag, reply "stopped", keep the service running | high for the panic; not executed | TelegramBot.EndedTunnelStopPanics, TelegramBot.LeftoverStateNeverRestarts | TelegramBot.StopVideoRecovering, TelegramBot.RecoveringRunKeepsConsistent, TelegramBot.RecoveringStopAllowsRestart |

The class `TelegramBot.Bot` keeps the behaviour as written. `Drive` with `recovering = true` runs the corrected stop.
