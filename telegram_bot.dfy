/**
 * The chat bot's command handling: the `/photo` authorisation decision, the
 * `/getvideo` and `/stopvideo` tunnel switch, the routing of messages that are
 * not commands, and the admin notices. Chat sends, tunnel spawning and the
 * shutdown signal are recorded as effects rather than performed.
 */
module TelegramBot {
  import opened Wrappers
  import opened Core
  import Decimal

  const U64_MAX := 0xFFFF_FFFF_FFFF_FFFF
  type U64 = x: int | 0 <= x <= U64_MAX

  /** The sender of a chat message. */
  datatype User = User(id: U64, username: Option<string>)

  /** A chat message: its chat, the chat's username, its sender (absent in channels) and its text. */
  datatype Message = Message(chatId: I64, chatUsername: Option<string>, from: Option<User>, text: Option<string>)

  datatype Command = Help | Photo | GetVideo | StopVideo

  /** What a handler does to the outside world, in order. */
  datatype Effect =
    | SendMessage(chat: I64, text: string)
      /** The command list, rendered by the chat library. */
    | SendHelp(chat: I64)
    | SendPhoto(chat: I64, photo: seq<U8>)
      /** "Received <command> command from chat id: ..." to the admin, rendered with Rust's `Debug`. */
    | NotifyAdmin(admin: I64, command: string, user: User)
      /** `run_ngrok`: a tunnel task forwarding to `forwardTo`, stoppable through `tx`. */
    | SpawnTunnel(authToken: string, domain: string, forwardTo: string, tx: ShutdownSender)
    | SignalShutdown(tx: ShutdownSender)

  /** How a handler ends: normally, or by a panic (`unwrap`/`expect` on a failure). */
  datatype Outcome = Done | Panicked(reason: string)

  /** The two pieces of shared state the tunnel commands use: the started flag and the shutdown slot. */
  datatype Tunnel = Tunnel(started: bool, shutdownTx: Option<ShutdownSender>)

  /** A handler's new tunnel state, its effects and how it ended. */
  datatype Reaction = Reaction(next: Tunnel, effects: seq<Effect>, outcome: Outcome)

  const IDLE := Tunnel(false, None)

  const ALREADY_STARTED := "Ngrok is already started."
  const NOT_RUNNING := "Video stream is not running."
  const STOPPED := "Video stream stopped."
  const PHOTO_FAILED := "Failed to capture photo. Please try again later."
  const NOT_ALLOWED := "You are not allowed to use this command."
  const INVALID_COMMAND_REPLY :=
    "You entered an invalid command. Please use /photo to request a photo or /getvideo to get a video stream URL."
  const INVALID_COMMAND_HEADER := "Invalid command received. User ID: "
  const UNWRAP_NONE := "called `Option::unwrap()` on a `None` value"
  const SHUTDOWN_SEND_FAILED := "Failed to send shutdown signal to ngrok."

  /** The flag and the slot agree: a handle is stored exactly while the tunnel counts as started. */
  predicate Consistent(t: Tunnel) {
    t.started <==> t.shutdownTx.Some?
  }

  /** Whether bot activity is reported to the admin; not yet configurable, so always. */
  function ShouldNotifyAdmin(): (notify: bool)
    ensures notify
  {
    true
  }

  /** `id as i64` on a `u64`: the same 64 bits read as a two's-complement number. */
  function AsI64(id: U64): (r: I64)
    ensures (r - id) % 0x1_0000_0000_0000_0000 == 0
    ensures id <= I64_MAX ==> r == id
  {
    if id <= I64_MAX then id else id - 0x1_0000_0000_0000_0000
  }

  /** The text that invokes a command (commands are renamed to lower case). */
  function CommandText(c: Command): string {
    match c
    case Help => "/help"
    case Photo => "/photo"
    case GetVideo => "/getvideo"
    case StopVideo => "/stopvideo"
  }

  /** The filter in front of the invalid-command handler: no text, or text not starting with '/'. */
  function IsNonCommand(text: Option<string>): (nonCommand: bool)
    ensures !nonCommand <==> text.Some? && "/" <= text.value
  {
    !(text.Some? && |text.value| > 0 && text.value[0] == '/')
  }

  datatype Route = ToCommandHandler(cmd: Command) | ToInvalidCommandHandler | Unhandled

  /**
   * The dispatcher's two branches, tried in order: a text the chat library
   * parses as a command (`parsed`), then the non-command filter.
   */
  function RouteOf(text: Option<string>, parsed: Option<Command>): (r: Route)
    ensures parsed.Some? ==> r == ToCommandHandler(parsed.value)
    ensures parsed.None? ==> (r == ToInvalidCommandHandler <==> text.None? || text.value == [] || text.value[0] != '/')
  {
    if parsed.Some? then ToCommandHandler(parsed.value)
    else if IsNonCommand(text) then ToInvalidCommandHandler
    else Unhandled
  }

  /** No command's own text ever reaches the invalid-command handler, parsed or not. */
  lemma CommandTextsAreNeverInvalid(c: Command, parsed: Option<Command>)
    ensures RouteOf(Some(CommandText(c)), parsed) != ToInvalidCommandHandler
  {
  }

  /** The admin notice a tunnel or photo command sends, if it has a sender. */
  function AdminNotice(vars: Variables, command: string, msg: Message): seq<Effect> {
    if ShouldNotifyAdmin() && msg.from.Some? then [NotifyAdmin(vars.telegramConfig.adminUserId, command, msg.from.value)]
    else []
  }

  /** The reply `/getvideo` always sends. */
  function VideoUrlText(domain: string): string {
    "Video stream URL: https://" + domain + "/"
  }

  /** Number of tunnels spawned in `es`. */
  function Spawns(es: seq<Effect>): nat {
    if es == [] then 0 else (if es[0].SpawnTunnel? then 1 else 0) + Spawns(es[1..])
  }

  /** Number of shutdown signals sent in `es`. */
  function Signals(es: seq<Effect>): nat {
    if es == [] then 0 else (if es[0].SignalShutdown? then 1 else 0) + Signals(es[1..])
  }

  lemma {:induction false} CountsAppend(a: seq<Effect>, b: seq<Effect>)
    ensures Spawns(a + b) == Spawns(a) + Spawns(b)
    ensures Signals(a + b) == Signals(a) + Signals(b)
  {
    if a != [] {
      assert (a + b)[0] == a[0] && (a + b)[1..] == a[1..] + b;
      CountsAppend(a[1..], b);
    } else {
      assert a + b == b;
    }
  }

  lemma CountsOne(e: Effect)
    ensures Spawns([e]) == (if e.SpawnTunnel? then 1 else 0)
    ensures Signals([e]) == (if e.SignalShutdown? then 1 else 0)
  {
    assert [e][1..] == [];
  }

  lemma NoticeCountsNothing(vars: Variables, command: string, msg: Message)
    ensures Spawns(AdminNotice(vars, command, msg)) == 0 && Signals(AdminNotice(vars, command, msg)) == 0
  {
    if msg.from.Some? {
      CountsOne(NotifyAdmin(vars.telegramConfig.adminUserId, command, msg.from.value));
    }
  }

  function Last(es: seq<Effect>): Effect
    requires es != []
  {
    es[|es| - 1]
  }

  /**
   * `/getvideo`: reply with the stream URL; if the flag is set, say so and stop;
   * otherwise set the flag, spawn a tunnel and store its shutdown sender `tx`.
   */
  function GetVideoReaction(t: Tunnel, vars: Variables, msg: Message, tx: ShutdownSender): (r: Reaction)
    ensures r.outcome == Done
    ensures SendMessage(msg.chatId, VideoUrlText(vars.ngrokDomain)) in r.effects
    ensures Signals(r.effects) == 0
    ensures t.started ==> r.next == t && Spawns(r.effects) == 0
    ensures t.started ==> r.effects != [] && Last(r.effects) == SendMessage(msg.chatId, ALREADY_STARTED)
    ensures !t.started ==> r.next == Tunnel(true, Some(tx)) && Spawns(r.effects) == 1
    ensures !t.started ==> SpawnTunnel(vars.ngrokAuthToken, vars.ngrokDomain, vars.serverAddress, tx) in r.effects
    ensures Consistent(t) ==> Consistent(r.next)
  {
    var notice := AdminNotice(vars, "get_video", msg);
    var url := [SendMessage(msg.chatId, VideoUrlText(vars.ngrokDomain))];
    NoticeCountsNothing(vars, "get_video", msg);
    if t.started then
      var tail := [SendMessage(msg.chatId, ALREADY_STARTED)];
      CountsOne(url[0]);
      CountsOne(tail[0]);
      CountsAppend(notice, url);
      CountsAppend(notice + url, tail);
      Reaction(t, notice + url + tail, Done)
    else
      var tail := [SpawnTunnel(vars.ngrokAuthToken, vars.ngrokDomain, vars.serverAddress, tx)];
      CountsOne(url[0]);
      CountsOne(tail[0]);
      CountsAppend(notice, url);
      CountsAppend(notice + url, tail);
      Reaction(Tunnel(true, Some(tx)), notice + url + tail, Done)
  }

  /**
   * `/stopvideo` as written: take the handle out of the slot; with none, reply
   * "not running"; otherwise signal it, clear the flag and reply "stopped". The
   * signal fails when the tunnel task has already ended (`receiverAlive` is
   * false), and the `expect` on it panics after the slot was emptied.
   */
  function StopVideoReaction(t: Tunnel, vars: Variables, msg: Message, receiverAlive: bool): (r: Reaction)
    ensures Spawns(r.effects) == 0
    ensures t.shutdownTx.None? ==> r.next == t && r.outcome == Done && Signals(r.effects) == 0
    ensures t.shutdownTx.None? ==> r.effects != [] && Last(r.effects) == SendMessage(msg.chatId, NOT_RUNNING)
    ensures t.shutdownTx.Some? && receiverAlive ==> r.next == IDLE && r.outcome == Done
    ensures t.shutdownTx.Some? && receiverAlive ==> Signals(r.effects) == 1 && SignalShutdown(t.shutdownTx.value) in r.effects
    ensures t.shutdownTx.Some? && receiverAlive ==> r.effects != [] && Last(r.effects) == SendMessage(msg.chatId, STOPPED)
    ensures t.shutdownTx.Some? && !receiverAlive ==> r.outcome.Panicked? && r.next == Tunnel(t.started, None)
    ensures t.shutdownTx.Some? && !receiverAlive ==> Signals(r.effects) == 0
    ensures Consistent(t) && receiverAlive ==> Consistent(r.next)
  {
    var notice := AdminNotice(vars, "stop_video", msg);
    NoticeCountsNothing(vars, "stop_video", msg);
    match t.shutdownTx
    case None =>
      var tail := [SendMessage(msg.chatId, NOT_RUNNING)];
      CountsOne(tail[0]);
      CountsAppend(notice, tail);
      Reaction(t, notice + tail, Done)
    case Some(tx) =>
      if !receiverAlive then Reaction(Tunnel(t.started, None), notice, Panicked(SHUTDOWN_SEND_FAILED))
      else
        var tail := [SignalShutdown(tx), SendMessage(msg.chatId, STOPPED)];
        CountsOne(tail[0]);
        CountsOne(tail[1]);
        assert tail == [tail[0]] + [tail[1]];
        CountsAppend([tail[0]], [tail[1]]);
        CountsAppend(notice, tail);
        Reaction(IDLE, notice + tail, Done)
  }

  /**
   * `/stopvideo` with the failed signal treated as the no-op it is (the tunnel
   * has already gone): the slot is emptied and the flag cleared either way.
   */
  function StopVideoRecovering(t: Tunnel, vars: Variables, msg: Message, receiverAlive: bool): (r: Reaction)
    ensures r.outcome == Done && Spawns(r.effects) == 0
    ensures t.shutdownTx.None? ==> r.next == t
    ensures t.shutdownTx.Some? ==> r.next == IDLE
    ensures Consistent(t) ==> Consistent(r.next)
    ensures receiverAlive ==> r == StopVideoReaction(t, vars, msg, receiverAlive)
  {
    match t.shutdownTx
    case Some(tx) =>
      if receiverAlive then StopVideoReaction(t, vars, msg, receiverAlive)
      else
        var notice := AdminNotice(vars, "stop_video", msg);
        var tail := [SendMessage(msg.chatId, STOPPED)];
        NoticeCountsNothing(vars, "stop_video", msg);
        CountsOne(tail[0]);
        CountsAppend(notice, tail);
        Reaction(IDLE, notice + tail, Done)
    case None => StopVideoReaction(t, vars, msg, receiverAlive)
  }

  /**
   * `/photo`: the sender must exist (`unwrap`), its id (cast to `i64`) must be
   * on the allow-list, and a frame must be pending in the hub; `pending` is what
   * the non-blocking read returned.
   */
  function PhotoReaction(t: Tunnel, vars: Variables, msg: Message, pending: Option<WorkerMessage>): (r: Reaction)
    ensures r.next == t
    ensures r.outcome.Panicked? <==> msg.from.None?
    ensures msg.from.None? ==> r.effects == []
    ensures msg.from.Some? && AsI64(msg.from.value.id) !in vars.telegramConfig.allowedUserIds ==>
      r.effects != [] && Last(r.effects) == SendMessage(msg.chatId, NOT_ALLOWED)
    ensures msg.from.Some? && AsI64(msg.from.value.id) in vars.telegramConfig.allowedUserIds ==>
      r.effects != [] && Last(r.effects) ==
        if pending.Some? && pending.value.Frame? then SendPhoto(msg.chatId, pending.value.payload)
        else SendMessage(msg.chatId, PHOTO_FAILED)
    ensures Spawns(r.effects) == 0 && Signals(r.effects) == 0
  {
    var notice := AdminNotice(vars, "photo", msg);
    NoticeCountsNothing(vars, "photo", msg);
    match msg.from
    case None => Reaction(t, notice, Panicked(UNWRAP_NONE))
    case Some(user) =>
      var reply :=
        if AsI64(user.id) in vars.telegramConfig.allowedUserIds then
          if pending.Some? && pending.value.Frame? then SendPhoto(msg.chatId, pending.value.payload)
          else SendMessage(msg.chatId, PHOTO_FAILED)
        else SendMessage(msg.chatId, NOT_ALLOWED);
      CountsOne(reply);
      CountsAppend(notice, [reply]);
      Reaction(t, notice + [reply], Done)
  }

  /** `command_handler`: one command, with the inputs each arm draws from outside. */
  function HandleCommand(t: Tunnel, vars: Variables, msg: Message, cmd: Command,
                         pending: Option<WorkerMessage>, tx: ShutdownSender, receiverAlive: bool): (r: Reaction)
    ensures cmd == Help ==> r == Reaction(t, [SendHelp(msg.chatId)], Done)
    ensures cmd != GetVideo ==> Spawns(r.effects) == 0
    ensures cmd != StopVideo ==> Signals(r.effects) == 0
    ensures Spawns(r.effects) <= 1 && Signals(r.effects) <= 1
    ensures r.outcome.Panicked? <==>
      (cmd == Photo && msg.from.None?) || (cmd == StopVideo && t.shutdownTx.Some? && !receiverAlive)
    ensures cmd == Help || cmd == Photo ==> r.next == t
    ensures Consistent(t) && (cmd != StopVideo || receiverAlive) ==> Consistent(r.next)
  {
    match cmd
    case Help => Reaction(t, [SendHelp(msg.chatId)], Done)
    case Photo => PhotoReaction(t, vars, msg, pending)
    case GetVideo => GetVideoReaction(t, vars, msg, tx)
    case StopVideo => StopVideoReaction(t, vars, msg, receiverAlive)
  }

  /** The tunnel commands give the same reaction whatever the allow-list holds. */
  lemma TunnelCommandsIgnoreAllowList(t: Tunnel, vars: Variables, other: seq<I64>, msg: Message,
                                      pending: Option<WorkerMessage>, tx: ShutdownSender, receiverAlive: bool)
    ensures var vars' := vars.(telegramConfig := vars.telegramConfig.(allowedUserIds := other));
      && HandleCommand(t, vars, msg, GetVideo, pending, tx, receiverAlive)
         == HandleCommand(t, vars', msg, GetVideo, pending, tx, receiverAlive)
      && HandleCommand(t, vars, msg, StopVideo, pending, tx, receiverAlive)
         == HandleCommand(t, vars', msg, StopVideo, pending, tx, receiverAlive)
  {
  }

  /** The admin's report of an invalid command: chat id, chat username (or empty), text (or "No text"). */
  function AdminInvalidCommandText(chatId: I64, chatUsername: Option<string>, text: Option<string>): (report: string)
    ensures INVALID_COMMAND_HEADER <= report
    ensures |report| >= |INVALID_COMMAND_HEADER| + |text.GetOr("No text")|
    ensures report[|report| - |text.GetOr("No text")|..] == text.GetOr("No text")
  {
    INVALID_COMMAND_HEADER + Decimal.Dec(chatId) + ", Username: " + chatUsername.GetOr("") + ", Command: "
      + text.GetOr("No text")
  }

  /**
   * The report names the chat: its id field is the chat id printed in decimal
   * and reads back as the chat id, the
   * username (or nothing) follows under its label, and it ends with the text.
   */
  lemma AdminInvalidCommandTextNamesChat(chatId: I64, chatUsername: Option<string>, text: Option<string>)
    ensures var r, h, n := AdminInvalidCommandText(chatId, chatUsername, text), |INVALID_COMMAND_HEADER|, |Decimal.Dec(chatId)|;
      && |r| >= h + n
      && r[..h] == INVALID_COMMAND_HEADER
      && r[h..h + n] == Decimal.Dec(chatId)
      && Decimal.ParseInt(r[h..h + n], I64_MIN, I64_MAX) == Success(chatId as int)
      && r[|r| - |text.GetOr("No text")|..] == text.GetOr("No text")
      && r[h + n..|r| - |text.GetOr("No text")|] == ", Username: " + chatUsername.GetOr("") + ", Command: "
  {
    var id, middle, tail := Decimal.Dec(chatId), ", Username: " + chatUsername.GetOr("") + ", Command: ", text.GetOr("No text");
    var r := AdminInvalidCommandText(chatId, chatUsername, text);
    assert r == INVALID_COMMAND_HEADER + id + middle + tail;
    var h, n := |INVALID_COMMAND_HEADER|, |id|;
    assert r[h..h + n] == id;
    assert r[h + n..|r| - |tail|] == middle;
    Decimal.DecRoundTrip(chatId, I64_MIN, I64_MAX);
  }

  /** `invalid_command_handler`: the fixed reply, then the admin's report. */
  function InvalidCommandEffects(vars: Variables, msg: Message): (es: seq<Effect>)
    ensures es != [] && es[0] == SendMessage(msg.chatId, INVALID_COMMAND_REPLY)
    ensures |es| == 2
    ensures es[1] == SendMessage(vars.telegramConfig.adminUserId, AdminInvalidCommandText(msg.chatId, msg.chatUsername, msg.text))
    ensures Spawns(es) == 0 && Signals(es) == 0
  {
    var reply := SendMessage(msg.chatId, INVALID_COMMAND_REPLY);
    var report := SendMessage(vars.telegramConfig.adminUserId, AdminInvalidCommandText(msg.chatId, msg.chatUsername, msg.text));
    var es := [reply] + if ShouldNotifyAdmin() then [report] else [];
    CountsOne(reply);
    CountsOne(report);
    CountsAppend([reply], [report]);
    es
  }

  /** A tunnel command, with the outside inputs it needs. */
  datatype Request =
    | StartRequest(msg: Message, tx: ShutdownSender)
    | StopRequest(msg: Message, receiverAlive: bool)

  /** The state after a run of tunnel commands, everything they did, and whether one panicked. */
  datatype Run = Run(final: Tunnel, effects: seq<Effect>, panicked: bool)

  function Step(t: Tunnel, vars: Variables, req: Request, recovering: bool): Reaction {
    match req
    case StartRequest(msg, tx) => GetVideoReaction(t, vars, msg, tx)
    case StopRequest(msg, alive) =>
      if recovering then StopVideoRecovering(t, vars, msg, alive) else StopVideoReaction(t, vars, msg, alive)
  }

  /** Tunnel commands handled one after another; a panic ends the run. */
  function Drive(t: Tunnel, vars: Variables, reqs: seq<Request>, recovering: bool): Run
    decreases |reqs|
  {
    if reqs == [] then Run(t, [], false)
    else
      var r := Step(t, vars, reqs[0], recovering);
      if r.outcome.Panicked? then Run(r.next, r.effects, true)
      else
        var rest := Drive(r.next, vars, reqs[1..], recovering);
        Run(rest.final, r.effects + rest.effects, rest.panicked)
  }

  /** Every stop request finds its tunnel task still running. */
  predicate TunnelsLive(reqs: seq<Request>) {
    forall i :: 0 <= i < |reqs| && reqs[i].StopRequest? ==> reqs[i].receiverAlive
  }

  /**
   * While no tunnel task ends on its own, the flag and the slot stay in step,
   * nothing panics, and the tunnels spawned minus those signalled is exactly the
   * one tunnel the flag says is running.
   */
  lemma {:induction false} LiveRunKeepsConsistent(t: Tunnel, vars: Variables, reqs: seq<Request>, recovering: bool)
    requires Consistent(t) && TunnelsLive(reqs)
    ensures var run := Drive(t, vars, reqs, recovering);
      && Consistent(run.final) && !run.panicked
      && Spawns(run.effects) + (if t.started then 1 else 0) == Signals(run.effects) + (if run.final.started then 1 else 0)
    decreases |reqs|
  {
    if reqs != [] {
      var r := Step(t, vars, reqs[0], recovering);
      assert TunnelsLive(reqs[1..]) by {
        forall i | 0 <= i < |reqs[1..]| && reqs[1..][i].StopRequest? ensures reqs[1..][i].receiverAlive {
          assert reqs[1..][i] == reqs[i + 1];
        }
      }
      LiveRunKeepsConsistent(r.next, vars, reqs[1..], recovering);
      var rest := Drive(r.next, vars, reqs[1..], recovering);
      CountsAppend(r.effects, rest.effects);
    }
  }

  /** With the recovering stop, the flag and the slot stay in step and nothing panics, whatever happens to the tunnels. */
  lemma {:induction false} RecoveringRunKeepsConsistent(t: Tunnel, vars: Variables, reqs: seq<Request>)
    requires Consistent(t)
    ensures Consistent(Drive(t, vars, reqs, true).final) && !Drive(t, vars, reqs, true).panicked
    decreases |reqs|
  {
    if reqs != [] {
      RecoveringRunKeepsConsistent(Step(t, vars, reqs[0], true).next, vars, reqs[1..]);
    }
  }

  /** After a recovering stop, the next `/getvideo` always spawns a fresh tunnel. */
  lemma RecoveringStopAllowsRestart(t: Tunnel, vars: Variables, stop: Message, alive: bool, start: Message, tx: ShutdownSender)
    requires Consistent(t)
    ensures var s := StopVideoRecovering(t, vars, stop, alive).next;
      GetVideoReaction(s, vars, start, tx).next == Tunnel(true, Some(tx))
      && Spawns(GetVideoReaction(s, vars, start, tx).effects) == 1
  {
  }

  /**
   * As written, stopping a tunnel whose task has ended on its own panics and
   * leaves the flag set with an empty slot.
   */
  lemma EndedTunnelStopPanics(vars: Variables, start: Message, tx: ShutdownSender, stop: Message)
    ensures var run := Drive(IDLE, vars, [StartRequest(start, tx), StopRequest(stop, false)], false);
      run.panicked && run.final == Tunnel(true, None) && !Consistent(run.final)
  {
    var g := GetVideoReaction(IDLE, vars, start, tx);
    assert g.next == Tunnel(true, Some(tx));
    var reqs := [StartRequest(start, tx), StopRequest(stop, false)];
    assert reqs[1..] == [StopRequest(stop, false)];
  }

  /**
   * From the state that panic leaves behind, no sequence of tunnel commands
   * ever starts a tunnel again: `/getvideo` reports "already started" and
   * `/stopvideo` reports "not running".
   */
  lemma {:induction false} LeftoverStateNeverRestarts(vars: Variables, reqs: seq<Request>, recovering: bool)
    ensures var run := Drive(Tunnel(true, None), vars, reqs, recovering);
      run.final == Tunnel(true, None) && Spawns(run.effects) == 0 && Signals(run.effects) == 0 && !run.panicked
    decreases |reqs|
  {
    if reqs != [] {
      var r := Step(Tunnel(true, None), vars, reqs[0], recovering);
      LeftoverStateNeverRestarts(vars, reqs[1..], recovering);
      CountsAppend(r.effects, Drive(r.next, vars, reqs[1..], recovering).effects);
    }
  }

  /** Two `/getvideo` from idle: one tunnel, and the second reply says it is already started. */
  lemma StartTwiceSpawnsOnce(vars: Variables, m1: Message, tx1: ShutdownSender, m2: Message, tx2: ShutdownSender)
    ensures var run := Drive(IDLE, vars, [StartRequest(m1, tx1), StartRequest(m2, tx2)], false);
      run.final == Tunnel(true, Some(tx1)) && Spawns(run.effects) == 1
      && run.effects != [] && Last(run.effects) == SendMessage(m2.chatId, ALREADY_STARTED)
  {
    var reqs := [StartRequest(m1, tx1), StartRequest(m2, tx2)];
    assert reqs[1..] == [StartRequest(m2, tx2)];
    var a := GetVideoReaction(IDLE, vars, m1, tx1);
    var b := GetVideoReaction(a.next, vars, m2, tx2);
    assert Drive(a.next, vars, reqs[1..], false) == Run(b.next, b.effects + [], false);
    assert b.effects + [] == b.effects;
    CountsAppend(a.effects, b.effects);
  }

  /** `/getvideo`, `/stopvideo`, `/stopvideo` from idle: back to idle, one signal, and the second stop is a no-op. */
  lemma StartStopStopReturnsToIdle(vars: Variables, m1: Message, tx: ShutdownSender, m2: Message, m3: Message, alive3: bool)
    ensures var run := Drive(IDLE, vars, [StartRequest(m1, tx), StopRequest(m2, true), StopRequest(m3, alive3)], false);
      run.final == IDLE && !run.panicked && Spawns(run.effects) == 1 && Signals(run.effects) == 1
      && run.effects != [] && Last(run.effects) == SendMessage(m3.chatId, NOT_RUNNING)
  {
    var reqs := [StartRequest(m1, tx), StopRequest(m2, true), StopRequest(m3, alive3)];
    assert reqs[1..] == [StopRequest(m2, true), StopRequest(m3, alive3)];
    assert reqs[1..][1..] == [StopRequest(m3, alive3)];
    var a := GetVideoReaction(IDLE, vars, m1, tx);
    var b := StopVideoReaction(a.next, vars, m2, true);
    var c := StopVideoReaction(b.next, vars, m3, alive3);
    assert Drive(b.next, vars, reqs[1..][1..], false) == Run(c.next, c.effects + [], false);
    assert c.effects + [] == c.effects;
    CountsAppend(b.effects, c.effects);
    CountsAppend(a.effects, b.effects + c.effects);
    assert (a.effects + (b.effects + c.effects))[|a.effects + (b.effects + c.effects)| - 1] == c.effects[|c.effects| - 1];
  }

  /**
   * The bot's view of the shared state: the tunnel flag and shutdown slot of
   * `Variables`, updated in place by the handlers, and the effects sent so far.
   */
  class Bot {
    const vars: Variables
    var isNgrokStarted: bool
    var ngrokShutdownTx: Option<ShutdownSender>
    var outbox: seq<Effect>

    function State(): Tunnel
      reads this
    {
      Tunnel(isNgrokStarted, ngrokShutdownTx)
    }

    constructor (vars: Variables)
      ensures this.vars == vars && outbox == []
      ensures State() == Tunnel(vars.isNgrokStarted, vars.ngrokShutdownTx)
    {
      this.vars := vars;
      isNgrokStarted := vars.isNgrokStarted;
      ngrokShutdownTx := vars.ngrokShutdownTx;
      outbox := [];
    }

    method NotifyAdminOfCommand(command: string, msg: Message)
      modifies this`outbox
      ensures outbox == old(outbox) + AdminNotice(vars, command, msg)
    {
      if ShouldNotifyAdmin() {
        if msg.from.Some? {
          outbox := outbox + [NotifyAdmin(vars.telegramConfig.adminUserId, command, msg.from.value)];
        }
      }
    }

    method GetVideo(msg: Message, tx: ShutdownSender) returns (outcome: Outcome)
      modifies this
      ensures var r := GetVideoReaction(old(State()), vars, msg, tx);
        State() == r.next && outbox == old(outbox) + r.effects && outcome == r.outcome
    {
      NotifyAdminOfCommand("get_video", msg);
      outbox := outbox + [SendMessage(msg.chatId, VideoUrlText(vars.ngrokDomain))];
      if isNgrokStarted {
        outbox := outbox + [SendMessage(msg.chatId, ALREADY_STARTED)];
        return Done;
      }
      isNgrokStarted := true;
      outbox := outbox + [SpawnTunnel(vars.ngrokAuthToken, vars.ngrokDomain, vars.serverAddress, tx)];
      ngrokShutdownTx := Some(tx);
      outcome := Done;
    }

    method StopVideo(msg: Message, receiverAlive: bool) returns (outcome: Outcome)
      modifies this
      ensures var r := StopVideoReaction(old(State()), vars, msg, receiverAlive);
        State() == r.next && outbox == old(outbox) + r.effects && outcome == r.outcome
    {
      NotifyAdminOfCommand("stop_video", msg);
      var sender := ngrokShutdownTx;
      ngrokShutdownTx := None;
      if sender.None? {
        outbox := outbox + [SendMessage(msg.chatId, NOT_RUNNING)];
        return Done;
      }
      if !receiverAlive {
        return Panicked(SHUTDOWN_SEND_FAILED);
      }
      outbox := outbox + [SignalShutdown(sender.value)];
      isNgrokStarted := false;
      outbox := outbox + [SendMessage(msg.chatId, STOPPED)];
      outcome := Done;
    }

    method Photo(msg: Message, pending: Option<WorkerMessage>) returns (outcome: Outcome)
      modifies this`outbox
      ensures var r := PhotoReaction(old(State()), vars, msg, pending);
        outbox == old(outbox) + r.effects && outcome == r.outcome
    {
      NotifyAdminOfCommand("photo", msg);
      if msg.from.None? {
        return Panicked(UNWRAP_NONE);
      }
      var id := AsI64(msg.from.value.id);
      if id in vars.telegramConfig.allowedUserIds {
        if pending.Some? && pending.value.Frame? {
          outbox := outbox + [SendPhoto(msg.chatId, pending.value.payload)];
        } else {
          outbox := outbox + [SendMessage(msg.chatId, PHOTO_FAILED)];
        }
      } else {
        outbox := outbox + [SendMessage(msg.chatId, NOT_ALLOWED)];
      }
      outcome := Done;
    }

    method CommandHandler(msg: Message, cmd: Command, pending: Option<WorkerMessage>,
                          tx: ShutdownSender, receiverAlive: bool) returns (outcome: Outcome)
      modifies this
      ensures var r := HandleCommand(old(State()), vars, msg, cmd, pending, tx, receiverAlive);
        State() == r.next && outbox == old(outbox) + r.effects && outcome == r.outcome
    {
      match cmd
      case Help =>
        outbox := outbox + [SendHelp(msg.chatId)];
        outcome := Done;
      case Photo =>
        outcome := Photo(msg, pending);
      case GetVideo =>
        outcome := GetVideo(msg, tx);
      case StopVideo =>
        outcome := StopVideo(msg, receiverAlive);
    }

    method InvalidCommandHandler(msg: Message)
      modifies this`outbox
      ensures outbox == old(outbox) + InvalidCommandEffects(vars, msg)
    {
      outbox := outbox + [SendMessage(msg.chatId, INVALID_COMMAND_REPLY)];
      if ShouldNotifyAdmin() {
        var report := AdminInvalidCommandText(msg.chatId, msg.chatUsername, msg.text);
        outbox := outbox + [SendMessage(vars.telegramConfig.adminUserId, report)];
      }
    }
  }
}
