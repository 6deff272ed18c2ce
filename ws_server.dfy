/**
 * The web-socket side of the stream: the socket path the page connects to, and
 * the bookkeeping of `websocket_handler`'s send loop, which forwards every
 * frame it receives from the hub to one browser.
 */
module WsServer {
  import opened Core

  /** The address the page's script opens: `format!("wss://{}/ws", ngrok_domain)`. */
  function WsPath(domain: string): (path: string)
    ensures |path| == |domain| + 9
    ensures path[..6] == "wss://" && path[|path| - 3..] == "/ws"
    ensures path[6..|path| - 3] == domain
  {
    "wss://" + domain + "/ws"
  }

  /** Different domains give different socket paths. */
  lemma WsPathInjective(a: string, b: string)
    requires WsPath(a) == WsPath(b)
    ensures a == b
  {
    assert a == WsPath(a)[6..|WsPath(a)| - 3];
  }

  /** The state the web server hands to its page handler. */
  function ServerStateOf(vars: Variables): (st: ServerState)
    ensures |st.wsPath| == |vars.ngrokDomain| + 9
    ensures st.wsPath[6..|st.wsPath| - 3] == vars.ngrokDomain
    ensures st.wsPath == WsPath(vars.ngrokDomain)
  {
    ServerState(WsPath(vars.ngrokDomain))
  }

  /** One successful `recv` from the hub, and whether sending it on to the socket would succeed. */
  datatype Inbound = Inbound(msg: WorkerMessage, sendOk: bool)

  /**
   * The loop's counters: frames and bytes received, failed sends counted so
   * far, the payloads the socket accepted, and whether the loop gave up.
   */
  datatype Session = Session(frameCount: nat, totalBytes: nat, attempts: nat, delivered: seq<seq<U8>>, gaveUp: bool)

  /** A failed send when `attempts` is above this bound ends the session, so `attempts` tops out one above it. */
  const GIVE_UP_ABOVE := 5

  const FRESH := Session(0, 0, 0, [], false)

  /** One pass of the loop body. */
  function Advance(s: Session, m: Inbound): Session
    requires !s.gaveUp
  {
    match m.msg
    case Terminate => s
    case Frame(payload) =>
      var counted := s.(frameCount := s.frameCount + 1, totalBytes := s.totalBytes + |payload|);
      if m.sendOk then counted.(delivered := counted.delivered + [payload])
      else if counted.attempts > GIVE_UP_ABOVE then counted.(gaveUp := true)
      else counted.(attempts := counted.attempts + 1)
  }

  /** The counters after the loop has been offered `ms`; once it gives up it takes nothing more. */
  function SessionAfter(ms: seq<Inbound>): (s: Session)
    ensures s.attempts <= GIVE_UP_ABOVE + 1
    ensures |s.delivered| <= s.frameCount
  {
    if ms == [] then FRESH
    else
      var prev := SessionAfter(ms[..|ms| - 1]);
      if prev.gaveUp then prev else Advance(prev, ms[|ms| - 1])
  }

  /** The frames in `ms`. */
  function Frames(ms: seq<Inbound>): nat {
    if ms == [] then 0 else Frames(ms[..|ms| - 1]) + (if ms[|ms| - 1].msg.Frame? then 1 else 0)
  }

  /** The total payload length of the frames in `ms`. */
  function Bytes(ms: seq<Inbound>): nat {
    if ms == [] then 0
    else Bytes(ms[..|ms| - 1]) + (match ms[|ms| - 1].msg case Frame(p) => |p| case Terminate => 0)
  }

  /** The frames in `ms` whose send fails. */
  function Failures(ms: seq<Inbound>): nat {
    if ms == [] then 0
    else Failures(ms[..|ms| - 1]) + (if ms[|ms| - 1].msg.Frame? && !ms[|ms| - 1].sendOk then 1 else 0)
  }

  /** The payloads of the frames in `ms` whose send succeeds, in order. */
  function Delivered(ms: seq<Inbound>): seq<seq<U8>> {
    if ms == [] then []
    else
      var m := ms[|ms| - 1];
      Delivered(ms[..|ms| - 1]) + (if m.msg.Frame? && m.sendOk then [m.msg.payload] else [])
  }

  /**
   * Up to six failed sends the loop keeps going: it has counted every frame and
   * every byte, `attempts` is the number of failures (never reset by a success),
   * and exactly the frames that were sent successfully reached the socket, each
   * once.
   */
  lemma {:induction false} SessionBeforeSeventhFailure(ms: seq<Inbound>)
    requires Failures(ms) <= GIVE_UP_ABOVE + 1
    ensures SessionAfter(ms) == Session(Frames(ms), Bytes(ms), Failures(ms), Delivered(ms), false)
  {
    if ms != [] {
      SessionBeforeSeventhFailure(ms[..|ms| - 1]);
    }
  }

  /** The seventh failed send ends the session, with that frame counted. */
  lemma SessionEndsAtSeventhFailure(ms: seq<Inbound>)
    requires ms != [] && ms[|ms| - 1].msg.Frame? && !ms[|ms| - 1].sendOk
    requires Failures(ms) == GIVE_UP_ABOVE + 2
    ensures SessionAfter(ms) == Session(Frames(ms), Bytes(ms), GIVE_UP_ABOVE + 1, Delivered(ms), true)
  {
    SessionBeforeSeventhFailure(ms[..|ms| - 1]);
  }

  /** Once the loop has given up, later messages change nothing. */
  lemma {:induction false} GivingUpIsFinal(ms: seq<Inbound>, k: nat)
    requires k <= |ms| && SessionAfter(ms[..k]).gaveUp
    ensures SessionAfter(ms) == SessionAfter(ms[..k])
    decreases |ms| - k
  {
    if k < |ms| {
      assert ms[..k + 1][..k] == ms[..k];
      GivingUpIsFinal(ms, k + 1);
    } else {
      assert ms[..k] == ms;
    }
  }

  /**
   * Whatever follows it, the seventh failed send is where the session ends,
   * with everything up to it counted and nothing after it.
   */
  lemma SessionOutcomeAtSeventhFailure(ms: seq<Inbound>, k: nat)
    requires 0 < k <= |ms| && ms[k - 1].msg.Frame? && !ms[k - 1].sendOk
    requires Failures(ms[..k]) == GIVE_UP_ABOVE + 2
    ensures var p := ms[..k];
      SessionAfter(ms) == Session(Frames(p), Bytes(p), GIVE_UP_ABOVE + 1, Delivered(p), true)
  {
    SessionEndsAtSeventhFailure(ms[..k]);
    GivingUpIsFinal(ms, k);
  }

  /**
   * `websocket_handler`'s loop: receive until the hub reports an error (`inbox`
   * is every message `recv` returns before that), count each frame and its
   * bytes, send it, and on a failed send give up once more than five failures
   * have already been counted. Returns the counters and how many messages were
   * received.
   */
  method WebsocketHandler(inbox: seq<Inbound>) returns (s: Session, received: nat)
    ensures received <= |inbox|
    ensures s == SessionAfter(inbox[..received]) && s == SessionAfter(inbox)
    ensures received < |inbox| ==> s.gaveUp
    ensures s.gaveUp ==> 0 < received && inbox[received - 1].msg.Frame? && !inbox[received - 1].sendOk
  {
    var attempts: nat := 0;
    var frameCount: nat := 0;
    var totalBytes: nat := 0;
    var delivered: seq<seq<U8>> := [];
    var gaveUp := false;
    received := 0;
    while received < |inbox|
      invariant received <= |inbox|
      invariant Session(frameCount, totalBytes, attempts, delivered, false) == SessionAfter(inbox[..received])
    {
      var m := inbox[received];
      received := received + 1;
      assert inbox[..received][..received - 1] == inbox[..received - 1];
      assert inbox[..received][received - 1] == m;
      if m.msg.Frame? {
        frameCount := frameCount + 1;
        totalBytes := totalBytes + |m.msg.payload|;
        if m.sendOk {
          delivered := delivered + [m.msg.payload];
        } else {
          if attempts > GIVE_UP_ABOVE {
            gaveUp := true;
            break;
          }
          attempts := attempts + 1;
        }
      }
    }
    s := Session(frameCount, totalBytes, attempts, delivered, gaveUp);
    if gaveUp {
      GivingUpIsFinal(inbox, received);
    } else {
      assert inbox[..received] == inbox;
    }
  }
}
