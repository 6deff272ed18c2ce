/**
 * The shared records of the camera service and `init_config_by_env`, which
 * turns the process environment (a list of key/value pairs) into the
 * `Variables` record every worker reads.
 */
module Core {
  import opened Wrappers
  import Decimal

  // Rust's fixed-width integer types, as ranges of mathematical integers.
  const U8_MAX := 0xFF
  const U16_MAX := 0xFFFF
  const U32_MAX := 0xFFFF_FFFF
  const I64_MIN := -0x8000_0000_0000_0000
  const I64_MAX := 0x7FFF_FFFF_FFFF_FFFF

  type U8 = x: int | 0 <= x <= U8_MAX
  type U16 = x: int | 0 <= x <= U16_MAX
  type U32 = x: int | 0 <= x <= U32_MAX
  type I64 = x: int | I64_MIN <= x <= I64_MAX

  /** Number of capture buffers the camera driver is asked for. */
  const BUF_COUNT: U32 := 20

  /** What the hub carries between workers. */
  datatype WorkerMessage = Frame(payload: seq<U8>) | Terminate

  /** The hub's delivery policies; `Latest` keeps only the newest unread message per subscriber. */
  datatype DeliveryPolicy = Always | Latest | Optional | Single | SingleOptional

  /** `WorkerMessage::delivery_policy`: every message, frame or not, is delivered as `Latest`. */
  function DeliveryPolicyOf(m: WorkerMessage): (p: DeliveryPolicy)
    ensures p == Latest
  {
    Latest
  }

  /**
   * The sending half of the one-shot channel that stops a tunnel task; `tunnel`
   * identifies the task that holds the receiving half.
   */
  datatype ShutdownSender = ShutdownSender(tunnel: nat)

  /** State handed to the web server's page handler. */
  datatype ServerState = ServerState(wsPath: string)

  datatype CameraConfig = CameraConfig(
    interval: (U32, U32),
    width: U16,
    height: U16,
    fourcc: seq<U8>,
    bufSize: U32,
    devIdx: U8)

  datatype TelegramConfig = TelegramConfig(token: string, adminUserId: I64, allowedUserIds: seq<I64>)

  /**
   * The configuration record. Its last two fields are the tunnel flag and the
   * tunnel's shutdown slot, which the bot later updates in place.
   */
  datatype Variables = Variables(
    cameraConfig: CameraConfig,
    ngrokAuthToken: string,
    ngrokDomain: string,
    serverAddress: string,
    telegramConfig: TelegramConfig,
    isNgrokStarted: bool,
    ngrokShutdownTx: Option<ShutdownSender>)

  const ADMIN_KEY := "TELEGRAM_ADMIN_USER_ID"
  const ALLOWED_KEY := "TELEGRAM_ALLOWED_USER_IDS"
  const WIDTH_KEY := "CAMERA_WIDTH"
  const HEIGHT_KEY := "CAMERA_HEIGHT"
  const DEV_IDX_KEY := "CAMERA_DEV_IDX"
  const AUTH_TOKEN_KEY := "NGROK_AUTH_TOKEN"
  const DOMAIN_KEY := "NGROK_DOMAIN"
  const SERVER_ADDRESS_KEY := "SERVER_ADDRESS"
  const TOKEN_KEY := "TELEGRAM_TOKEN"

  /** The keys whose absence makes the builder panic. */
  const REQUIRED_KEYS := {ADMIN_KEY, ALLOWED_KEY, AUTH_TOKEN_KEY, DOMAIN_KEY, TOKEN_KEY}

  /** The user id that is always allowed besides the admin. */
  const BUILT_IN_USER_ID: I64 := 427348891

  /** `*b"MJPG"`. */
  const MJPG: seq<U8> := [0x4D, 0x4A, 0x50, 0x47]

  /** Why the builder panics: an `expect` on a missing key, or an `unwrap` on a failed parse. */
  datatype ConfigError =
    | NotSet(key: string)
    | Unparsable(key: string, text: string, kind: Decimal.IntErrorKind)

  type Env = map<string, string>

  /** The map the builder's insert loop produces: a later pair overwrites an earlier one. */
  function EnvMap(args: seq<(string, string)>): (env: Env)
    ensures env.Keys == set p | p in args :: p.0
  {
    if args == [] then map[]
    else
      var init := args[..|args| - 1];
      var last := args[|args| - 1];
      var env := EnvMap(init)[last.0 := last.1];
      assert forall p :: p in args <==> p in init || p == last;
      env
  }

  /** The `for_each` loop that inserts every pair into the hash map. */
  method CollectEnv(args: seq<(string, string)>) returns (env: Env)
    ensures env == EnvMap(args)
  {
    env := map[];
    var i := 0;
    while i < |args|
      invariant 0 <= i <= |args|
      invariant env == EnvMap(args[..i])
    {
      assert args[..i + 1][..i] == args[..i];
      env := env[args[i].0 := args[i].1];
      i := i + 1;
    }
    assert args[..|args|] == args;
  }

  /** Whatever pairs precede or follow it, the last pair with a key decides that key's value. */
  lemma {:induction false} EnvMapLastWins(args: seq<(string, string)>, i: nat)
    requires i < |args|
    requires forall j :: i < j < |args| ==> args[j].0 != args[i].0
    ensures args[i].0 in EnvMap(args) && EnvMap(args)[args[i].0] == args[i].1
  {
    if i < |args| - 1 {
      var init := args[..|args| - 1];
      assert forall j :: i < j < |init| ==> init[j] == args[j];
      EnvMapLastWins(init, i);
    }
  }

  /** `str::split`: the pieces of `s` between occurrences of `sep`, empty pieces included. */
  function Split(s: string, sep: char): (pieces: seq<string>)
    ensures |pieces| > 0
    ensures |pieces| == 1 <==> sep !in s
    ensures forall p :: p in pieces ==> sep !in p
  {
    if s == [] then [""]
    else
      var rest := Split(s[1..], sep);
      assert sep in s <==> s[0] == sep || sep in s[1..];
      if s[0] == sep then [""] + rest
      else
        var pieces := [[s[0]] + rest[0]] + rest[1..];
        assert forall p :: p in pieces ==> p == [s[0]] + rest[0] || p in rest;
        pieces
  }

  /** The pieces joined back with `sep` between them. */
  function Join(pieces: seq<string>, sep: char): string
    requires |pieces| > 0
  {
    if |pieces| == 1 then pieces[0] else pieces[0] + [sep] + Join(pieces[1..], sep)
  }

  /** Splitting loses nothing: the pieces and the separators make up the text. */
  lemma {:induction false} SplitJoin(s: string, sep: char)
    ensures Join(Split(s, sep), sep) == s
  {
    if s != [] {
      var rest := Split(s[1..], sep);
      SplitJoin(s[1..], sep);
      if s[0] == sep {
        var pieces := [""] + rest;
        assert Split(s, sep) == pieces;
        assert pieces[1..] == rest;
        assert Join(pieces, sep) == [sep] + Join(rest, sep);
      } else {
        var pieces := [[s[0]] + rest[0]] + rest[1..];
        assert Split(s, sep) == pieces;
        JoinExtendsHead(s[0], rest, sep);
      }
    }
  }

  /** Putting a character in front of the first piece puts it in front of the joined text. */
  lemma JoinExtendsHead(c: char, pieces: seq<string>, sep: char)
    requires |pieces| > 0
    ensures Join([[c] + pieces[0]] + pieces[1..], sep) == [c] + Join(pieces, sep)
  {
    var extended := [[c] + pieces[0]] + pieces[1..];
    assert extended[1..] == pieces[1..];
  }

  /** A text ending in the separator has an empty last piece. */
  lemma {:induction false} SplitTrailingSeparator(s: string, sep: char)
    requires |s| > 0 && s[|s| - 1] == sep
    ensures Split(s, sep)[|Split(s, sep)| - 1] == ""
  {
    var rest := Split(s[1..], sep);
    if |s| == 1 {
      assert rest == [""];
    } else {
      assert s[1..][|s[1..]| - 1] == sep;
      assert sep in s[1..];
      SplitTrailingSeparator(s[1..], sep);
    }
  }

  /** `hashmap.get(key).unwrap_or(default)`. */
  function Lookup(env: Env, key: string, default: string): string {
    if key in env then env[key] else default
  }

  /** Every comma-separated entry of the allow-list text parses as an `i64`. */
  predicate AllowedIdsParse(text: string) {
    forall p | p in Split(text, ',') :: Decimal.ParseInt(p, I64_MIN, I64_MAX).Success?
  }

  /** The key's text, or its default, parses into the given range. */
  predicate SettingParses(env: Env, key: string, default: string, lo: int, hi: int)
    requires lo <= 0 <= hi
  {
    Decimal.ParseInt(Lookup(env, key, default), lo, hi).Success?
  }

  /** What the collected environment must satisfy for the builder not to panic. */
  predicate Acceptable(env: Env) {
    && REQUIRED_KEYS <= env.Keys
    && Decimal.ParseInt(env[ADMIN_KEY], I64_MIN, I64_MAX).Success?
    && AllowedIdsParse(env[ALLOWED_KEY])
    && SettingParses(env, WIDTH_KEY, "640", 0, U16_MAX)
    && SettingParses(env, HEIGHT_KEY, "480", 0, U16_MAX)
    && SettingParses(env, DEV_IDX_KEY, "0", 0, U8_MAX)
  }

  /** The range a numeric key is parsed into. */
  function KeyRange(key: string): (range: (int, int))
    ensures range.0 <= 0 <= range.1
  {
    if key == WIDTH_KEY || key == HEIGHT_KEY then (0, U16_MAX)
    else if key == DEV_IDX_KEY then (0, U8_MAX)
    else (I64_MIN, I64_MAX)
  }

  /** The error names a real fault of the environment. */
  predicate Explains(env: Env, e: ConfigError) {
    match e
    case NotSet(key) => key in REQUIRED_KEYS && key !in env
    case Unparsable(key, text, kind) =>
      && (|| (key == ADMIN_KEY && key in env && text == env[key])
          || (key == ALLOWED_KEY && key in env && text in Split(env[key], ','))
          || (key == WIDTH_KEY && text == Lookup(env, key, "640"))
          || (key == HEIGHT_KEY && text == Lookup(env, key, "480"))
          || (key == DEV_IDX_KEY && text == Lookup(env, key, "0")))
      && Decimal.ParseInt(text, KeyRange(key).0, KeyRange(key).1) == Failure(kind)
  }

  /** `hashmap.get(key).unwrap_or(default).parse().unwrap()` into the range `lo..=hi`. */
  function Setting(env: Env, key: string, default: string, lo: int, hi: int): (r: Result<int, ConfigError>)
    requires lo <= 0 <= hi
  {
    var text := Lookup(env, key, default);
    match Decimal.ParseInt(text, lo, hi)
    case Success(v) => Success(v)
    case Failure(kind) => Failure(Unparsable(key, text, kind))
  }

  /** The record the builder returns for an acceptable environment. */
  predicate Describes(env: Env, v: Variables) {
    && ADMIN_KEY in env && TOKEN_KEY in env && AUTH_TOKEN_KEY in env && DOMAIN_KEY in env
    && Decimal.ParseInt(env[ADMIN_KEY], I64_MIN, I64_MAX) == Success(v.telegramConfig.adminUserId as int)
    && v.telegramConfig.allowedUserIds == [v.telegramConfig.adminUserId, BUILT_IN_USER_ID]
    && v.telegramConfig.token == env[TOKEN_KEY]
    && v.ngrokAuthToken == env[AUTH_TOKEN_KEY]
    && v.ngrokDomain == env[DOMAIN_KEY]
    && v.serverAddress == Lookup(env, SERVER_ADDRESS_KEY, "localhost:8080")
    && Decimal.ParseInt(Lookup(env, WIDTH_KEY, "640"), 0, U16_MAX) == Success(v.cameraConfig.width as int)
    && Decimal.ParseInt(Lookup(env, HEIGHT_KEY, "480"), 0, U16_MAX) == Success(v.cameraConfig.height as int)
    && Decimal.ParseInt(Lookup(env, DEV_IDX_KEY, "0"), 0, U8_MAX) == Success(v.cameraConfig.devIdx as int)
    && v.cameraConfig.interval == (1, 30)
    && v.cameraConfig.fourcc == MJPG
    && v.cameraConfig.bufSize == BUF_COUNT
    && !v.isNgrokStarted
    && v.ngrokShutdownTx == None
  }

  /**
   * `split(',').map(|x| x.parse().unwrap()).collect()`: every entry of the
   * allow-list text parsed as an `i64`, in order; the first bad entry fails.
   */
  method ParseAllowedIds(text: string) returns (r: Result<seq<I64>, ConfigError>)
    ensures r.Success? <==> AllowedIdsParse(text)
    ensures r.Success? ==> var pieces := Split(text, ',');
      && |r.value| == |pieces|
      && forall j :: 0 <= j < |pieces| ==> Decimal.ParseInt(pieces[j], I64_MIN, I64_MAX) == Success(r.value[j] as int)
    ensures r.Failure? ==>
      && r.error.Unparsable? && r.error.key == ALLOWED_KEY && r.error.text in Split(text, ',')
      && Decimal.ParseInt(r.error.text, I64_MIN, I64_MAX) == Failure(r.error.kind)
  {
    var pieces := Split(text, ',');
    var ids: seq<I64> := [];
    var i := 0;
    while i < |pieces|
      invariant 0 <= i <= |pieces|
      invariant |ids| == i
      invariant forall j :: 0 <= j < i ==> Decimal.ParseInt(pieces[j], I64_MIN, I64_MAX) == Success(ids[j] as int)
    {
      var parsed := Decimal.ParseInt(pieces[i], I64_MIN, I64_MAX);
      if parsed.Failure? {
        return Failure(Unparsable(ALLOWED_KEY, pieces[i], parsed.error));
      }
      ids := ids + [parsed.value];
      i := i + 1;
    }
    assert forall p | p in pieces :: exists j :: 0 <= j < |pieces| && pieces[j] == p;
    r := Success(ids);
  }

  /**
   * `init_config_by_env`: collect the pairs (last wins), read the required keys,
   * parse the numbers, fill in defaults and constants. Each panic of the source
   * is a `Failure`.
   */
  method InitConfigByEnv(args: seq<(string, string)>) returns (r: Result<Variables, ConfigError>)
    ensures r.Success? <==> Acceptable(EnvMap(args))
    ensures r.Failure? ==> Explains(EnvMap(args), r.error)
    ensures r.Success? ==> Describes(EnvMap(args), r.value)
  {
    var env := CollectEnv(args);

    if ADMIN_KEY !in env {
      return Failure(NotSet(ADMIN_KEY));
    }
    var adminParsed := Decimal.ParseInt(env[ADMIN_KEY], I64_MIN, I64_MAX);
    if adminParsed.Failure? {
      return Failure(Unparsable(ADMIN_KEY, env[ADMIN_KEY], adminParsed.error));
    }
    var adminUserId: I64 := adminParsed.value;

    if ALLOWED_KEY !in env {
      return Failure(NotSet(ALLOWED_KEY));
    }
    var allowed :- ParseAllowedIds(env[ALLOWED_KEY]);
    // The extended list is built and then superseded by the record literal below.
    var allowedUserIds := allowed + [adminUserId];

    var width :- Setting(env, WIDTH_KEY, "640", 0, U16_MAX);
    var height :- Setting(env, HEIGHT_KEY, "480", 0, U16_MAX);
    var devIdx :- Setting(env, DEV_IDX_KEY, "0", 0, U8_MAX);
    if AUTH_TOKEN_KEY !in env {
      return Failure(NotSet(AUTH_TOKEN_KEY));
    }
    if DOMAIN_KEY !in env {
      return Failure(NotSet(DOMAIN_KEY));
    }
    var serverAddress := Lookup(env, SERVER_ADDRESS_KEY, "localhost:8080");
    if TOKEN_KEY !in env {
      return Failure(NotSet(TOKEN_KEY));
    }

    var camera := CameraConfig((1, 30), width, height, MJPG, BUF_COUNT, devIdx);
    var telegram := TelegramConfig(env[TOKEN_KEY], adminUserId, [adminUserId, BUILT_IN_USER_ID]);
    r := Success(Variables(camera, env[AUTH_TOKEN_KEY], env[DOMAIN_KEY], serverAddress, telegram, false, None));
  }

  /** Optional keys that no pair sets take their defaults: 640, 480, 0 and "localhost:8080". */
  lemma DefaultsWhenAbsent(env: Env, v: Variables)
    requires Describes(env, v)
    ensures WIDTH_KEY !in env ==> v.cameraConfig.width == 640
    ensures HEIGHT_KEY !in env ==> v.cameraConfig.height == 480
    ensures DEV_IDX_KEY !in env ==> v.cameraConfig.devIdx == 0
    ensures SERVER_ADDRESS_KEY !in env ==> v.serverAddress == "localhost:8080"
  {
    Decimal.DecRoundTrip(640, 0, U16_MAX);
    Decimal.DecRoundTrip(480, 0, U16_MAX);
    Decimal.DecRoundTrip(0, 0, U8_MAX);
  }

  /** The tunnel domain in the record is the value of the last `NGROK_DOMAIN` pair. */
  lemma LastDomainPairWins(args: seq<(string, string)>, v: Variables, i: nat)
    requires Describes(EnvMap(args), v)
    requires i < |args| && args[i].0 == DOMAIN_KEY
    requires forall j :: i < j < |args| ==> args[j].0 != DOMAIN_KEY
    ensures v.ngrokDomain == args[i].1
  {
    EnvMapLastWins(args, i);
  }

  /**
   * The allow-list text decides only whether the build succeeds: two
   * environments that differ in nothing else give the same record, and its
   * allow-list is the admin id followed by the built-in id.
   */
  lemma AllowListTextIgnored(env: Env, text1: string, text2: string, v1: Variables, v2: Variables)
    requires Describes(env[ALLOWED_KEY := text1], v1)
    requires Describes(env[ALLOWED_KEY := text2], v2)
    ensures v1 == v2
    ensures v1.telegramConfig.allowedUserIds == [v1.telegramConfig.adminUserId, BUILT_IN_USER_ID]
  {
    var e1, e2 := env[ALLOWED_KEY := text1], env[ALLOWED_KEY := text2];
    forall key | key != ALLOWED_KEY
      ensures (key in e1 <==> key in e2) && (key in e1 ==> e1[key] == e2[key])
    {
    }
    assert v1.cameraConfig == v2.cameraConfig;
    assert v1.telegramConfig == v2.telegramConfig;
  }

  /** A required key that no pair carries makes the environment unacceptable, so the build fails. */
  lemma MissingRequiredKeyFails(args: seq<(string, string)>, key: string)
    requires key in REQUIRED_KEYS
    requires forall i :: 0 <= i < |args| ==> args[i].0 != key
    ensures !Acceptable(EnvMap(args))
  {
    assert key !in EnvMap(args);
  }

  /** An empty entry in the allow-list text (e.g. after a trailing comma) fails the build. */
  lemma EmptyAllowedEntryFails(text: string)
    requires text == [] || text[|text| - 1] == ','
    ensures !AllowedIdsParse(text)
  {
    if text != [] {
      SplitTrailingSeparator(text, ',');
    }
    var pieces := Split(text, ',');
    assert pieces[|pieces| - 1] == "";
    assert Decimal.ParseInt(pieces[|pieces| - 1], I64_MIN, I64_MAX).Failure?;
  }
}
