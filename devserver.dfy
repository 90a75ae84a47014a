/** A dev server of the `dev` command: its address, the banner printed once
    both servers run, and the `DevServer` object that starts a process and
    reacts to what it prints. The process is the sequence of chunks it
    emits; the terminal is the sequence of writes the object makes. */
module DevServer {
  import opened Wrappers
  import opened Text
  import opened Terminal
  import opened Network
  import opened Frameworks
  import opened Errors

  // ---------------------------------------------------------------------
  // Addresses

  /** `ServerAddress`; a scheme that is missing or empty is left out when
      the address is formatted. */
  datatype ServerAddress = ServerAddress(scheme: Option<string>, host: string, port: nat)

  /** `formatServerAddress`. */
  function FormatServerAddress(a: ServerAddress): string {
    if a.scheme.Some? && a.scheme.value != "" then a.scheme.value + "://" + a.host + ":" + NatToString(a.port)
    else a.host + ":" + NatToString(a.port)
  }

  /** An empty scheme is falsy: it formats exactly like a missing one. */
  function NormalScheme(a: ServerAddress): ServerAddress {
    if a.scheme == Some("") then a.(scheme := None) else a
  }

  /** Reads an address back from `scheme://host:port` or `host:port`: the
      port follows the last colon, the scheme precedes the first `://`. */
  function ParseServerAddress(s: string): Option<ServerAddress> {
    var k := LastIndexOfChar(s, ':');
    if k.None? then None
    else
      var digits := s[k.value + 1..];
      var front := s[..k.value];
      if |digits| == 0 || !AllDigits(digits) then None
      else
        var m := IndexOfFrom(front, "://", 0);
        if m.Some? then Some(ServerAddress(Some(front[..m.value]), front[m.value + 3..], ParseNat(digits)))
        else Some(ServerAddress(None, front, ParseNat(digits)))
  }

  /** A host with a colon would make `host:port` ambiguous. */
  predicate Unambiguous(a: ServerAddress) {
    ':' !in a.host && (a.scheme.Some? ==> ':' !in a.scheme.value)
  }

  lemma NoSeparatorWithoutColon(s: string)
    requires ':' !in s
    ensures IndexOfFrom(s, "://", 0).None?
  {
    forall i | 0 <= i ensures !OccursAt(s, "://", i) {
      if i + 3 <= |s| {
        assert s[i..i + 3][0] == s[i];
      }
    }
  }

  /** The port follows the last colon of `front + ":" + digits`. */
  lemma SplitAtLastColon(front: string, port: nat)
    ensures LastIndexOfChar(front + ":" + NatToString(port), ':') == Some(|front|)
  {
    NatToStringHasNo(port, ':');
    LastIndexOfCharAt(front, ':', NatToString(port));
  }

  /** Formatting loses nothing: the address is read back from its text. */
  lemma {:induction false} FormatParse(a: ServerAddress)
    requires Unambiguous(a)
    ensures ParseServerAddress(FormatServerAddress(a)) == Some(NormalScheme(a))
  {
    var d := NatToString(a.port);
    ParseNatToString(a.port);
    var front := if a.scheme.Some? && a.scheme.value != "" then a.scheme.value + "://" + a.host else a.host;
    var s := FormatServerAddress(a);
    assert s == front + ":" + d;
    SplitAtLastColon(front, a.port);
    assert s[|front| + 1..] == d;
    assert s[..|front|] == front;
    if a.scheme.Some? && a.scheme.value != "" {
      var sch := a.scheme.value;
      assert OccursAt(front, "://", |sch|);
      var m := IndexOfFrom(front, "://", 0);
      forall j | 0 <= j < |sch| ensures !OccursAt(front, "://", j) {
        assert front[j..j + 3][0] == front[j] == sch[j];
      }
      assert m.Some? && m.value == |sch|;
      assert front[..|sch|] == sch;
      assert front[|sch| + 3..] == a.host;
    } else {
      NoSeparatorWithoutColon(a.host);
    }
  }

  /** The QR code always encodes `exp://<appHost>:<appPort>`. */
  function QrPayload(app: ServerAddress): string {
    "exp://" + app.host + ":" + NatToString(app.port)
  }

  /** The QR payload is the app address with the `exp` scheme in place of
      whatever scheme it was configured with. */
  lemma QrPayloadIsExpAddress(app: ServerAddress)
    requires ':' !in app.host
    ensures QrPayload(app) == FormatServerAddress(app.(scheme := Some("exp")))
    ensures ParseServerAddress(QrPayload(app)) == Some(ServerAddress(Some("exp"), app.host, app.port))
  {
    FormatParse(app.(scheme := Some("exp")));
  }

  /** What `printDevServerInfo` prints: the banner lines, the QR payload,
      then the instructions. */
  datatype Banner = Banner(messages: seq<string>, qr: string, instructions: seq<string>)

  function PrintDevServerInfo(web: ServerAddress, app: ServerAddress): Banner {
    Banner(
      ["", BannerHeading,
       Paint(Blue, "  Web: " + FormatServerAddress(web)),
       Paint(Blue, "  App: " + FormatServerAddress(app)), ""],
      QrPayload(app),
      BannerInstructions)
  }

  /** The banner's heading line. */
  const BannerHeading: string := Paint(Green, "\U{1F680} Server is running at:\n")

  /** The lines printed after the QR code. */
  const BannerInstructions: seq<string> :=
    ["", Paint(Yellow, "\U{1F4F1} Download 'Expo Go' app from App Store/Play Store and scan the QR code with phone camera\n"),
     Paint(Gray, "\U{1F4A1} App not installed? Get it at https://expo.dev/expo-go")]

  /** The banner shows both addresses in full, each recoverable from the
      printed line, and the QR code points at the app server. */
  lemma BannerShowsAddresses(web: ServerAddress, app: ServerAddress)
    requires Unambiguous(web) && Unambiguous(app)
    ensures var b := PrintDevServerInfo(web, app);
      && |b.messages| == 5
      && b.messages[2] == Paint(Blue, "  Web: " + FormatServerAddress(web))
      && ParseServerAddress(FormatServerAddress(web)) == Some(NormalScheme(web))
      && b.messages[3] == Paint(Blue, "  App: " + FormatServerAddress(app))
      && ParseServerAddress(FormatServerAddress(app)) == Some(NormalScheme(app))
      && ParseServerAddress(b.qr) == Some(ServerAddress(Some("exp"), app.host, app.port))
  {
    BannerLines(web, app);
    FormatParse(web);
    FormatParse(app);
    QrPayloadIsExpAddress(app);
  }

  /** The lines of the banner that carry the addresses. */
  lemma BannerLines(web: ServerAddress, app: ServerAddress)
    ensures var b := PrintDevServerInfo(web, app);
      && |b.messages| == 5
      && b.messages[2] == Paint(Blue, "  Web: " + FormatServerAddress(web))
      && b.messages[3] == Paint(Blue, "  App: " + FormatServerAddress(app))
      && b.qr == QrPayload(app)
  {
  }

  /** The URL `setWebServerAddress` writes to `EXPO_PUBLIC_WEBVIEW_URL`. */
  function WebviewUrl(host: string, port: nat): string {
    "http://" + host + ":" + NatToString(port)
  }

  /** `getServerAddress`: the configured address, or an error when the host
      is empty or the port is 0. */
  function GetServerAddress(a: ServerAddress): (r: Result<ServerAddress, Error>)
    ensures r.Ok? <==> a.host != "" && a.port != 0
    ensures r.Ok? ==> r.value == a
    ensures r.Err? ==> r.error == PlainError("Error while getting server info: Server not started")
  {
    if a.host == "" || a.port == 0 then Err(PlainError("Error while getting server info: Server not started"))
    else Ok(ServerAddress(a.scheme, a.host, a.port))
  }

  // ---------------------------------------------------------------------
  // Server configurations

  /** `DevServerConfig`; its command is the `getCommandConfig` of `framework`. */
  datatype ServerConfig = ServerConfig(framework: Framework, name: string, readyMessage: string,
                                       address: ServerAddress, log: LogConfig)

  /** `getDevServer`: the descriptor with an `http` address and the verbose flag. */
  function GetDevServer(d: Descriptor, host: string, port: nat, verbose: bool): ServerConfig {
    ServerConfig(d.framework, d.name, d.readyMessage, ServerAddress(Some("http"), host, port), d.log.(verbose := verbose))
  }

  /** The web address printed in the banner is the URL written to the Expo
      env file, and the configured address is reported back once the host
      and port are set; name, sentinel and tag come from the descriptor. */
  lemma DevServerAddressIsWebviewUrl(d: Descriptor, host: string, port: nat, verbose: bool)
    ensures FormatServerAddress(GetDevServer(d, host, port, verbose).address) == WebviewUrl(host, port)
    ensures GetServerAddress(GetDevServer(d, host, port, verbose).address).Ok? <==> host != "" && port != 0
    ensures var c := GetDevServer(d, host, port, verbose);
      c.framework == d.framework && c.name == d.name && c.readyMessage == d.readyMessage && c.log.logPrefix == d.log.logPrefix
      && c.log.logColor == d.log.logColor && c.log.verbose == verbose
  {
  }

  /** The error `start` throws when the command cannot be obtained or the
      process fails before it is ready. */
  function StartFailure(name: string, port: nat, errorMessage: string): (e: Error)
    ensures e.cls == Base && e.code == ServerStartFailed
    ensures e.message == "Failed to start server (" + name + ")"
    ensures Contains(errorMessage, "EACCES") ==>
      e.details == Some("Permission denied for port " + NatToString(port) + ". Please use a port number above 1024.")
    ensures !Contains(errorMessage, "EACCES") ==> e.details == Some(errorMessage)
  {
    Error(Base, "Failed to start server (" + name + ")", ServerStartFailed,
          Some(if Contains(errorMessage, "EACCES")
               then "Permission denied for port " + NatToString(port) + ". Please use a port number above 1024."
               else errorMessage))
  }

  /** `getEnv`: a default `PORT`, overridden by the parent environment,
      overridden in turn by the command's own variables. */
  function GetEnv(port: nat, parentEnv: map<string, string>, commandEnv: Option<map<string, string>>): (env: map<string, string>)
    ensures "PORT" in env
    ensures forall k | commandEnv.Some? && k in commandEnv.value :: k in env && env[k] == commandEnv.value[k]
    ensures forall k | k in parentEnv && !(commandEnv.Some? && k in commandEnv.value) :: k in env && env[k] == parentEnv[k]
    ensures "PORT" !in parentEnv && !(commandEnv.Some? && "PORT" in commandEnv.value) ==> env["PORT"] == NatToString(port)
    ensures env.Keys == {"PORT"} + parentEnv.Keys + (if commandEnv.Some? then commandEnv.value.Keys else {})
  {
    map["PORT" := NatToString(port)] + parentEnv + (if commandEnv.Some? then commandEnv.value else map[])
  }

  /** What `spawn` is called with: the command's own variables override the
      parent environment. */
  datatype Spawned = Spawned(command: string, args: seq<string>, env: map<string, string>, cwd: Option<string>)

  function SpawnOf(c: CommandConfig, parentEnv: map<string, string>): (s: Spawned)
    ensures s.command == c.command && s.args == c.args && s.cwd == c.cwd
    ensures forall k | c.env.Some? && k in c.env.value :: k in s.env && s.env[k] == c.env.value[k]
    ensures forall k | k in parentEnv && !(c.env.Some? && k in c.env.value) :: k in s.env && s.env[k] == parentEnv[k]
    ensures forall k | k in s.env :: k in parentEnv || (c.env.Some? && k in c.env.value)
  {
    Spawned(c.command, c.args, parentEnv + (if c.env.Some? then c.env.value else map[]), c.cwd)
  }

  /** A server built by `getDevServer` spawns its command for its own
      address: Next.js gets the host as `-H` and the port as `PORT`, which
      overrides any `PORT` of the parent environment; Expo gets the port as
      `--port` and runs in the Expo project. Only the Expo lookup can fail. */
  lemma DevServerSpawnsAtItsAddress(f: Framework, host: string, port: nat, verbose: bool,
                                    expoRoot: Result<string, string>, parentEnv: map<string, string>)
    ensures var cfg := GetDevServer(DescriptorOf(f), host, port, verbose);
      ObtainCommand(cfg.framework, cfg.address.host, cfg.address.port, expoRoot).Ok? <==> f == NextJs || expoRoot.Ok?
    ensures var cfg := GetDevServer(DescriptorOf(f), host, port, verbose);
      var command := ObtainCommand(cfg.framework, cfg.address.host, cfg.address.port, expoRoot);
      f == NextJs ==>
        NextAddressOf(command.value) == Some((host, port))
        && "PORT" in SpawnOf(command.value, parentEnv).env
        && SpawnOf(command.value, parentEnv).env["PORT"] == NatToString(port)
    ensures var cfg := GetDevServer(DescriptorOf(f), host, port, verbose);
      var command := ObtainCommand(cfg.framework, cfg.address.host, cfg.address.port, expoRoot);
      f == Expo && expoRoot.Ok? ==>
        ExpoPortOf(command.value) == Some(port)
        && SpawnOf(command.value, parentEnv).cwd == Some(expoRoot.value)
  {
    if f == NextJs {
      NextCommandCarriesAddress(host, port, "");
    } else if expoRoot.Ok? {
      ExpoCommandIgnoresHost(host, host, port, expoRoot.value);
    }
  }

  // ---------------------------------------------------------------------
  // Reacting to the process

  /** What the process emits: a chunk on stdout, a chunk on stderr, or an
      `error` event. */
  datatype Chunk = Stdout(text: string) | Stderr(text: string) | ProcessError(message: string)

  /** A write to the terminal, in order: to stdout, to stderr, or through
      the logger. */
  datatype Output = StdoutWrite(text: string) | StderrWrite(text: string) | Log(entry: LogEntry)

  /** The promise `start` waits on. */
  datatype Settle = Pending | Resolved | Rejected(reason: string)

  /** What the object's handlers have done so far. */
  datatype State = State(isReady: bool, outcome: Settle, out: seq<Output>)

  /** The tag `setupLogging` puts before a line: the coloured prefix and a space. */
  function LineTag(log: LogConfig): string {
    Paint(log.logColor, log.logPrefix) + " "
  }

  /** `message.split("\n").map(line => line.trim() ? tag + line : line).join("\n")`. */
  function PrefixLines(log: LogConfig, message: string): string {
    TagLines(LineTag(log), message)
  }

  /** Prefixing keeps the line structure: the same number of newlines, a
      blank line passes through unchanged, and every other line gains the
      coloured tag and a space. */
  lemma PrefixLinesKeepsLines(log: LogConfig, message: string)
    requires '\n' !in log.logPrefix
    ensures CountChar(PrefixLines(log, message), '\n') == CountChar(message, '\n')
    ensures |Split(PrefixLines(log, message))| == |Split(message)|
    ensures forall i | 0 <= i < |Split(message)| ::
      Split(PrefixLines(log, message))[i] ==
        (if IsBlank(Split(message)[i]) then Split(message)[i]
         else Paint(log.logColor, log.logPrefix) + " " + Split(message)[i])
  {
    PaintShape(log.logColor, log.logPrefix);
    assert '\n' !in LineTag(log);
    TagLinesKeepsLines(LineTag(log), message);
  }

  /** A stdout chunk that carries the ready message. */
  predicate IsSentinel(cfg: ServerConfig, c: Chunk) {
    c.Stdout? && Contains(c.text, cfg.readyMessage)
  }

  /** A chunk that settles a pending start: the sentinel or an error event. */
  predicate Settles(cfg: ServerConfig, c: Chunk) {
    IsSentinel(cfg, c) || c.ProcessError?
  }

  /** How a chunk settles a pending start. */
  function SettleOf(cfg: ServerConfig, c: Chunk): Settle {
    if IsSentinel(cfg, c) then Resolved
    else if c.ProcessError? then Rejected(c.message)
    else Pending
  }

  /** The state right after `start` has spawned the process and registered
      its handlers; in verbose mode it says what it waits for. */
  function Started(cfg: ServerConfig, isReady: bool, out: seq<Output>): State {
    State(isReady, Pending, out + WaitingNotice(cfg))
  }

  function WaitingNotice(cfg: ServerConfig): seq<Output> {
    if cfg.log.verbose then
      [Log(LogInfo(cfg.log.logPrefix + " Waiting for ready message: \"" + cfg.readyMessage + "\"", cfg.log.logColor))]
    else []
  }

  /** The writes one chunk causes in the state `s`. The stdout listener of
      `setupLogging` is registered before the one of `waitForReady`, so a
      chunk is forwarded according to the readiness before it. */
  function Emitted(cfg: ServerConfig, s: State, c: Chunk): seq<Output> {
    match c
    case Stdout(m) =>
      (if s.isReady || cfg.log.verbose then [StdoutWrite(PrefixLines(cfg.log, m))] else [])
      + (if Contains(m, cfg.readyMessage) && cfg.log.verbose
         then [Log(LogInfo(cfg.log.logPrefix + " Server is ready!", cfg.log.logColor))] else [])
    case Stderr(m) =>
      if cfg.log.verbose then [StderrWrite(Paint(Red, cfg.log.logPrefix + " " + m))] else []
    case ProcessError(m) =>
      [Log(LogError(cfg.name + " server failed: " + m))]
  }

  /** One chunk handled by all listeners of the process. A settled promise
      stays settled. */
  function Step(cfg: ServerConfig, s: State, c: Chunk): State {
    State(s.isReady || IsSentinel(cfg, c),
          if s.outcome.Pending? then SettleOf(cfg, c) else s.outcome,
          s.out + Emitted(cfg, s, c))
  }

  /** `Step` on a stdout chunk, spelled out. */
  lemma StepStdout(cfg: ServerConfig, s: State, m: string)
    ensures Step(cfg, s, Stdout(m)) == State(s.isReady || Contains(m, cfg.readyMessage),
      if s.outcome.Pending? && Contains(m, cfg.readyMessage) then Resolved else s.outcome,
      s.out + (if s.isReady || cfg.log.verbose then [StdoutWrite(PrefixLines(cfg.log, m))] else [])
      + (if Contains(m, cfg.readyMessage) && cfg.log.verbose
         then [Log(LogInfo(cfg.log.logPrefix + " Server is ready!", cfg.log.logColor))] else []))
  {
  }

  /** The chunks handled one after the other. */
  function Replay(cfg: ServerConfig, s: State, cs: seq<Chunk>): State
    decreases |cs|
  {
    if |cs| == 0 then s else Replay(cfg, Step(cfg, s, cs[0]), cs[1..])
  }

  lemma {:induction false} ReplaySnoc(cfg: ServerConfig, s: State, cs: seq<Chunk>, c: Chunk)
    ensures Replay(cfg, s, cs + [c]) == Step(cfg, Replay(cfg, s, cs), c)
    decreases |cs|
  {
    if |cs| == 0 {
      assert ([] + [c])[1..] == [];
    } else {
      assert (cs + [c])[0] == cs[0];
      assert (cs + [c])[1..] == cs[1..] + [c];
      ReplaySnoc(cfg, Step(cfg, s, cs[0]), cs[1..], c);
    }
  }

  /** A server never becomes un-ready, and it is ready exactly when it was
      ready before or some stdout chunk carried the ready message. */
  lemma {:induction false} ReadyIffSentinelSeen(cfg: ServerConfig, s: State, cs: seq<Chunk>)
    ensures s.isReady ==> Replay(cfg, s, cs).isReady
    ensures Replay(cfg, s, cs).isReady <==> s.isReady || exists j | 0 <= j < |cs| :: IsSentinel(cfg, cs[j])
    decreases |cs|
  {
    if |cs| > 0 {
      ReadyIffSentinelSeen(cfg, Step(cfg, s, cs[0]), cs[1..]);
      if exists j | 0 <= j < |cs| :: IsSentinel(cfg, cs[j]) {
        var j :| 0 <= j < |cs| && IsSentinel(cfg, cs[j]);
        if j > 0 { assert cs[1..][j - 1] == cs[j]; }
      }
      if exists j | 0 <= j < |cs[1..]| :: IsSentinel(cfg, cs[1..][j]) {
        var j :| 0 <= j < |cs[1..]| && IsSentinel(cfg, cs[1..][j]);
        assert cs[j + 1] == cs[1..][j];
      }
    }
  }

  /** Once `start` has settled, no later chunk changes its outcome. */
  lemma {:induction false} OutcomeIsStable(cfg: ServerConfig, s: State, cs: seq<Chunk>)
    requires !s.outcome.Pending?
    ensures Replay(cfg, s, cs).outcome == s.outcome
    decreases |cs|
  {
    if |cs| > 0 {
      var s1 := Step(cfg, s, cs[0]);
      assert Replay(cfg, s, cs) == Replay(cfg, s1, cs[1..]);
      assert s1.outcome == s.outcome;
      OutcomeIsStable(cfg, s1, cs[1..]);
    }
  }

  /** `start` stays pending while no chunk settles it. */
  lemma {:induction false} OutcomePendingWithoutSettling(cfg: ServerConfig, s: State, cs: seq<Chunk>)
    requires s.outcome.Pending?
    requires forall j | 0 <= j < |cs| :: !Settles(cfg, cs[j])
    ensures Replay(cfg, s, cs).outcome.Pending?
    decreases |cs|
  {
    if |cs| > 0 {
      var s1 := Step(cfg, s, cs[0]);
      assert Replay(cfg, s, cs) == Replay(cfg, s1, cs[1..]);
      assert !Settles(cfg, cs[0]);
      assert forall j | 0 <= j < |cs[1..]| :: cs[1..][j] == cs[j + 1];
      OutcomePendingWithoutSettling(cfg, s1, cs[1..]);
    }
  }

  /** The first settling chunk decides `start`: resolved by the first
      sentinel, rejected by an error event that comes before it. */
  lemma {:induction false} OutcomeIsFirstSettling(cfg: ServerConfig, s: State, cs: seq<Chunk>, k: nat)
    requires s.outcome.Pending?
    requires k < |cs| && Settles(cfg, cs[k])
    requires forall j | 0 <= j < k :: !Settles(cfg, cs[j])
    ensures Replay(cfg, s, cs).outcome == SettleOf(cfg, cs[k])
    decreases |cs|
  {
    var s1 := Step(cfg, s, cs[0]);
    assert Replay(cfg, s, cs) == Replay(cfg, s1, cs[1..]);
    assert s1.outcome == SettleOf(cfg, cs[0]);
    if k == 0 {
      OutcomeIsStable(cfg, s1, cs[1..]);
    } else {
      assert !Settles(cfg, cs[0]);
      assert forall j | 0 <= j < k - 1 :: cs[1..][j] == cs[j + 1];
      OutcomeIsFirstSettling(cfg, s1, cs[1..], k - 1);
    }
  }

  /** Some chunk before index `k` carried the ready message. */
  predicate ReadyBefore(cfg: ServerConfig, cs: seq<Chunk>, k: nat)
    requires k <= |cs|
  {
    exists j | 0 <= j < k :: IsSentinel(cfg, cs[j])
  }

  /** Chunk `k` of a freshly started server is forwarded to stdout exactly
      when the server is verbose or an earlier chunk carried the ready
      message; the chunk that carries it is judged before it counts. */
  lemma StdoutForwarding(cfg: ServerConfig, isReady0: bool, out0: seq<Output>, cs: seq<Chunk>, k: nat)
    requires !isReady0
    requires k < |cs| && cs[k].Stdout?
    ensures var s := Replay(cfg, Started(cfg, isReady0, out0), cs[..k]);
      (StdoutWrite(PrefixLines(cfg.log, cs[k].text)) in Emitted(cfg, s, cs[k])) <==>
      (cfg.log.verbose || ReadyBefore(cfg, cs, k))
  {
    var s := Replay(cfg, Started(cfg, isReady0, out0), cs[..k]);
    ReadyIffSentinelSeen(cfg, Started(cfg, isReady0, out0), cs[..k]);
    assert forall j | 0 <= j < k :: cs[..k][j] == cs[j];
  }

  /** In quiet mode the chunk that first carries the ready message is
      itself not printed. */
  lemma SentinelChunkIsSuppressed(cfg: ServerConfig, out0: seq<Output>, cs: seq<Chunk>, k: nat)
    requires !cfg.log.verbose
    requires k < |cs| && IsSentinel(cfg, cs[k])
    requires forall j | 0 <= j < k :: !IsSentinel(cfg, cs[j])
    ensures var s := Replay(cfg, Started(cfg, false, out0), cs[..k]);
      Emitted(cfg, s, cs[k]) == []
  {
    StdoutForwarding(cfg, false, out0, cs, k);
    var s := Replay(cfg, Started(cfg, false, out0), cs[..k]);
    ReadyIffSentinelSeen(cfg, Started(cfg, false, out0), cs[..k]);
    assert forall j | 0 <= j < k :: cs[..k][j] == cs[j];
    assert !s.isReady;
  }

  /** stderr is forwarded in verbose mode only, whatever the readiness, and
      it changes neither readiness nor the outcome of `start`. */
  lemma StderrOnlyWhenVerbose(cfg: ServerConfig, s1: State, s2: State, m: string)
    ensures Emitted(cfg, s1, Stderr(m)) == Emitted(cfg, s2, Stderr(m))
    ensures Emitted(cfg, s1, Stderr(m)) != [] <==> cfg.log.verbose
    ensures Step(cfg, s1, Stderr(m)).isReady == s1.isReady
    ensures Step(cfg, s1, Stderr(m)).outcome == s1.outcome
  {
  }

  /** What `start` amounts to once the chunks so far are handled. */
  datatype StartResult = Waiting | Running | Failed(error: Error)

  function ResultOf(cfg: ServerConfig, outcome: Settle): StartResult {
    match outcome
    case Pending => Waiting
    case Resolved => Running
    case Rejected(m) => Failed(StartFailure(cfg.name, cfg.address.port, m))
  }

  // ---------------------------------------------------------------------
  // The object

  /** `DevServer`: the configuration it was built with, the readiness flag,
      the spawned process, the promise of `start`, and the terminal. */
  class Server {
    const config: ServerConfig
    var isReady: bool
    var process: Option<Spawned>
    var outcome: Settle
    var terminal: seq<Output>
    var kills: nat

    function Snapshot(): State
      reads this
    {
      State(isReady, outcome, terminal)
    }

    constructor(config: ServerConfig)
      ensures this.config == config
      ensures !isReady && process.None? && outcome.Pending? && terminal == [] && kills == 0
    {
      this.config := config;
      isReady := false;
      process := None;
      outcome := Pending;
      terminal := [];
      kills := 0;
    }

    /** `getServerAddress`. */
    function ServerAddressOrError(): (r: Result<ServerAddress, Error>)
      reads this
      ensures r.Ok? <==> config.address.host != "" && config.address.port != 0
      ensures r.Ok? ==> r.value == config.address
    {
      GetServerAddress(config.address)
    }

    /** `start` up to the point where it waits: the command is obtained for
        the server's own host and port; `expoRoot` is the Expo project
        directory the Expo command looks up, or the message that lookup
        failed with. */
    method Start(expoRoot: Result<string, string>, parentEnv: map<string, string>)
      modifies this
      ensures var command := ObtainCommand(config.framework, config.address.host, config.address.port, expoRoot);
        command.Ok? ==> process == Some(SpawnOf(command.value, parentEnv))
      ensures var command := ObtainCommand(config.framework, config.address.host, config.address.port, expoRoot);
        command.Ok? ==> Snapshot() == Started(config, old(isReady), old(terminal))
      ensures var command := ObtainCommand(config.framework, config.address.host, config.address.port, expoRoot);
        command.Err? ==> process == old(process) && isReady == old(isReady) && terminal == old(terminal)
      ensures var command := ObtainCommand(config.framework, config.address.host, config.address.port, expoRoot);
        command.Err? ==> outcome == Rejected(command.error)
      ensures kills == old(kills)
    {
      var command := ObtainCommand(config.framework, config.address.host, config.address.port, expoRoot);
      if command.Err? {
        outcome := Rejected(command.error);
        return;
      }
      var c := command.value;
      process := Some(Spawned(c.command, c.args, parentEnv + (if c.env.Some? then c.env.value else map[]), c.cwd));
      outcome := Pending;
      if config.log.verbose {
        terminal := terminal + [Log(LogInfo(config.log.logPrefix + " Waiting for ready message: \"" + config.readyMessage + "\"", config.log.logColor))];
      }
    }

    /** What `start` returns or throws, once settled. */
    function StartOutcome(): StartResult
      reads this
    {
      ResultOf(config, outcome)
    }

    /** A stdout chunk: first the listener of `setupLogging` forwards it
        when the server is ready or verbose, then the listener of
        `waitForReady` looks for the ready message. */
    method HandleStdout(message: string)
      requires process.Some?
      modifies this`isReady, this`outcome, this`terminal
      ensures Snapshot() == Step(config, old(Snapshot()), Stdout(message))
    {
      ghost var s0 := Snapshot();
      var hasReadyMessage := Contains(message, config.readyMessage);
      var out := terminal;
      if isReady || config.log.verbose {
        out := out + [StdoutWrite(PrefixLines(config.log, message))];
      }
      if hasReadyMessage {
        isReady := true;
        if config.log.verbose {
          out := out + [Log(LogInfo(config.log.logPrefix + " Server is ready!", config.log.logColor))];
        }
        if outcome.Pending? {
          outcome := Resolved;
        }
      }
      terminal := out;
      assert isReady == (s0.isReady || hasReadyMessage);
      assert outcome == (if s0.outcome.Pending? && hasReadyMessage then Resolved else s0.outcome);
      assert terminal == s0.out + (if s0.isReady || config.log.verbose then [StdoutWrite(PrefixLines(config.log, message))] else [])
        + (if hasReadyMessage && config.log.verbose
           then [Log(LogInfo(config.log.logPrefix + " Server is ready!", config.log.logColor))] else []);
      StepStdout(config, s0, message);
    }

    /** A stderr chunk, written in red in verbose mode only. */
    method HandleStderr(message: string)
      requires process.Some?
      modifies this`isReady, this`outcome, this`terminal
      ensures Snapshot() == Step(config, old(Snapshot()), Stderr(message))
    {
      if config.log.verbose {
        terminal := terminal + [StderrWrite(Paint(Red, config.log.logPrefix + " " + message))];
      }
    }

    /** An `error` event: logged, and it rejects a pending start. */
    method HandleError(message: string)
      requires process.Some?
      modifies this`isReady, this`outcome, this`terminal
      ensures Snapshot() == Step(config, old(Snapshot()), ProcessError(message))
    {
      terminal := terminal + [Log(LogError(config.name + " server failed: " + message))];
      if outcome.Pending? {
        outcome := Rejected(message);
      }
    }

    /** One chunk of the process, handed to the listeners it reaches. */
    method HandleChunk(c: Chunk)
      requires process.Some?
      modifies this`isReady, this`outcome, this`terminal
      ensures Snapshot() == Step(config, old(Snapshot()), c)
    {
      match c {
        case Stdout(message) => HandleStdout(message);
        case Stderr(message) => HandleStderr(message);
        case ProcessError(message) => HandleError(message);
      }
    }

    /** Every chunk of `cs`, in order. */
    method Feed(cs: seq<Chunk>)
      requires process.Some?
      modifies this`isReady, this`outcome, this`terminal
      ensures Snapshot() == Replay(config, old(Snapshot()), cs)
    {
      ghost var s0 := Snapshot();
      var i := 0;
      while i < |cs|
        invariant 0 <= i <= |cs|
        invariant Snapshot() == Replay(config, s0, cs[..i])
      {
        ghost var before := Snapshot();
        ReplaySnoc(config, s0, cs[..i], cs[i]);
        assert cs[..i + 1] == cs[..i] + [cs[i]];
        HandleChunk(cs[i]);
        assert Snapshot() == Step(config, before, cs[i]);
        i := i + 1;
      }
      assert cs[..i] == cs;
    }

    /** `kill`: a signal is sent only when a process was spawned. */
    method Kill()
      modifies this`kills
      ensures kills == old(kills) + (if process.Some? then 1 else 0)
    {
      if process.Some? {
        kills := kills + 1;
      }
    }
  }

  // ---------------------------------------------------------------------
  // Choosing the addresses

  /** What `saveToSystemFile` records for a server. */
  datatype LastAddress = LastAddress(lastHost: string, lastPort: nat)

  /** `setWebServerAddress`: an address among the web ports, recorded, and
      published to the Expo app as its webview URL. */
  method SetWebServerAddress(preferredHost: Option<string>, preferredPort: Option<int>,
                             nets: Interfaces, getPort: PortRequest -> nat)
    returns (host: string, port: nat, saved: LastAddress, envUpdate: seq<(string, string)>)
    ensures host == ChooseHost(preferredHost, LocalIp(nets))
    ensures port == getPort(PortRequestFor(preferredPort, Some(WebPorts)))
    ensures saved == LastAddress(host, port)
    ensures envUpdate == [("EXPO_PUBLIC_WEBVIEW_URL", WebviewUrl(host, port))]
  {
    host, port := GetAvailableAddress(preferredHost, preferredPort, Some(WebPorts), nets, getPort);
    saved := LastAddress(host, port);
    envUpdate := [("EXPO_PUBLIC_WEBVIEW_URL", "http://" + host + ":" + NatToString(port))];
  }

  /** `setAppServerAddress`: an address among the Expo ports, recorded. */
  method SetAppServerAddress(preferredHost: Option<string>, preferredPort: Option<int>,
                             nets: Interfaces, getPort: PortRequest -> nat)
    returns (host: string, port: nat, saved: LastAddress)
    ensures host == ChooseHost(preferredHost, LocalIp(nets))
    ensures port == getPort(PortRequestFor(preferredPort, Some(ExpoPorts)))
    ensures saved == LastAddress(host, port)
  {
    host, port := GetAvailableAddress(preferredHost, preferredPort, Some(ExpoPorts), nets, getPort);
    saved := LastAddress(host, port);
  }
}
