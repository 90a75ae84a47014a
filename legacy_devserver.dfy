/** The earlier dev flow of the react2app tool: one fixed address per
    server computed when the module loads, the launch command of the web
    server by framework, and per server a `isLogging` flag that decides
    which chunks of the child's stdout are echoed. */
module LegacyDevServer {
  import opened Wrappers
  import opened Text
  import opened Terminal
  import opened Network
  import opened Frameworks
  import opened DevServer
  import opened Project
  import opened Errors

  /** A `HOST`/`PORT` pair of `devServerConfig`; the port is a string. */
  datatype HostPort = HostPort(host: string, port: string)

  /** `devServerConfig`. */
  datatype ServerTable = ServerTable(react: HostPort, expo: HostPort)

  /** `devServerConfig`: both servers on the machine's LAN address, the web
      server on 3000 and the Expo server on 8081. */
  method DevServerConfig(nets: Interfaces) returns (table: ServerTable)
    ensures table == ServerTable(HostPort(LocalIp(nets), "3000"), HostPort(LocalIp(nets), "8081"))
  {
    var reactHost := GetLocalIpAddress(nets);
    var expoHost := GetLocalIpAddress(nets);
    table := ServerTable(HostPort(reactHost, "3000"), HostPort(expoHost, "8081"));
  }

  /** A program and its arguments. */
  datatype Launch = Launch(command: string, args: seq<string>)

  /** `devServerCommand`. */
  function DevServerCommand(f: ReactFramework, react: HostPort): Launch {
    match f
    case NextJsApp => Launch("npx", ["next", "dev", "-H", react.host, "-p", react.port])
    case ReactApp => Launch("npm", ["run", "start"])
  }

  lemma NatToStringSamples()
    ensures NatToString(3000) == "3000" && NatToString(8081) == "8081"
  {
    assert NatToString(3) == "3";
    assert NatToString(30) == "30";
    assert NatToString(300) == "300";
    assert NatToString(8) == "8";
    assert NatToString(80) == "80";
    assert NatToString(808) == "808";
  }

  /** The Next.js launch is the one of the Next.js descriptor with the port
      passed as `-p 3000` as well; plain React runs `npm run start`, which
      depends on no address. */
  lemma LaunchCommands(host: string, expoRoot: string, other: HostPort)
    ensures DevServerCommand(NextJsApp, HostPort(host, "3000")) ==
      Launch("npx", GetCommandConfig(NextJs, host, 3000, expoRoot).args + ["-p", NatToString(3000)])
    ensures DevServerCommand(ReactApp, HostPort(host, "3000")) == DevServerCommand(ReactApp, other)
    ensures DevServerCommand(ReactApp, other) == Launch("npm", ["run", "start"])
  {
    NatToStringSamples();
  }

  /** The two servers of the earlier flow. */
  datatype Kind = Web | App

  /** `READY_MESSAGE` of each server. */
  function ReadyMessage(k: Kind): string {
    match k
    case Web => "Ready"
    case App => ExpoReadyMessage
  }

  /** What each echoed line starts with: `[Web] ` with a space, or the blue
      `[App]` tag glued to the line. */
  function Tag(k: Kind): string {
    match k
    case Web => "[Web] "
    case App => Paint(Blue, "[App]")
  }

  /** The web tag ends in a space, the app tag in the colour reset. */
  lemma TagsDiffer()
    ensures Tag(Web)[|Tag(Web)| - 1] == ' '
    ensures Tag(App)[|Tag(App)| - 1] != ' '
    ensures '\n' !in Tag(Web) && '\n' !in Tag(App)
  {
    PaintShape(Blue, "[App]");
    assert Tag(App)[|Tag(App)| - 1] == CloseCode[|CloseCode| - 1];
  }

  /** What `spawn` is given: `HOST` and `PORT` override the parent environment. */
  function LaunchEnv(parentEnv: map<string, string>, hp: HostPort): (env: map<string, string>)
    ensures "HOST" in env && env["HOST"] == hp.host && "PORT" in env && env["PORT"] == hp.port
    ensures forall k | k in parentEnv && k != "HOST" && k != "PORT" :: k in env && env[k] == parentEnv[k]
    ensures env.Keys == parentEnv.Keys + {"HOST", "PORT"}
  {
    parentEnv + map["HOST" := hp.host, "PORT" := hp.port]
  }

  /** `runReactDevServer` up to the spawn: the project root and the
      framework, each of which may have failed, decide the launch; any
      failure becomes the web server error. */
  function LaunchReact(rootDir: Result<string, Error>, framework: Result<ReactFramework, Error>,
                       table: ServerTable, parentEnv: map<string, string>): (r: Result<Spawned, Error>)
    ensures r.Err? <==> rootDir.Err? || framework.Err?
    ensures r.Err? ==> r.error == Error(WebErr, "Web server failed to start", WebServerFailed, None)
    ensures r.Ok? ==>
      && r.value.cwd == Some(rootDir.value)
      && r.value.env == LaunchEnv(parentEnv, table.react)
      && Launch(r.value.command, r.value.args) == DevServerCommand(framework.value, table.react)
  {
    if rootDir.Err? || framework.Err? then Err(Error(WebErr, "Web server failed to start", WebServerFailed, None))
    else
      var l := DevServerCommand(framework.value, table.react);
      Ok(Spawned(l.command, l.args, LaunchEnv(parentEnv, table.react), Some(rootDir.value)))
  }

  /** `runExpoDevServer` up to the spawn: `npx expo start` in the Expo
      project, or the Expo server error when its paths are not available. */
  function LaunchExpo(expoRootDir: Result<string, Error>, table: ServerTable,
                      parentEnv: map<string, string>): (r: Result<Spawned, Error>)
    ensures r.Err? <==> expoRootDir.Err?
    ensures r.Err? ==> r.error == Error(ExpoErr, "Expo server failed to start", ExpoServerFailed, None)
    ensures r.Ok? ==> r.value == Spawned("npx", ["expo", "start"], LaunchEnv(parentEnv, table.expo), Some(expoRootDir.value))
  {
    if expoRootDir.Err? then Err(Error(ExpoErr, "Expo server failed to start", ExpoServerFailed, None))
    else Ok(Spawned("npx", ["expo", "start"], LaunchEnv(parentEnv, table.expo), Some(expoRootDir.value)))
  }

  // ---------------------------------------------------------------------
  // Echoing the child's stdout

  /** The `isLogging` flag, whether the promise has resolved, and what was
      written to stdout. */
  datatype EchoState = EchoState(isLogging: bool, resolved: bool, out: seq<string>)

  const Quiet: EchoState := EchoState(false, false, [])

  /** What one stdout chunk makes the handler write. The web handler first
      raises the flag and then refuses any chunk holding "Ready"; the app
      handler returns early on the ready message and echoes otherwise once
      the flag is up. */
  function Echoed(k: Kind, s: EchoState, m: string): seq<string> {
    match k
    case Web =>
      var isLogging := s.isLogging || Contains(m, ReadyMessage(Web));
      if isLogging && !Contains(m, "Ready") then [TagLines(Tag(Web), m)] else []
    case App =>
      if Contains(m, ReadyMessage(App)) then []
      else if s.isLogging then [TagLines(Tag(App), m)] else []
  }

  function EchoStep(k: Kind, s: EchoState, m: string): EchoState {
    EchoState(s.isLogging || Contains(m, ReadyMessage(k)),
              s.resolved || Contains(m, ReadyMessage(k)),
              s.out + Echoed(k, s, m))
  }

  function EchoReplay(k: Kind, s: EchoState, cs: seq<string>): EchoState
    decreases |cs|
  {
    if |cs| == 0 then s else EchoReplay(k, EchoStep(k, s, cs[0]), cs[1..])
  }

  lemma {:induction false} EchoReplaySnoc(k: Kind, s: EchoState, cs: seq<string>, m: string)
    ensures EchoReplay(k, s, cs + [m]) == EchoStep(k, EchoReplay(k, s, cs), m)
    decreases |cs|
  {
    if |cs| == 0 {
      assert ([] + [m])[1..] == [];
    } else {
      assert (cs + [m])[0] == cs[0];
      assert (cs + [m])[1..] == cs[1..] + [m];
      EchoReplaySnoc(k, EchoStep(k, s, cs[0]), cs[1..], m);
    }
  }

  /** One more chunk of `cs` handled. */
  lemma EchoReplayNext(k: Kind, s0: EchoState, done: seq<string>, m: string, before: EchoState, after: EchoState)
    requires before == EchoReplay(k, s0, done) && after == EchoStep(k, before, m)
    ensures after == EchoReplay(k, s0, done + [m])
  {
    EchoReplaySnoc(k, s0, done, m);
  }

  /** Some chunk before index `i` held the ready message. */
  predicate SeenBefore(k: Kind, cs: seq<string>, i: nat)
    requires i <= |cs|
  {
    exists j | 0 <= j < i :: Contains(cs[j], ReadyMessage(k))
  }

  /** The flag and the promise are both raised by the first chunk holding
      the ready message and never lowered. */
  lemma {:induction false} FlagIffSeen(k: Kind, s: EchoState, cs: seq<string>)
    ensures EchoReplay(k, s, cs).isLogging <==> s.isLogging || SeenBefore(k, cs, |cs|)
    ensures EchoReplay(k, s, cs).resolved <==> s.resolved || SeenBefore(k, cs, |cs|)
    decreases |cs|
  {
    if |cs| > 0 {
      FlagIffSeen(k, EchoStep(k, s, cs[0]), cs[1..]);
      if SeenBefore(k, cs, |cs|) {
        var j :| 0 <= j < |cs| && Contains(cs[j], ReadyMessage(k));
        if j > 0 { assert cs[1..][j - 1] == cs[j]; }
      }
      if SeenBefore(k, cs[1..], |cs[1..]|) {
        var j :| 0 <= j < |cs[1..]| && Contains(cs[1..][j], ReadyMessage(k));
        assert cs[j + 1] == cs[1..][j];
      }
    }
  }

  /** Chunk `i` is echoed exactly when it does not hold the ready message
      and an earlier chunk did; it is then echoed whole, line by line
      tagged. Nothing is echoed before readiness, and no chunk holding the
      ready message ever is. */
  lemma EchoRule(k: Kind, cs: seq<string>, i: nat)
    requires i < |cs|
    ensures var e := Echoed(k, EchoReplay(k, Quiet, cs[..i]), cs[i]);
      && (e != [] <==> !Contains(cs[i], ReadyMessage(k)) && SeenBefore(k, cs, i))
      && (e != [] ==> e == [TagLines(Tag(k), cs[i])])
  {
    FlagIffSeen(k, Quiet, cs[..i]);
    assert forall j | 0 <= j < i :: cs[..i][j] == cs[j];
    assert SeenBefore(k, cs[..i], i) <==> SeenBefore(k, cs, i);
  }

  /** The two servers echo line by line: the same number of newlines, blank
      lines untouched, the web tag with a space and the app tag without. */
  lemma EchoKeepsLines(k: Kind, m: string)
    ensures CountChar(TagLines(Tag(k), m), '\n') == CountChar(m, '\n')
    ensures |Split(TagLines(Tag(k), m))| == |Split(m)|
    ensures forall i | 0 <= i < |Split(m)| ::
      Split(TagLines(Tag(k), m))[i] == (if IsBlank(Split(m)[i]) then Split(m)[i] else Tag(k) + Split(m)[i])
  {
    var t := Tag(k);
    assert '\n' !in t by { TagsDiffer(); }
    TagLinesKeepsLines(t, m);
  }

  /** A server of the earlier flow, after its process was spawned. */
  class EchoServer {
    const kind: Kind
    var isLogging: bool
    var resolved: bool
    var terminal: seq<string>

    function Snapshot(): EchoState
      reads this
    {
      EchoState(isLogging, resolved, terminal)
    }

    constructor(kind: Kind)
      ensures this.kind == kind && Snapshot() == Quiet
    {
      this.kind := kind;
      isLogging := false;
      resolved := false;
      terminal := [];
    }

    /** The stdout handler. */
    method HandleStdout(message: string)
      modifies this`isLogging, this`resolved, this`terminal
      ensures Snapshot() == EchoStep(kind, old(Snapshot()), message)
    {
      var hasReady := Contains(message, ReadyMessage(kind));
      if kind == Web {
        if hasReady {
          resolved := true;
          isLogging := true;
        }
        if isLogging && !Contains(message, "Ready") {
          terminal := terminal + [TagLines(Tag(Web), message)];
        }
      } else {
        if hasReady {
          resolved := true;
          isLogging := true;
          return;
        }
        if isLogging {
          terminal := terminal + [TagLines(Tag(App), message)];
        }
      }
    }

    /** The stderr handler does nothing. */
    method HandleStderr(message: string)
      ensures Snapshot() == old(Snapshot())
    {
    }

    /** Every stdout chunk of `cs`, in order. */
    method Feed(cs: seq<string>)
      modifies this`isLogging, this`resolved, this`terminal
      ensures Snapshot() == EchoReplay(kind, old(Snapshot()), cs)
    {
      ghost var s0 := Snapshot();
      var i := 0;
      while i < |cs|
        invariant 0 <= i <= |cs|
        invariant Snapshot() == EchoReplay(kind, s0, cs[..i])
      {
        ghost var before := Snapshot();
        HandleStdout(cs[i]);
        EchoReplayNext(kind, s0, cs[..i], cs[i], before, Snapshot());
        assert cs[..i + 1] == cs[..i] + [cs[i]];
        i := i + 1;
      }
      assert cs[..i] == cs;
    }
  }

  // ---------------------------------------------------------------------
  // The banner

  /** `${HOST}:${PORT}`. */
  function ServerUrl(hp: HostPort): string {
    hp.host + ":" + hp.port
  }

  /** `printDevSeverInfo`. */
  function PrintDevSeverInfo(webServerUrl: string, appServerUrl: string): Banner {
    Banner(
      ["", BannerHeading,
       Paint(Blue, "  Web: " + "http://" + webServerUrl),
       Paint(Blue, "  App: " + "http://" + appServerUrl), ""],
      "exp://" + appServerUrl,
      BannerInstructions)
  }

  /** The earlier banner prints what the later one prints for `http`
      addresses on ports 3000 and 8081, so its QR payload is
      `exp://<HOST>:8081`. */
  lemma BannerAgreesWithLaterFlow(table: ServerTable)
    requires table.react.port == "3000" && table.expo.port == "8081"
    ensures PrintDevSeverInfo(ServerUrl(table.react), ServerUrl(table.expo)) ==
      PrintDevServerInfo(ServerAddress(Some("http"), table.react.host, 3000), ServerAddress(Some("http"), table.expo.host, 8081))
    ensures PrintDevSeverInfo(ServerUrl(table.react), ServerUrl(table.expo)).qr ==
      QrPayload(ServerAddress(None, table.expo.host, 8081))
  {
    NatToStringSamples();
    HttpUrl(table.react, 3000);
    HttpUrl(table.expo, 8081);
    LabelledUrl("  Web: ", ServerUrl(table.react));
    LabelledUrl("  App: ", ServerUrl(table.expo));
  }

  /** `http://${HOST}:${PORT}` is the formatted `http` address, and
      `exp://${HOST}:${PORT}` the QR payload, once `PORT` is the decimal
      rendering of the port. */
  lemma HttpUrl(hp: HostPort, port: nat)
    requires hp.port == NatToString(port)
    ensures "http://" + ServerUrl(hp) == FormatServerAddress(ServerAddress(Some("http"), hp.host, port))
    ensures "exp://" + ServerUrl(hp) == QrPayload(ServerAddress(None, hp.host, port))
  {
  }

  /** A label, the scheme, then the URL. */
  lemma LabelledUrl(heading: string, url: string)
    ensures heading + "http://" + url == heading + ("http://" + url)
  {
  }

  /** `runDevServer` up to the banner: the web server is started first and
      the Expo server only once it has; a failure of either is rethrown as
      the dev server error. */
  function RunDevServer(rootDir: Result<string, Error>, framework: Result<ReactFramework, Error>,
                        expoRootDir: Result<string, Error>, table: ServerTable,
                        parentEnv: map<string, string>): (r: Result<(Spawned, Spawned, Banner), Error>)
    ensures r.Err? <==> rootDir.Err? || framework.Err? || expoRootDir.Err?
    ensures r.Err? ==> r.error == Error(DevServerErr, "Failed to start a dev server", DevServerFailed, None)
  {
    var web := LaunchReact(rootDir, framework, table, parentEnv);
    if web.Err? then Err(Error(DevServerErr, "Failed to start a dev server", DevServerFailed, None))
    else
      var app := LaunchExpo(expoRootDir, table, parentEnv);
      if app.Err? then Err(Error(DevServerErr, "Failed to start a dev server", DevServerFailed, None))
      else Ok((web.value, app.value, PrintDevSeverInfo(ServerUrl(table.react), ServerUrl(table.expo))))
  }

  /** On success both children get their fixed `HOST` and `PORT`, the Expo
      one runs in the Expo project, and the QR code encodes the Expo
      server's `HOST:PORT`. */
  lemma RunDevServerLaunches(rootDir: Result<string, Error>, framework: Result<ReactFramework, Error>,
                             expoRootDir: Result<string, Error>, table: ServerTable,
                             parentEnv: map<string, string>)
    requires RunDevServer(rootDir, framework, expoRootDir, table, parentEnv).Ok?
    ensures var v := RunDevServer(rootDir, framework, expoRootDir, table, parentEnv).value;
      && v.0.env == LaunchEnv(parentEnv, table.react)
      && v.1.env == LaunchEnv(parentEnv, table.expo)
      && v.1.cwd == Some(expoRootDir.value)
      && v.2.qr == "exp://" + ServerUrl(table.expo)
  {
  }
}
