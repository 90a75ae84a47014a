/** The two dev servers the `dev` command starts, the Next.js web server and
    the Expo app server: the command each is launched with, the line of
    output that says it is ready, and the tag its output is printed with. */
module Frameworks {
  import opened Wrappers
  import opened Text
  import opened Terminal

  /** What `getCommandConfig` hands to `spawn`; `env` and `cwd` are absent
      when the descriptor does not set them. */
  datatype CommandConfig = CommandConfig(command: string, args: seq<string>,
                                         env: Option<map<string, string>>, cwd: Option<string>)

  datatype Framework = NextJs | Expo

  /** `log` of a descriptor; `verbose` is added by `getDevServer`. */
  datatype LogConfig = LogConfig(logPrefix: string, logColor: Color, verbose: bool)

  /** A descriptor of `DEV_SERVERS`; its `command` is the `getCommandConfig`
      of `framework`. */
  datatype Descriptor = Descriptor(framework: Framework, name: string, readyMessage: string, log: LogConfig)

  const NextReadyMessage: string := "\U{2713} Ready"
  const ExpoReadyMessage: string := "Logs for your project will appear below"

  /** `DEV_SERVERS.NEXTJS.DEV` and `DEV_SERVERS.EXPO.DEV`. */
  function DescriptorOf(f: Framework): Descriptor {
    match f
    case NextJs => Descriptor(NextJs, "nextjs-dev", NextReadyMessage, LogConfig("[Web]", Blue, false))
    case Expo => Descriptor(Expo, "expo-dev", ExpoReadyMessage, LogConfig("[App]", Yellow, false))
  }

  /** `getCommandConfig({host, port})`; `expoRoot` is the Expo project
      directory that the Expo descriptor runs in. */
  function GetCommandConfig(f: Framework, host: string, port: nat, expoRoot: string): CommandConfig {
    match f
    case NextJs => CommandConfig("npx", ["next", "dev", "-H", host], Some(map["PORT" := NatToString(port)]), None)
    case Expo => CommandConfig("npx", ["expo", "start", "--port", NatToString(port)], None, Some(expoRoot))
  }

  /** `await getCommandConfig({host, port})`: the Expo descriptor first
      looks up the Expo project directory, and a failed lookup is the
      message the call rejects with; the Next.js descriptor needs nothing. */
  function ObtainCommand(f: Framework, host: string, port: nat, expoRoot: Result<string, string>): (r: Result<CommandConfig, string>)
    ensures r.Err? <==> f == Expo && expoRoot.Err?
    ensures r.Err? ==> r.error == expoRoot.error
    ensures r.Ok? && f == NextJs ==> r.value == GetCommandConfig(NextJs, host, port, "")
    ensures r.Ok? && f == Expo ==> r.value == GetCommandConfig(Expo, host, port, expoRoot.value)
  {
    if f == Expo && expoRoot.Err? then Err(expoRoot.error)
    else Ok(GetCommandConfig(f, host, port, if expoRoot.Ok? then expoRoot.value else ""))
  }

  /** The address a Next.js command was built for, read back from its
      arguments and its `PORT` variable. */
  function NextAddressOf(c: CommandConfig): Option<(string, nat)> {
    if c.command == "npx" && |c.args| == 4 && c.args[..3] == ["next", "dev", "-H"]
       && c.env.Some? && "PORT" in c.env.value && AllDigits(c.env.value["PORT"])
    then Some((c.args[3], ParseNat(c.env.value["PORT"])))
    else None
  }

  /** The port an Expo command was built for, read back from its arguments. */
  function ExpoPortOf(c: CommandConfig): Option<nat> {
    if c.command == "npx" && |c.args| == 4 && c.args[..3] == ["expo", "start", "--port"] && AllDigits(c.args[3])
    then Some(ParseNat(c.args[3]))
    else None
  }

  /** The Next.js server is started as `npx next dev -H <host>` with the
      port in `PORT`, and both can be read back from the command. */
  lemma NextCommandCarriesAddress(host: string, port: nat, expoRoot: string)
    ensures NextAddressOf(GetCommandConfig(NextJs, host, port, expoRoot)) == Some((host, port))
    ensures GetCommandConfig(NextJs, host, port, expoRoot).env.value.Keys == {"PORT"}
    ensures GetCommandConfig(NextJs, host, port, expoRoot).cwd.None?
  {
    ParseNatToString(port);
    var c := GetCommandConfig(NextJs, host, port, expoRoot);
    assert c.args[..3] == ["next", "dev", "-H"];
  }

  /** The Expo server is started as `npx expo start --port <port>` in the
      Expo project, with no environment of its own, whatever the host. */
  lemma ExpoCommandIgnoresHost(host1: string, host2: string, port: nat, expoRoot: string)
    ensures GetCommandConfig(Expo, host1, port, expoRoot) == GetCommandConfig(Expo, host2, port, expoRoot)
    ensures ExpoPortOf(GetCommandConfig(Expo, host1, port, expoRoot)) == Some(port)
    ensures GetCommandConfig(Expo, host1, port, expoRoot).env.None?
    ensures GetCommandConfig(Expo, host1, port, expoRoot).cwd == Some(expoRoot)
  {
    ParseNatToString(port);
    var c := GetCommandConfig(Expo, host1, port, expoRoot);
    assert c.args[..3] == ["expo", "start", "--port"];
  }

  /** Each server waits for its own sentinel: neither ready message occurs
      in the other, so one server's ready line never readies the other. */
  lemma ReadyMessagesAreDistinct()
    ensures !Contains(ExpoReadyMessage, NextReadyMessage)
    ensures !Contains(NextReadyMessage, ExpoReadyMessage)
    ensures DescriptorOf(NextJs).log.logPrefix != DescriptorOf(Expo).log.logPrefix
  {
    assert '\U{2713}' !in ExpoReadyMessage;
    forall i | 0 <= i <= |ExpoReadyMessage| ensures !OccursAt(ExpoReadyMessage, NextReadyMessage, i) {
      if i + |NextReadyMessage| <= |ExpoReadyMessage| {
        assert ExpoReadyMessage[i..i + |NextReadyMessage|][0] == ExpoReadyMessage[i] != NextReadyMessage[0];
      }
    }
  }
}
