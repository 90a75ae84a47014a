# react2app / next2app command-line core in Dafny

This project models the deterministic core of the `react2app` and `next2app`
command-line tools. Both tools turn a React or Next.js web project into an
Expo mobile app. The model covers:

- the dev command's servers, as state machines over the chunks a child
  process prints;
- the choice of address and port;
- the descriptors of the two dev servers;
- the `.env` upsert;
- the merges that keep the Expo manifest (`app.json`) in step with the
  tool's configuration, and the copying of the icon and splash image;
- normalising and validating the configuration, and the structural shape
  checks;
- the package-name transforms that give the project name, display name and
  app id;
- the injection of `<AppLayout>` into a Next.js layout, and its removal;
- React vs Next.js detection from `package.json`;
- the small decision tables of the build command: build artefact, prebuild
  directory, fastlane environment and the order of the shell commands.

Modules follow the source files:

- `Network`, `Frameworks`, `DevServer` and `LegacyDevServer` cover the dev
  flow.
  - `DevServer` is the next2app `DevServer` class.
  - `LegacyDevServer` is the earlier react2app flow, with its `isLogging`
    flag.
- `EnvFile` is `updateEnvFile` as written. `EnvLines` is a line-based
  update that keeps every entry.
- `Manifest` and `Assets` cover the sync features.
- `Config` and `ShapeValidation` cover the configuration.
- `PackageName`, `Layout` and `LayoutImport` cover the text transforms.
- `Project`, `Build` and `Prebuild` cover the rest.
- `Wrappers`, `Text`, `Js`, `Terminal`, `Errors` and `Paths` are shared
  helpers. They model JavaScript's string operations, its values and
  truthiness, chalk colours, the thrown errors and `path.join`.

How the model represents the parts that are not pure:

- A JavaScript value is the `Js.Value` datatype. An object is a `map`;
  `undefined` and `null` are explicit.
- A configuration the tool reads is a typed record with `Option` fields.
  `None` stands for `null` or `undefined`.
- Everything the code gets from the outside world is a parameter:
  - the file system, as an existence predicate;
  - the environment variables;
  - the network interfaces;
  - the port probe;
  - the answer to a prompt;
  - the current directory;
  - the output of a child process.
- The dev servers and the prebuild step are classes whose methods update
  their fields. The dev servers have `isReady`, the promise outcome and the
  terminal output. The prebuild `Shell` has the log of spawned commands.
  Each method's new state is tied to a specification function over the old
  state: `Step` and `Replay`, `EchoStep` and `EchoReplay`,
  `PrebuildActions`. The lemmas prove the source's promises about those
  functions.

## Model

| member | source | states |
|---|---|---|
| `Network.FirstAddressIsFirst` | apps/next2app/src/cli/utils/network.ts:9-19 | the search returns the address of the first external IPv4 interface, none before it qualifying, and finds nothing only when none qualifies |
| `Network.LocalIpPicksFirst` | apps/next2app/src/cli/utils/network.ts:5-21 | the local IP is the first external IPv4 address in iteration order, and `127.0.0.1` exactly when no interface qualifies |
| `Network.GetLocalIpAddress` | apps/react2app/src/cli/utils/network.ts:4-20 | the nested loop with its early return gives exactly the address `LocalIp` specifies |
| `Network.ValidatePort` | apps/next2app/src/cli/utils/network.ts:23-31 | a port is refused iff it is defined, nonzero and below 1024, and exactly then the elevated-privileges warning naming the port is logged |
| `Network.CandidatePortsAreUnprivileged` | apps/next2app/src/cli/config/constants.ts:31-32 | every web and Expo candidate port passes `validatePort` |
| `Network.PortRequestFor` | apps/next2app/src/cli/utils/network.ts:44-46 | the probe gets the preferred port exactly when it is defined and nonzero, and otherwise the alternative list |
| `Network.ChooseHost` | apps/next2app/src/cli/utils/network.ts:42-43 | a non-empty preferred host wins over the local IP, and a missing or empty one falls back to it |
| `Network.GetAvailableAddress` | apps/next2app/src/cli/utils/network.ts:33-48 | the host is the preferred host or the local IP; the port is the probe's answer for that request; `validatePort` is not consulted, but when the web or Expo candidates are offered, each of them passes it |
| `Frameworks.NextCommandCarriesAddress` | apps/next2app/src/cli/config/frameworks.ts:10-18 | the Next.js command is `npx next dev -H <host>` with exactly `PORT` in its environment; host and port read back from it; no cwd |
| `Frameworks.ExpoCommandIgnoresHost` | apps/next2app/src/cli/config/frameworks.ts:31-38 | the Expo command is `npx expo start --port <port>` in the Expo root, with no environment of its own, and it does not depend on the host |
| `Frameworks.ObtainCommand` | apps/next2app/src/cli/config/frameworks.ts:10-38 | the command of the descriptor for the given host and port; only the Expo command can fail, exactly when the Expo project lookup fails, and with its message |
| `Frameworks.ReadyMessagesAreDistinct` | apps/next2app/src/cli/config/frameworks.ts:19-43 | neither ready sentinel occurs in the other, and the two log prefixes differ |
| `DevServer.FormatParse` | apps/next2app/src/cli/utils/devServer.ts:45-48 | a formatted address (host without `:`) parses back to its scheme, host and port; an empty scheme formats like a missing one |
| `DevServer.QrPayloadIsExpAddress` | apps/next2app/src/cli/utils/devServer.ts:59-62 | the QR payload is the app address with the `exp` scheme, and it parses back to that host and port |
| `DevServer.BannerShowsAddresses` | apps/next2app/src/cli/utils/devServer.ts:41-73 | the banner has five lines; lines 3 and 4 show the web and app addresses in blue, each recoverable; the QR code points at the app server |
| `DevServer.GetServerAddress` | apps/next2app/src/cli/utils/devServer.ts:91-100 | it succeeds iff host is non-empty and port nonzero, then returns exactly the configured address, and otherwise fails with "Server not started" |
| `DevServer.DevServerSpawnsAtItsAddress` | apps/next2app/src/cli/utils/devServer.ts:102-118 | a server built by `getDevServer` spawns for its own address: Next.js with `-H <host>` and a `PORT` equal to the port whatever the parent environment holds, Expo with `--port <port>` in the Expo project; only the Expo lookup can fail |
| `DevServer.DevServerAddressIsWebviewUrl` | apps/next2app/src/cli/utils/devServer.ts:286-309 | `getDevServer` gives an `http` address whose banner form is the webview URL written to the env file; name, sentinel, prefix and colour come from the descriptor and `verbose` from the argument |
| `DevServer.StartFailure` | apps/next2app/src/cli/utils/devServer.ts:123-135 | a start failure is a `BaseError` `Failed to start server (<name>)` with code `SERVER_START_FAILED`; its details are the port hint iff the message contains `EACCES`, and otherwise the raw message |
| `DevServer.GetEnv` | apps/next2app/src/cli/utils/devServer.ts:193-204 | `getEnv` holds `PORT`; command variables override parent ones, which override the default port; its keys are exactly the union |
| `DevServer.SpawnOf` | apps/next2app/src/cli/utils/devServer.ts:104-118 | the spawned process gets the command's program, args and cwd; its environment is the parent's overlaid by the command's, with no other keys |
| `DevServer.PrefixLinesKeepsLines` | apps/next2app/src/cli/utils/devServer.ts:143-148 | prefixing keeps the newline count and the number of lines; a blank line passes unchanged and every other line gains `<coloured prefix> ` |
| `DevServer.ReadyIffSentinelSeen` | apps/next2app/src/cli/utils/devServer.ts:177-185 | readiness is never lost, and a server is ready iff it was ready already or some stdout chunk contains the ready message |
| `DevServer.OutcomeIsStable` | apps/next2app/src/cli/utils/devServer.ts:161-185 | once `start` has resolved or rejected, no later chunk changes the outcome |
| `DevServer.OutcomePendingWithoutSettling` | apps/next2app/src/cli/utils/devServer.ts:109-122 | `start` stays pending while no chunk carries the sentinel and no error event arrives |
| `DevServer.OutcomeIsFirstSettling` | apps/next2app/src/cli/utils/devServer.ts:161-185 | the first sentinel resolves `start` and the first error event rejects it, whichever comes first |
| `DevServer.StdoutForwarding` | apps/next2app/src/cli/utils/devServer.ts:119-150 | a stdout chunk is forwarded, prefixed, iff verbose is on or an earlier chunk carried the ready message |
| `DevServer.SentinelChunkIsSuppressed` | apps/next2app/src/cli/utils/devServer.ts:119-121 | in quiet mode the chunk that first carries the sentinel is itself not printed, because the logging listener runs before the readiness listener |
| `DevServer.StderrOnlyWhenVerbose` | apps/next2app/src/cli/utils/devServer.ts:153-158 | stderr is written iff verbose, regardless of readiness, and it changes neither readiness nor the outcome |
| `DevServer.Server.constructor` | apps/next2app/src/cli/utils/devServer.ts:81-89 | a new server keeps its configuration, is not ready, has no process, is pending and has printed nothing |
| `DevServer.Server.ServerAddressOrError` | apps/next2app/src/cli/utils/devServer.ts:91-100 | the method form of `getServerAddress` on the server's own address |
| `DevServer.Server.Start` | apps/next2app/src/cli/utils/devServer.ts:102-136 | the command is obtained for the server's own host and port; when it is, the process is spawned with it and the listeners are set up; when it is not, `start` is rejected and nothing else changes |
| `DevServer.Server.HandleStdout` | apps/next2app/src/cli/utils/devServer.ts:138-186 | the new state is `Step` on the chunk: forwarding is judged first, then readiness and the outcome |
| `DevServer.Server.HandleStderr` | apps/next2app/src/cli/utils/devServer.ts:153-158 | the new state is `Step` on a stderr chunk |
| `DevServer.Server.HandleError` | apps/next2app/src/cli/utils/devServer.ts:161-166 | the error is logged and rejects a pending `start` (`Step` on an error event) |
| `DevServer.Server.HandleChunk` | apps/next2app/src/cli/utils/devServer.ts:138-187 | each chunk reaches exactly the listeners of its stream |
| `DevServer.Server.Feed` | apps/next2app/src/cli/utils/devServer.ts:138-187 | handling a sequence of chunks in order gives `Replay` of them |
| `DevServer.Server.Kill` | apps/next2app/src/cli/utils/devServer.ts:189-191 | a signal is sent only when a process was spawned |
| `DevServer.SetWebServerAddress` | apps/next2app/src/cli/utils/devServer.ts:247-266 | the address is chosen among the web ports, recorded as the last web address, and `EXPO_PUBLIC_WEBVIEW_URL` is set to `http://host:port` |
| `DevServer.SetAppServerAddress` | apps/next2app/src/cli/utils/devServer.ts:268-284 | the address is chosen among the Expo ports and recorded as the last app address |
| `LegacyDevServer.DevServerConfig` | apps/react2app/src/cli/utils/devServer.ts:36-45 | both servers use the local IP; the web server is on "3000" and the Expo server on "8081" |
| `LegacyDevServer.LaunchCommands` | apps/react2app/src/cli/utils/devServer.ts:47-66 | Next.js runs the Next.js descriptor's args plus `-p 3000`; plain React runs `npm run start`, independent of the address |
| `LegacyDevServer.TagsDiffer` | apps/react2app/src/cli/utils/devServer.ts:99-148 | the web tag ends in a space and the blue app tag does not; neither holds a newline |
| `LegacyDevServer.LaunchEnv` | apps/react2app/src/cli/utils/devServer.ts:79-83 | the child gets `HOST` and `PORT` from the table over the parent environment, with every other parent variable kept |
| `LegacyDevServer.LaunchReact` | apps/react2app/src/cli/utils/devServer.ts:68-115 | it fails with the web-server error iff the root or the framework failed; otherwise it spawns the framework's command in the root with the web `HOST`/`PORT` |
| `LegacyDevServer.LaunchExpo` | apps/react2app/src/cli/utils/devServer.ts:117-162 | `npx expo start` in the Expo root with the Expo `HOST`/`PORT`, or the Expo-server error iff the paths failed |
| `LegacyDevServer.FlagIffSeen` | apps/react2app/src/cli/utils/devServer.ts:92-97 | `isLogging` and the resolution are raised by the first chunk holding the ready message and never lowered |
| `LegacyDevServer.EchoRule` | apps/react2app/src/cli/utils/devServer.ts:92-152 | chunk i is echoed iff it lacks the ready message and an earlier chunk had it, and then exactly once with its lines tagged |
| `LegacyDevServer.EchoKeepsLines` | apps/react2app/src/cli/utils/devServer.ts:99-148 | echoing keeps the newline count and the lines; blank lines are untouched and other lines gain `[Web] ` or the blue `[App]` |
| `LegacyDevServer.EchoServer.constructor` | apps/react2app/src/cli/utils/devServer.ts:85 | a server starts with `isLogging` false, unresolved, with nothing printed |
| `LegacyDevServer.EchoServer.HandleStdout` | apps/react2app/src/cli/utils/devServer.ts:92-152 | the handler's new state is `EchoStep`: the web handler raises the flag and then refuses any chunk holding "Ready"; the app handler returns early on the sentinel |
| `LegacyDevServer.EchoServer.HandleStderr` | apps/react2app/src/cli/utils/devServer.ts:106 | the stderr handler changes nothing |
| `LegacyDevServer.EchoServer.Feed` | apps/react2app/src/cli/utils/devServer.ts:92-105 | handling chunks in order gives `EchoReplay` |
| `LegacyDevServer.BannerAgreesWithLaterFlow` | apps/react2app/src/cli/utils/devServer.ts:164-183 | the earlier banner equals the later one for `http` addresses on 3000 and 8081, and its QR payload is `exp://HOST:8081` |
| `LegacyDevServer.RunDevServer` | apps/react2app/src/cli/utils/devServer.ts:185-236 | it fails with the dev-server error iff the web launch or the Expo launch failed |
| `LegacyDevServer.RunDevServerLaunches` | apps/react2app/src/cli/utils/devServer.ts:187-193 | on success both children get their table `HOST`/`PORT`, the Expo one runs in the Expo root, and the QR encodes the Expo `HOST:PORT` |
| `Terminal.TagLinesKeepsLines` | apps/react2app/src/cli/utils/devServer.ts:99-102 | tagging keeps the newline count and the number of lines, leaves blank lines unchanged and prepends the tag to every other line |
| `Project.FrameworkDecision` | apps/react2app/src/cli/utils/project.ts:13-23 | a truthy `next` dependency gives Next.js, even beside `react`; otherwise truthy `react` gives React; otherwise `NO_REACT_PROJECT`; a missing dependency table throws a TypeError |
| `Project.OnlyDependenciesMatter` | apps/react2app/src/cli/utils/project.ts:13-18 | the decision depends on the `dependencies` table alone |
| `Project.DevDependenciesIgnored` | apps/react2app/src/cli/utils/project.ts:13-18 | `devDependencies` never affect the decision |
| `EnvFile.LineEnd` | apps/react2app/src/cli/utils/env.ts:17 | the `.*` of `KEY=.*` stops at the first line terminator after its start, or at the end of the text |
| `EnvFile.LocateSpec` | apps/react2app/src/cli/utils/env.ts:16-17 | a key is absent iff `includes` fails, and unassigned iff it occurs but `KEY=` does not; otherwise the location is the first `KEY=` |
| `EnvFile.UpdateEnvFileSnoc` | apps/react2app/src/cli/utils/env.ts:14-22 | the reduce applies the entries left to right, each to what the earlier ones produced |
| `EnvFile.UpsertAppends` | apps/react2app/src/cli/utils/env.ts:19 | a key that occurs nowhere is appended as `KEY=VALUE\n` |
| `EnvFile.UpsertDrops` | apps/react2app/src/cli/utils/env.ts:16-17 | a key that occurs but is never followed by `=` leaves the text as it is |
| `EnvFile.UpsertReplaces` | apps/react2app/src/cli/utils/env.ts:17 | otherwise the first `KEY=` up to the end of its line is replaced by `KEY=VALUE`, and the text around it is kept |
| `EnvFile.UpsertLineCount` | apps/react2app/src/cli/utils/env.ts:16-19 | with single-line keys and values, a step adds a line iff the key was absent |
| `EnvFile.UpdateLineCount` | apps/react2app/src/cli/utils/env.ts:14-22 | the line count never decreases and grows by at most one per entry |
| `EnvFile.LocateAfterAppend` | apps/react2app/src/cli/utils/env.ts:19 | after an append, the first `KEY=` is the appended one |
| `EnvFile.LocateAfterReplace` | apps/react2app/src/cli/utils/env.ts:17 | after a replacement, the first `KEY=` is still at the same place |
| `EnvFile.IdempotentWhenAbsent` | apps/react2app/src/cli/utils/env.ts:16-19 | upserting an appended entry again changes nothing |
| `EnvFile.IdempotentWhenAssigned` | apps/react2app/src/cli/utils/env.ts:16-17 | upserting a replaced entry again changes nothing |
| `EnvFile.UpsertIdempotent` | apps/react2app/src/cli/utils/env.ts:15-20 | one entry applied twice is that entry applied once, for a key without `=` and a single-line value |
| `EnvLines.FirstDefining` | apps/react2app/src/cli/utils/env.ts:16-17 | the first line assigning the key from a point on, none before it assigning it, or none at all |
| `EnvLines.UpsertLines` | apps/react2app/src/cli/utils/env.ts:15-20 | the corrected step: afterwards the key's first assignment is `KEY=VALUE`; other non-empty lines are kept; lines stay single lines |
| `EnvLines.SettledIsFixpoint` | apps/react2app/src/cli/utils/env.ts:14-22 | lines where every entry is already settled are left unchanged |
| `EnvLines.UpsertKeepsOtherKey` | apps/react2app/src/cli/utils/env.ts:16-17 | upserting one key leaves the first assignment of every other key where and as it was |
| `EnvLines.SettleAll` | apps/react2app/src/cli/utils/env.ts:14-22 | folding in distinct keys keeps what was settled and settles each new entry |
| `EnvLines.ByLinesIdempotent` | apps/react2app/src/cli/utils/env.ts:14-22 | the corrected update is idempotent, and each entry ends up as a line of the file |
| `EnvLines.MissingNewlineLosesEntry` | apps/react2app/src/cli/utils/env.ts:19 | as written, on `A=x` with entries B=1 then A=2 the result is `A=2\n`: `B` is lost, and a second run differs |
| `EnvLines.SuffixKeyRewritten` | apps/react2app/src/cli/utils/env.ts:16-17 | as written, upserting `A` into `XA=1\n` rewrites `XA` and never adds an `A` line |
| `EnvLines.ByLinesKeepsEntry` | apps/react2app/src/cli/utils/env.ts:14-22 | the corrected update keeps `B` on that same input |
| `Manifest.MergedKeepsTopLevel` | apps/react2app/src/cli/features/sync.ts:26-27 | the written manifest has `expo`, and every other top-level key as it was |
| `Manifest.WithIdKeepsSiblings` | apps/react2app/src/cli/features/sync.ts:34-41 | `{ ...block, key: appId }` writes the id and keeps every other key of the block |
| `Manifest.IdentityBlockSpec` | apps/react2app/src/cli/utils/sync.ts:19-30 | the identity merge writes `name`, `slug`, `ios.bundleIdentifier` and `android.package` and keeps every other key |
| `Manifest.DesignFieldsSpec` | apps/react2app/src/cli/features/sync.ts:32-52 | `version` (when asked), `scheme`, the fixed icon and the plugins are written, and every other key is kept |
| `Manifest.DesignBlockVersion` | apps/react2app/src/cli/features/sync.ts:32 | the react2app merge writes `version` from the configuration; the next2app merge keeps the manifest's |
| `Manifest.SplashPluginsShape` | apps/react2app/src/cli/features/sync.ts:43-52 | the plugin list is exactly one `expo-splash-screen` entry with the colour, the fixed image and the width |
| `Manifest.WithIdStable` | apps/react2app/src/cli/features/sync.ts:34-41 | writing the id into a block that already holds it changes nothing |
| `Manifest.IdentityBlockStable` | apps/react2app/src/cli/utils/sync.ts:17-32 | the identity written over an identity-merged block leaves it as it is |
| `Manifest.DesignFieldsStable` | apps/react2app/src/cli/features/sync.ts:28-53 | writing the design fields twice is writing them once |
| `Manifest.DesignFieldsKeepIdentity` | apps/react2app/src/cli/features/sync.ts:28-53 | the design fields leave the identity keys alone |
| `Manifest.IdentityOverDesignStable` | apps/react2app/src/cli/features/sync.ts:26-54 | the identity written over a design-merged block leaves it as it is |
| `Manifest.DesignBlockStable` | apps/react2app/src/cli/features/sync.ts:26-54 | the design written over a design-merged block leaves it as it is |
| `Manifest.DesignBlockKeepsOthers` | apps/react2app/src/cli/features/sync.ts:28-29 | every key outside the written ones is taken from the existing `expo` block |
| `Manifest.DesignBlockIdentity` | apps/react2app/src/cli/features/sync.ts:30-41 | the design block carries the configuration's name, slug and app id |
| `Manifest.SyncWithDesignErrors` | apps/react2app/src/cli/features/sync.ts:16-23 | the merge fails only on a missing configuration, a falsy `projectName` (the "Project name not set in <tool>.config.js" of `getExpoPaths`), a `null` manifest, or no `design`/`design.splash`, reporting the first of these |
| `Manifest.SyncWithDesignTopLevel` | apps/react2app/src/cli/features/sync.ts:23-27 | every top-level key but `expo` is kept, and an unreadable manifest counts as `{}` |
| `Manifest.SyncWithDesignExpo` | apps/next2app/src/cli/features/sync.ts:25-52 | under `expo`: identity, scheme, icon and the single splash plugin; `version` from the configuration (react2app) or as it was (next2app); every other key as it was |
| `Manifest.SyncWithDesignIdempotent` | apps/react2app/src/cli/features/sync.ts:14-56 | merging the written manifest again with the same configuration writes the same manifest |
| `Manifest.SyncIdentityErrors` | apps/react2app/src/cli/utils/sync.ts:8-14 | the identity merge fails only on a missing configuration, a falsy `projectName` (the "Project name not set in <tool>.config.js" of `getExpoPaths`) or a `null` manifest, reporting the first of these |
| `Manifest.SyncIdentityWrites` | apps/next2app/src/cli/utils/sync.ts:17-32 | the identity merge keeps the top level and, under `expo`, writes only name, slug, bundle id and package |
| `Manifest.SyncIdentityIdempotent` | apps/react2app/src/cli/utils/sync.ts:6-34 | the identity merge is idempotent |
| `Assets.PlannedCopies` | apps/react2app/src/cli/features/sync.ts:59-66 | two copies, icon first, into `assets/images/icon.png` and `splash.png` of the Expo root |
| `Assets.PlannedCopiesSpec` | apps/react2app/src/cli/features/sync.ts:59-66 | the sources are `design.icon` and `design.splash.image` under the web root; read errors come in the source's order |
| `Assets.ExistingSpec` | apps/react2app/src/cli/features/sync.ts:67-78 | a planned copy is made iff its source exists; the copies of a plan are those of any prefix followed by those of the rest, and each planned copy contributes itself once when its source exists and nothing otherwise, so the planned order is kept |
| `Assets.ExistingAll` | apps/react2app/src/cli/features/sync.ts:67-78 | with every source present, every planned copy is made |
| `Assets.CopyEachSpec` | apps/next2app/src/cli/features/sync.ts:65-69 | unconditional copying makes every copy, or stops at the first missing source with its error and copies nothing after it |
| `Assets.UnconditionalIsPrefixOfGuarded` | apps/next2app/src/cli/features/sync.ts:56-70 | what next2app copies before failing is a prefix of what react2app copies, and equal when every source exists |
| `Assets.CopyAssetsAgree` | apps/react2app/src/cli/features/sync.ts:58-79 | the two commands agree when both assets exist, and fail on the same configurations |
| `Assets.GuardedCopiesExisting` | apps/react2app/src/cli/features/sync.ts:67-78 | the react2app command never fails on a missing asset and copies exactly the existing ones |
| `Config.ConfigObject.constructor` | apps/react2app/src/cli/utils/config.ts:111 | the object holds the configuration it was given |
| `Config.ConfigObject.Normalize` | apps/react2app/src/cli/utils/config.ts:111-182 | the object afterwards is `Normalized` of its old value |
| `Config.ConfigObject.NormalizeCommon` | apps/react2app/src/cli/utils/config.ts:112-125 | the top-level strings are defaulted in source order, the app id from the already-defaulted project name |
| `Config.ConfigObject.NormalizeIos` | apps/react2app/src/cli/utils/config.ts:127-135 | the `ios` block is created and its team id filled from the environment |
| `Config.ConfigObject.NormalizeAndroid` | apps/react2app/src/cli/utils/config.ts:136-167 | the `android` and keystore blocks are created and the keystore defaults filled |
| `Config.ConfigObject.NormalizeDesign` | apps/react2app/src/cli/utils/config.ts:169-179 | the design and splash blocks are created and the splash defaults filled |
| `Config.NormalizeDefaults` | apps/react2app/src/cli/utils/config.ts:113-125 | truthy strings are kept and falsy ones defaulted; the app id defaults to `com.<lower-case project name>.app` |
| `Config.NormalizeDisplayName` | apps/react2app/src/cli/utils/config.ts:115-117 | the display name is the configured one without whitespace, or the project name when that leaves nothing |
| `Config.NormalizeIos` | apps/react2app/src/cli/utils/config.ts:128-135 | `ios` is touched only for `ios` or no platform; a truthy team id is kept; a falsy one is taken from `R2A_IOS_TEAM_ID` when set |
| `Config.NormalizeAndroid` | apps/react2app/src/cli/utils/config.ts:137-167 | the keystore path defaults to `<react2app>/release.keystore` and the alias to `upload`; passwords come from the environment when falsy; only for `android` or no platform |
| `Config.NormalizeDesign` | apps/react2app/src/cli/utils/config.ts:169-179 | the splash gets `#ffffff` and 200 when falsy; the icon and splash image are never filled |
| `Config.FirstFailureSpec` | apps/react2app/src/cli/utils/config.ts:184-289 | no failure iff every check passes; otherwise the message of a failing check whose predecessors all pass |
| `Config.PlatformFirstFailure` | apps/react2app/src/cli/utils/config.ts:250-288 | the team id is checked where iOS is covered, then the four keystore fields where Android is |
| `Config.ValidateIsFirstFailure` | apps/react2app/src/cli/utils/config.ts:184-289 | validation reports the first missing field of the fixed order, as a `VALIDATION_FAILED` ConfigError |
| `Config.ValidatePassesIff` | apps/react2app/src/cli/utils/config.ts:184-289 | validation passes iff every check passes; a failure names a failing check whose predecessors pass |
| `Config.NormalizedFills` | apps/react2app/src/cli/utils/config.ts:111-182 | after normalisation the six top-level strings and the splash colour are set, and so are the keystore path and alias where Android is covered |
| `Config.NormalizedCanOnlyMiss` | apps/react2app/src/cli/utils/config.ts:291-295 | validation of a normalised configuration can only report the icon, splash image, team id, keystore password or key password, the first that is missing |
| `Config.EnsureConfig` | apps/react2app/src/cli/utils/config.ts:20-45 | it succeeds iff the module was imported with a truthy default export, which it returns; a throwing import is `LOAD_FAILED`; no file or a falsy export is `NOT_FOUND` |
| `Config.EnsureValidSpec` | apps/react2app/src/cli/utils/config.ts:291-296 | a returned configuration is the normalised loaded one and passes validation; a loaded one fails only on the five fields normalisation cannot fill |
| `ShapeValidation.ValidateShapeSpec` | apps/react2app/src/cli/utils/validation.ts:9-25 | `PARSE_ERROR` iff the value is not an object or array; for objects, `ios` and `android` are keys and `entry`/`output` are string or undefined |
| `ShapeValidation.ArraysAreRejected` | apps/next2app/src/cli/utils/validation.ts:17-24 | no array passes, because `"ios"` is not an index |
| `ShapeValidation.CliAgrees` | apps/cli/src/utils/validation.ts:8-23 | the cli check answers `false` exactly where the others throw, and agrees with them elsewhere |
| `ShapeValidation.PlatformValuesIgnored` | apps/react2app/src/cli/utils/validation.ts:18-24 | only the presence of `ios` and `android` matters, not their values |
| `ShapeValidation.UnrelatedKeysIgnored` | apps/react2app/src/cli/utils/validation.ts:18-24 | keys other than the four checked do not affect any of the three checks |
| `PackageName.ScopeLength` | apps/react2app/src/cli/utils/packageName.ts:3 | the scope match is 0 unless the name starts with `@`, and otherwise runs to the last `/` of the first line |
| `PackageName.ScopeLengthSpec` | apps/react2app/src/cli/utils/packageName.ts:3 | the match holds no line terminator and no `/` follows it on the first line; there is no match without a `/` after the `@` |
| `PackageName.ProjectNameSpec` | apps/react2app/src/cli/utils/packageName.ts:1-5 | the project name holds no `-`; it is the unscoped name with `-` turned to `_` and every other character kept |
| `PackageName.ScopedProjectNameHasNoSlash` | apps/react2app/src/cli/utils/packageName.ts:3 | a scoped one-line name loses everything up to its last `/` |
| `PackageName.UpperChar` | apps/react2app/src/cli/utils/packageName.ts:9 | upper-casing changes exactly the lower-case letters |
| `PackageName.CapitalizeWords` | apps/react2app/src/cli/utils/packageName.ts:9 | every word-initial lower-case letter is upper-cased and every other character kept |
| `PackageName.CapitalizeKeepsScope` | apps/react2app/src/cli/utils/packageName.ts:9-10 | capitalising first does not change which prefix is the scope |
| `PackageName.DisplayNameSpec` | apps/react2app/src/cli/utils/packageName.ts:7-12 | the display name holds no `-`; after the scope each `-` is a space and the rest is the capitalised name; no lower-case letter starts a word |
| `PackageName.KeepLowerAlnum` | apps/react2app/src/cli/utils/packageName.ts:19 | the filter keeps only `[a-z0-9]` |
| `PackageName.KeepLowerAlnumSpec` | apps/react2app/src/cli/utils/packageName.ts:19 | it keeps exactly the `[a-z0-9]` characters in order, and a string of them whole |
| `PackageName.AppIdSpec` | apps/react2app/src/cli/utils/packageName.ts:14-22 | the app id is `com.` + middle + `.app`; the middle is `[a-z0-9]` only and never starts with a digit, thanks to the `x` prefix |
| `PackageName.AppIdIgnoresCase` | apps/react2app/src/cli/utils/packageName.ts:17 | the app id does not depend on the case of ASCII letters |
| `PackageName.AppIdOfPlainName` | apps/react2app/src/cli/utils/packageName.ts:14-22 | an unscoped lower-case alphanumeric name starting with a letter is its own middle |
| `LayoutImport.FindImport` | apps/next2app/src/cli/utils/ux.ts:28 | the leftmost match of the import pattern from a position, none before it |
| `LayoutImport.ImportMatchesAtStart` | apps/next2app/src/cli/utils/ux.ts:27-30 | the import line in front of a layout not starting with whitespace is matched at 0, up to its newline |
| `LayoutImport.RemoveImportAfterAdd` | apps/next2app/src/cli/utils/ux.ts:27-30 | removing the import from `importLine + rest` gives `rest` |
| `Layout.FindChildren` | apps/next2app/src/cli/utils/ux.ts:16 | the search returns a match of the wrapping pattern at or after the start, with its `{children}` |
| `Layout.FindChildrenFirst` | apps/next2app/src/cli/utils/ux.ts:16 | the match found is leftmost: nothing before it matches |
| `Layout.FindChildrenNone` | apps/next2app/src/cli/utils/ux.ts:16 | when nothing is found, nothing matches anywhere |
| `Layout.WrapAtSpec` | apps/next2app/src/cli/utils/ux.ts:17 | wrapping keeps the layout before `{children}`, puts `{children}` between the two tags, and keeps the rest |
| `Layout.AddAppLayoutSpec` | apps/next2app/src/cli/utils/ux.ts:4-21 | a layout with `<AppLayout>` is left alone; any other gets the import line plus the layout with its first body `{children}` wrapped, or unchanged |
| `Layout.AddWrapsFirstChildren` | apps/next2app/src/cli/utils/ux.ts:13-18 | exactly the first `{children}` inside the first matching body is wrapped |
| `Layout.MatchIsFirstBody` | apps/next2app/src/cli/utils/ux.ts:16 | the leftmost match starts at the first `<body` of the layout |
| `Layout.UnwrapFindsInserted` | apps/next2app/src/cli/utils/ux.ts:32-35 | in the wrapped layout the unwrapping pattern matches first where wrapping did, capturing the inserted tags |
| `Layout.UnwrapUndoesWrap` | apps/next2app/src/cli/utils/ux.ts:32-35 | unwrapping the wrapped layout gives the layout back |
| `Layout.RemoveUndoesAdd` | apps/next2app/src/cli/utils/ux.ts:4-38 | round trip: for a layout without `<AppLayout>`, not starting with whitespace and with a body `{children}`, remove after add is the identity |
| `Layout.AddWithoutTags` | apps/next2app/src/cli/utils/ux.ts:12-18 | a layout without `<` gets the import line and nothing else |
| `Layout.AddStacksImports` | apps/next2app/src/cli/utils/ux.ts:8-18 | as written, a layout without `<` gets a second import line on a second run, and removal takes out only one |
| `Layout.AddOnceIdempotent` | apps/next2app/src/cli/utils/ux.ts:8-18 | the corrected command, guarded on the import line too, writes nothing on a second run |
| `Layout.AddOnceAgrees` | apps/next2app/src/cli/utils/ux.ts:8-18 | on a layout without the import line it writes what `addAppLayout` writes |
| `Layout.RemoveUndoesAddOnce` | apps/next2app/src/cli/utils/ux.ts:4-38 | the round trip holds for the corrected command |
| `Paths.PathResolve` | apps/react2app/src/cli/commands/build/utils.ts:84 | an absolute path is kept, and a relative one is joined to the working directory |
| `Paths.GetExpoPaths` | apps/react2app/src/cli/utils/path.ts:76-111 | the Expo root is `<cwd>/react2app/<app>`; the iOS and Android roots are `ios` and `android` under it; no `BUILD_DIR` is defined |
| `Build.BuildFileDir` | apps/react2app/src/cli/commands/build/utils.ts:9-18 | it fails iff the platform is neither `ios` nor `android`, with "Invalid platform" |
| `Build.BuildFileInfoSpec` | apps/react2app/src/cli/commands/build/utils.ts:20-38 | iOS gives (iOS build dir, display name, `ipa`) and Android gives (Android build dir, `app-release`, `aab`); another platform is refused before the configuration is read; a load failure fails the rest |
| `Build.EnsureBuildFileSpec` | apps/react2app/src/cli/commands/build/utils.ts:40-51 | it succeeds iff `<dir>/<name>.<format>` exists and then returns the three parts unchanged; otherwise it names the path; an undefined directory is the `path` TypeError |
| `Build.BuildDirsMissing` | apps/react2app/src/cli/commands/build/utils.ts:43-46 | with the paths `getExpoPaths` gives, the check fails with the `path` TypeError on both platforms |
| `Build.EnsurePlatform` | apps/react2app/src/cli/commands/build/utils.ts:53-66 | a truthy given platform is returned unchanged; otherwise the prompt's answer is |
| `Build.EnsurePlatformIdempotent` | apps/react2app/src/cli/commands/build/utils.ts:56 | settling an already-settled platform keeps it and asks nothing |
| `Build.FastlaneEnvSpec` | apps/react2app/src/cli/commands/build/utils.ts:73-91 | iOS gives exactly {TEAM_ID}; Android gives exactly the four keystore keys with a resolved path; it succeeds iff the blocks read are present; the load comes before the platform test |
| `Build.FastlaneEnvAfterValidation` | apps/react2app/src/cli/commands/build/utils.ts:82-89 | a configuration that passed Android validation gives fastlane both passwords |
| `Prebuild.PrebuildPath` | apps/react2app/src/cli/commands/build/prebuild.ts:43-52 | `ios` maps to the iOS root and `android` to the Android root; anything else is "Invalid platform" |
| `Prebuild.EnsurePrebuildSpec` | apps/react2app/src/cli/commands/build/prebuild.ts:35-41 | the path is returned iff it exists; otherwise the error names it; an invalid platform fails as the lookup does |
| `Prebuild.PrebuildPathInsideRoot` | apps/react2app/src/cli/utils/path.ts:93-102 | both prebuild directories lie strictly inside the Expo root |
| `Prebuild.RemovalTarget` | apps/react2app/src/cli/commands/build/prebuild.ts:24-30 | the target is set iff the platform is `ios` or `android`, to the `getPrebuildPath` directory, and otherwise stays undefined |
| `Prebuild.Shell.constructor` | apps/react2app/src/cli/commands/build/prebuild.ts:5 | nothing has been spawned yet |
| `Prebuild.Shell.RunSpawn` | apps/react2app/src/cli/commands/build/prebuild.ts:15-18 | a spawn is appended after every earlier one |
| `Prebuild.RemovePrebuild` | apps/react2app/src/cli/commands/build/prebuild.ts:21-33 | exactly one `rm -rf <target>` is spawned |
| `Prebuild.PrebuildExpoApp` | apps/react2app/src/cli/commands/build/prebuild.ts:7-19 | the log grows by exactly `PrebuildActions`: the removal when `clean`, then `npx expo prebuild` |
| `Prebuild.PrebuildActionsSpec` | apps/react2app/src/cli/commands/build/prebuild.ts:11-18 | with `clean`, `rm -rf <platform dir>` comes first and `expo prebuild --platform p` in the Expo root last; without it there is no `rm` |
| `Prebuild.CleanRemovesCheckedPath` | apps/react2app/src/cli/commands/build/prebuild.ts:11-40 | a clean prebuild deletes exactly the directory `ensurePrebuild` later checks |

## Left out

- Child processes, `spawn`, `Promise.all`, timers and signal handling are not
  modelled. A process is the sequence of chunks and error events it
  produces. Its exit, `kill` and the five-second timeout of the earlier web
  server are left out, apart from counting `kill` calls.
- The file system, `import()` of the configuration and `process.env` are
  parameters. `fs` error texts are approximated: `ENOENT` for a missing
  copy source.
- `qrcode.generate` is modelled only by the payload it is given. chalk is
  modelled by wrapping the whole text in one pair of escape sequences.
  Three chalk behaviours are not modelled: closing and reopening the colour
  around every `\n` inside the text, returning `""` for an empty string,
  and writing no escapes at colour level 0.
- `path.join` and `path.resolve` are concatenation with one `/`. Their
  normalisation of `..`, `.` and repeated separators is not modelled.
- `toLowerCase` and `toUpperCase` are modelled on ASCII letters only.
  Unicode case mapping and normalisation are not modelled.
- The `.` and `\s` of JavaScript regular expressions follow the ECMAScript
  character sets. Surrogate pairs are single characters here.
- A configuration's fields are typed (`Option<string>`, `Option<int>`), so
  a field of another JavaScript type is not modelled. `NaN` is not
  modelled.
- `Config.ConfigObject.Normalize` updates the object's own fields. The
  aliasing of nested `ios`/`android`/`design` objects shared with other
  references is not captured.
- JSON objects are maps, so key order in a written manifest is not
  modelled. `fs.writeJson` formatting is not modelled either.
- `Network.GetAvailableAddress` leaves the `get-port` probe abstract, as a
  function from the request to a port.
- `saveToSystemFile` is not modelled. `updateExpoEnvFile` is modelled only
  by the record `setWebServerAddress` hands to it.
- `Build.EnsurePlatform` takes the prompt's answer as a parameter. The
  `inquirer` prompt itself is not modelled.
- `Prebuild.PrebuildExpoApp` records the commands it spawns. Whether a
  spawned command fails, and its `stdio: "pipe"` option, are not modelled.
- `apps/react2app/src/cli/utils/path.ts` defines no `IOS.BUILD_DIR` or
  `ANDROID.BUILD_DIR`, so every `BUILD_DIR` read is `undefined`.
  `Build.BuildDirsMissing` states the consequence: `ensureBuildFile` throws
  for both platforms.
- The errors modules of react2app and next2app
  (`apps/react2app/src/cli/errors/index.ts`, `apps/next2app/src/cli/errors/index.ts`)
  are not part of this model. The messages and codes of `ERROR_MESSAGES`
  and `ERROR_CODE` are taken from `apps/cli/src/errors/index.ts:1-38` and
  assumed to be the same. Two codes are not in that table.
  `VALIDATION_FAILED` is read as `ERROR_CODE.CONFIG.VALIDATION_FAILED` at
  apps/react2app/src/cli/utils/config.ts:189. `SERVER_START_FAILED` is a
  literal at apps/next2app/src/cli/utils/devServer.ts:130. Stack traces
  and `instanceof` chains are not modelled.
- `EnvFile.UpsertEntry` replaces a `KEY=` match by explicit search. It
  assumes the key holds no regular-expression metacharacter and the value
  no `$`. A `$&`, `$1` or `$$` in a value, which `String.replace` expands,
  is not modelled.
- `Project.DetermineReactFramework` takes the parsed `package.json`. The
  `ENOENT` of `readFileSync` and the `SyntaxError` of `JSON.parse`
  (apps/react2app/src/cli/utils/project.ts:10-11) are not modelled.
- `EnvFile.UpdateEnvFile` takes the entries as a sequence, in the order the
  caller gives. `Object.entries` lists integer-like keys first, in
  ascending order, whatever the insertion order
  (apps/react2app/src/cli/utils/env.ts:14); that reordering is not
  modelled.
- `Build.BuildFileDir`, `Prebuild.PrebuildPath`, `Prebuild.PrebuildExpoApp`
  and `Assets.PlannedCopies` take the Expo paths or the Expo root as a
  given value. They assume `getExpoPaths` succeeds. Its failures, a missing
  `react2app.config.js` or a missing `projectName`
  (apps/react2app/src/cli/utils/path.ts:34-43), are not modelled, nor is
  that lookup coming before the platform test and the `design` reads.
  The `Manifest` merges do model the `projectName` failure.
- `Build.Interpolated` reads `None` as `undefined`. A `null` build name in
  the configuration, which a template literal writes as `null`, is not
  modelled.

## Findings

| source | as written | input that shows it | evidently intended | confidence | as-written member | corrected member |
|---|---|---|---|---|---|---|
| apps/react2app/src/cli/utils/env.ts:19 | a new entry is appended with no newline before it, so it is glued to a last line that lacks one; a later entry for that line's key then overwrites both | file `A=x`, entries `B=1` then `A=2`: the result is `A=2\n`, with `B` lost, and a second run differs | every entry ends up on a line of its own and the update is idempotent | high (by proof, not executed) | `EnvLines.MissingNewlineLosesEntry` | `EnvLines.ByLinesIdempotent`, `EnvLines.ByLinesKeepsEntry` |
| apps/react2app/src/cli/utils/env.ts:16-17 | `includes(key)` and the unanchored `KEY=.*` also match a longer key that ends in `KEY` | file `XA=1\n`, entry `A=2`: the result is `XA=2\n` | only the line that assigns exactly `KEY` is rewritten, and a missing key is appended | high (by proof, not executed) | `EnvLines.SuffixKeyRewritten` | `EnvLines.UpsertKeepsOtherKey` |
| apps/next2app/src/cli/utils/ux.ts:8-18 | the guard checks only for `<AppLayout>`, which is never added to a layout without a body `{children}`, so each run prepends another import line | an empty layout file (any layout without `<`): two runs give two import lines, and `removeAppLayout` removes one | a second run writes nothing | high (by proof, not executed) | `Layout.AddStacksImports` | `Layout.AddAppLayoutOnce`, `Layout.AddOnceIdempotent` |
