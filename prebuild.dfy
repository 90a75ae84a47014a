/** The prebuild step of the `build` command: which native project
    directory belongs to a platform (`getPrebuildPath`, `ensurePrebuild`)
    and the shell commands `prebuildExpoApp` and `removePrebuild` run, in
    their order. The processes themselves are not run: a `Shell` records
    each `runSpawn` call it is handed. */
module Prebuild {
  import opened Wrappers
  import opened Errors
  import opened Paths
  import opened Config

  /** One `runSpawn(command, args, { cwd })` call. An argument is `None`
      where JavaScript passes `undefined`. */
  datatype Action = Spawn(command: string, args: seq<Option<string>>, cwd: Option<string>)

  /** The processes spawned so far, oldest first. */
  class Shell {
    var log: seq<Action>

    constructor()
      ensures log == []
    {
      log := [];
    }

    /** `runSpawn`: the call is recorded after every earlier one. */
    method RunSpawn(command: string, args: seq<Option<string>>, cwd: Option<string>)
      modifies this
      ensures log == old(log) + [Spawn(command, args, cwd)]
    {
      log := log + [Spawn(command, args, cwd)];
    }
  }

  /** `getPrebuildPath(platform)`: the platform's native project root. */
  function PrebuildPath(platform: string, paths: ExpoPaths): (r: Result<string, Error>)
    ensures platform == IOS ==> r.Ok? && r.value == paths.iosRoot
    ensures platform == ANDROID ==> r.Ok? && r.value == paths.androidRoot
    ensures platform != IOS && platform != ANDROID ==> r == Err(PlainError("Invalid platform"))
  {
    if platform == IOS then Ok(paths.iosRoot)
    else if platform == ANDROID then Ok(paths.androidRoot)
    else Err(PlainError("Invalid platform"))
  }

  /** `ensurePrebuild(platform)`, with `present` telling which paths
      exist. */
  function EnsurePrebuild(platform: string, paths: ExpoPaths, present: string -> bool): Result<string, Error> {
    var p := PrebuildPath(platform, paths);
    if p.Err? then Err(p.error)
    else if !present(p.value) then Err(PlainError("Prebuild path does not exist: " + p.value))
    else Ok(p.value)
  }

  /** The check hands back the prebuild path exactly when that path
      exists, and otherwise fails naming it; an invalid platform fails as
      the lookup does. */
  lemma EnsurePrebuildSpec(platform: string, paths: ExpoPaths, present: string -> bool)
    ensures var p := PrebuildPath(platform, paths);
      var r := EnsurePrebuild(platform, paths, present);
      && (p.Err? ==> r == Err(p.error))
      && (p.Ok? ==> (r.Ok? <==> present(p.value)))
      && (r.Ok? ==> r.value == p.value)
      && (p.Ok? && r.Err? ==> r.error == PlainError("Prebuild path does not exist: " + p.value))
  {
  }

  /** The native project directories of the Expo app lie inside the app's
      root, so the prebuild checks and the removal touch nothing outside
      it. */
  lemma PrebuildPathInsideRoot(platform: string, paths: ExpoPaths, cwd: string, expoAppName: string)
    requires paths == GetExpoPaths(cwd, expoAppName)
    requires PrebuildPath(platform, paths).Ok?
    ensures var p := PrebuildPath(platform, paths).value;
      |p| > |paths.root| + 1 && p[..|paths.root| + 1] == paths.root + "/"
  {
    var p := PrebuildPath(platform, paths).value;
    assert p == paths.root + "/" + (if platform == IOS then "ios" else "android");
    assert p[..|paths.root| + 1] == paths.root + "/";
  }

  /** The directory `removePrebuild` deletes: `prebuildPath` is assigned
      only for iOS and Android and stays `undefined` otherwise, since
      the removal does not reject other platforms. */
  method RemovalTarget(platform: string, paths: ExpoPaths) returns (prebuildPath: Option<string>)
    ensures prebuildPath.Some? <==> PrebuildPath(platform, paths).Ok?
    ensures prebuildPath.Some? ==> prebuildPath.value == PrebuildPath(platform, paths).value
  {
    prebuildPath := None;
    if platform == IOS {
      prebuildPath := Some(paths.iosRoot);
    }
    if platform == ANDROID {
      prebuildPath := Some(paths.androidRoot);
    }
  }

  /** The removal command for a target: `rm -rf <target>`. */
  function RemoveAction(target: Option<string>): Action {
    Spawn("rm", [Some("-rf"), target], None)
  }

  /** The prebuild command: `npx expo prebuild --platform <platform>`, run
      in the Expo app's root. */
  function ExpoPrebuildAction(platform: string, paths: ExpoPaths): Action {
    Spawn("npx", [Some("expo"), Some("prebuild"), Some("--platform"), Some(platform)], Some(paths.root))
  }

  /** What `removePrebuild` and then the rest of `prebuildExpoApp` spawn. */
  function PrebuildActions(platform: string, clean: bool, paths: ExpoPaths): seq<Action> {
    var p := PrebuildPath(platform, paths);
    var removal := RemoveAction(if p.Ok? then Some(p.value) else None);
    (if clean then [removal] else []) + [ExpoPrebuildAction(platform, paths)]
  }

  /** `removePrebuild(platform)`. */
  method RemovePrebuild(shell: Shell, platform: string, paths: ExpoPaths)
    modifies shell
    ensures shell.log == old(shell.log) + PrebuildActions(platform, true, paths)[..1]
  {
    var prebuildPath := RemovalTarget(platform, paths);
    shell.RunSpawn("rm", [Some("-rf"), prebuildPath], None);
  }

  /** `prebuildExpoApp(platform, { clean })`. */
  method PrebuildExpoApp(shell: Shell, platform: string, clean: bool, paths: ExpoPaths)
    modifies shell
    ensures shell.log == old(shell.log) + PrebuildActions(platform, clean, paths)
  {
    if clean {
      RemovePrebuild(shell, platform, paths);
    }
    shell.RunSpawn("npx", [Some("expo"), Some("prebuild"), Some("--platform"), Some(platform)], Some(paths.root));
  }

  /** With `clean` the platform's native directory is deleted, and that
      happens before `expo prebuild` runs in the app's root; without it
      nothing is deleted. `expo prebuild` is always the last command. */
  lemma PrebuildActionsSpec(platform: string, clean: bool, paths: ExpoPaths)
    ensures var acts := PrebuildActions(platform, clean, paths);
      && |acts| == (if clean then 2 else 1)
      && acts[|acts| - 1] == ExpoPrebuildAction(platform, paths)
      && (clean ==> acts[0].command == "rm" && acts[0].args[0] == Some("-rf"))
      && (clean && PrebuildPath(platform, paths).Ok? ==>
            acts[0].args[1] == Some(PrebuildPath(platform, paths).value))
      && (clean && PrebuildPath(platform, paths).Err? ==> acts[0].args[1].None?)
      && (forall i | 0 <= i < |acts| :: acts[i].command == "rm" <==> clean && i == 0)
  {
  }

  /** For iOS and Android a clean prebuild deletes exactly the directory
      the prebuild check later looks for. */
  lemma CleanRemovesCheckedPath(platform: string, paths: ExpoPaths, present: string -> bool)
    requires platform == IOS || platform == ANDROID
    ensures var acts := PrebuildActions(platform, true, paths);
      EnsurePrebuild(platform, paths, present).Ok? ==>
        acts[0].args[1] == Some(EnsurePrebuild(platform, paths, present).value)
  {
  }
}
