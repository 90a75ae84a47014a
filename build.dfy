/** The helpers of the `build` command: where the built artefact of a
    platform lies (`getBuildFileDir`, `getBuildFileInfo`,
    `ensureBuildFile`), the platform to build (`ensurePlatform`) and the
    environment handed to fastlane (`getFastlanePlatformEnv`).

    The loaded configuration (`ensureR2AConfig()`), the Expo paths, the
    working directory, the file system and the prompt's answer are
    inputs. */
module Build {
  import opened Wrappers
  import opened Js
  import opened Errors
  import opened Paths
  import opened Config

  const InvalidPlatform: Error := PlainError("Invalid platform")

  /** `getBuildFileDir(platform)`: the platform's `BUILD_DIR` entry, which
      is `undefined` (`None`) where the Expo paths have none. */
  function BuildFileDir(platform: string, paths: ExpoPaths): (r: Result<Option<string>, Error>)
    ensures r.Err? <==> platform != IOS && platform != ANDROID
    ensures r.Err? ==> r.error == InvalidPlatform
  {
    if platform == IOS then Ok(paths.iosBuildDir)
    else if platform == ANDROID then Ok(paths.androidBuildDir)
    else Err(InvalidPlatform)
  }

  /** The three parts `getBuildFileInfo` returns. */
  datatype BuildFile = BuildFile(buildDir: Option<string>, buildFilename: Option<string>, buildFileFormat: string)

  /** `getBuildFileInfo(platform)`: the directory is looked up first, then
      the configuration is loaded. */
  function BuildFileInfo(platform: string, paths: ExpoPaths, config: Result<R2AConfig, Error>): Result<BuildFile, Error> {
    var dir := BuildFileDir(platform, paths);
    if dir.Err? then Err(dir.error)
    else if config.Err? then Err(config.error)
    else if platform == IOS then Ok(BuildFile(dir.value, config.value.displayName, "ipa"))
    else if platform == ANDROID then Ok(BuildFile(dir.value, Some("app-release"), "aab"))
    else Err(InvalidPlatform)
  }

  /** A string in a template literal: `undefined` is written out. `None`
      stands for `undefined` only; a JSON `null`, which would be written
      as `null`, is not modelled. */
  function Interpolated(o: Option<string>): string {
    if o.Some? then o.value else "undefined"
  }

  /** The artefact's path, `path.join(buildDir, "<name>.<format>")`, which
      throws when the directory is `undefined`. */
  function BuildFilePath(info: BuildFile): Result<string, Error> {
    if info.buildDir.None? then Err(PathArgumentError)
    else Ok(PathJoin(info.buildDir.value, Interpolated(info.buildFilename) + "." + info.buildFileFormat))
  }

  /** `ensureBuildFile(platform)`, with `present` telling which paths
      exist. */
  function EnsureBuildFile(platform: string, paths: ExpoPaths, config: Result<R2AConfig, Error>,
                           present: string -> bool): Result<BuildFile, Error> {
    var info := BuildFileInfo(platform, paths, config);
    if info.Err? then Err(info.error)
    else
      var path := BuildFilePath(info.value);
      if path.Err? then Err(path.error)
      else if !present(path.value) then Err(PlainError("Build file does not exist: " + path.value))
      else Ok(info.value)
  }

  /** An iOS build is the `.ipa` named after the display name, an Android
      build the `app-release.aab`, each in the platform's build directory.
      Any other platform is refused before the configuration is read; a
      configuration that fails to load fails the rest. */
  lemma BuildFileInfoSpec(platform: string, paths: ExpoPaths, config: Result<R2AConfig, Error>)
    ensures var r := BuildFileInfo(platform, paths, config);
      && (platform != IOS && platform != ANDROID ==> r == Err(InvalidPlatform))
      && ((platform == IOS || platform == ANDROID) && config.Err? ==> r == Err(config.error))
      && (platform == IOS && config.Ok? ==>
            r == Ok(BuildFile(paths.iosBuildDir, config.value.displayName, "ipa")))
      && (platform == ANDROID && config.Ok? ==>
            r == Ok(BuildFile(paths.androidBuildDir, Some("app-release"), "aab")))
  {
  }

  /** The check passes exactly when the artefact exists, and then hands
      back the three parts unchanged; a missing artefact fails naming its
      path. */
  lemma EnsureBuildFileSpec(platform: string, paths: ExpoPaths, config: Result<R2AConfig, Error>,
                            present: string -> bool)
    ensures var info := BuildFileInfo(platform, paths, config);
      var r := EnsureBuildFile(platform, paths, config, present);
      && (info.Err? ==> r == Err(info.error))
      && (info.Ok? ==>
            && (info.value.buildDir.None? ==> r == Err(PathArgumentError))
            && (info.value.buildDir.Some? ==>
                  var path := PathJoin(info.value.buildDir.value,
                                       Interpolated(info.value.buildFilename) + "." + info.value.buildFileFormat);
                  && (r.Ok? <==> present(path))
                  && (r.Ok? ==> r.value == info.value)
                  && (r.Err? ==> r.error == PlainError("Build file does not exist: " + path))))
  {
  }

  /** With the paths `PATHS.getExpoPaths()` gives, which define no build
      directory, the check fails for both platforms once the
      configuration loads: `path.join` is handed `undefined`. */
  lemma BuildDirsMissing(cwd: string, expoAppName: string, platform: string, config: Result<R2AConfig, Error>,
                         present: string -> bool)
    requires platform == IOS || platform == ANDROID
    requires config.Ok?
    ensures EnsureBuildFile(platform, GetExpoPaths(cwd, expoAppName), config, present) == Err(PathArgumentError)
  {
  }

  /** `ensurePlatform(initialPlatform)`: a platform that is given is used;
      otherwise the answer to the prompt, `selected`, is. */
  function EnsurePlatform(initialPlatform: Option<string>, selected: string): (r: string)
    ensures Given(initialPlatform) ==> r == initialPlatform.value
    ensures !Given(initialPlatform) ==> r == selected
  {
    if Given(initialPlatform) then initialPlatform.value else selected
  }

  /** Once a platform is settled, settling it again keeps it and asks
      nothing. */
  lemma EnsurePlatformIdempotent(initialPlatform: Option<string>, selected: string, again: string)
    requires Given(initialPlatform) || selected != ""
    ensures EnsurePlatform(Some(EnsurePlatform(initialPlatform, selected)), again)
            == EnsurePlatform(initialPlatform, selected)
  {
  }

  /** The keys handed to fastlane. */
  const TeamIdKey: string := "TEAM_ID"
  const KeystorePathKey: string := "KEYSTORE_PATH"
  const KeystorePasswordKey: string := "KEYSTORE_PASSWORD"
  const KeyAliasKey: string := "KEY_ALIAS"
  const KeyPasswordKey: string := "KEY_PASSWORD"

  /** `getFastlanePlatformEnv(platform)`; `cwd` is the directory
      `path.resolve` resolves against. A value is `None` where the
      configuration leaves the field `undefined`. Reading a field of an
      absent block fails as JavaScript does. */
  function FastlaneEnv(platform: string, config: Result<R2AConfig, Error>, cwd: string): Result<map<string, Option<string>>, Error> {
    if config.Err? then Err(config.error)
    else
      var c := config.value;
      if platform == IOS then
        if c.ios.None? then Err(PropertyReadError(Undefined, "teamId"))
        else Ok(map[TeamIdKey := c.ios.value.teamId])
      else if platform == ANDROID then
        if c.android.None? then Err(PropertyReadError(Undefined, "keyStore"))
        else if c.android.value.keyStore.None? then Err(PropertyReadError(Undefined, "keystorePath"))
        else
          var k := c.android.value.keyStore.value;
          if k.keystorePath.None? then Err(PathArgumentError)
          else Ok(map[KeystorePathKey := Some(PathResolve(cwd, k.keystorePath.value)),
                      KeystorePasswordKey := k.keystorePassword,
                      KeyAliasKey := k.keyAlias,
                      KeyPasswordKey := k.keyPassword])
      else Err(InvalidPlatform)
  }

  /** For iOS the environment is exactly the team id; for Android exactly
      the four keystore entries of the configuration, with the keystore
      path resolved. The configuration is loaded before the platform is
      looked at, so a failed load wins over an invalid platform. */
  lemma FastlaneEnvSpec(platform: string, config: Result<R2AConfig, Error>, cwd: string)
    ensures var r := FastlaneEnv(platform, config, cwd);
      && (config.Err? ==> r == Err(config.error))
      && (config.Ok? && platform != IOS && platform != ANDROID ==> r == Err(InvalidPlatform))
      && (r.Ok? && platform == IOS ==>
            r.value.Keys == {TeamIdKey} && r.value[TeamIdKey] == config.value.ios.value.teamId)
      && (r.Ok? && platform == ANDROID ==>
            var k := config.value.android.value.keyStore.value;
            && r.value.Keys == {KeystorePathKey, KeystorePasswordKey, KeyAliasKey, KeyPasswordKey}
            && r.value[KeystorePathKey] == Some(PathResolve(cwd, k.keystorePath.value))
            && r.value[KeystorePasswordKey] == k.keystorePassword
            && r.value[KeyAliasKey] == k.keyAlias
            && r.value[KeyPasswordKey] == k.keyPassword)
      && (config.Ok? && platform == IOS ==> (r.Ok? <==> config.value.ios.Some?))
      && (config.Ok? && platform == ANDROID ==>
            (r.Ok? <==> config.value.android.Some? && config.value.android.value.keyStore.Some?
                        && config.value.android.value.keyStore.value.keystorePath.Some?))
  {
  }

  /** A configuration that passed validation for Android gives fastlane
      both passwords. */
  lemma FastlaneEnvAfterValidation(config: R2AConfig, cwd: string)
    requires Validate(config, Some(ANDROID)).None?
    requires config.android.Some? && config.android.value.keyStore.Some?
    requires config.android.value.keyStore.value.keystorePath.Some?
    ensures var r := FastlaneEnv(ANDROID, Ok(config), cwd);
      r.Ok? && Given(r.value[KeystorePasswordKey]) && Given(r.value[KeyPasswordKey])
  {
    ValidatePassesIff(config, Some(ANDROID));
  }
}
