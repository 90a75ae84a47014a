/** The react2app configuration (`react2app.config.js`): filling in its
    defaults (`normalizeR2AConfig`), checking its required fields
    (`validateR2AConfig`) and the composition the build commands use
    (`ensureValidR2AConfig`).

    A string field is `None` when it is `null` or `undefined`; `Some("")`
    is the empty string, which is falsy too. The environment variables
    the normalisation reads are a parameter. */
module Config {
  import opened Wrappers
  import opened Text
  import opened Errors
  import opened Paths

  const IOS: string := "ios"
  const ANDROID: string := "android"

  const DefaultProjectName: string := "my_app"
  const DefaultProductionUrl: string := "https://example.com"
  const DefaultVersion: string := "1.0.0"
  const DefaultScheme: string := "yourscheme"
  const DefaultBackgroundColor: string := "#ffffff"
  const DefaultImageWidth: int := 200
  /** `FILE_NAMES.ANDROID.KEYSTORE` and `FILE_NAMES.ANDROID.KEY_ALIAS`. */
  const KeystoreFile: string := "release.keystore"
  const DefaultKeyAlias: string := "upload"

  datatype IosConfig = IosConfig(teamId: Option<string>)
  datatype KeyStoreConfig = KeyStoreConfig(keystorePath: Option<string>, keystorePassword: Option<string>,
                                           keyAlias: Option<string>, keyPassword: Option<string>)
  datatype AndroidConfig = AndroidConfig(keyStore: Option<KeyStoreConfig>)
  datatype SplashConfig = SplashConfig(backgroundColor: Option<string>, image: Option<string>, imageWidth: Option<int>)
  datatype DesignConfig = DesignConfig(icon: Option<string>, splash: Option<SplashConfig>)

  /** The configuration as a value; `None` for a block that is absent. */
  datatype R2AConfig = R2AConfig(
    projectName: Option<string>, displayName: Option<string>, appId: Option<string>,
    productionUrl: Option<string>, version: Option<string>, scheme: Option<string>,
    ios: Option<IosConfig>, android: Option<AndroidConfig>, design: Option<DesignConfig>)

  /** `R2A_IOS_TEAM_ID`, `R2A_ANDROID_KEYSTORE_PASSWORD` and
      `R2A_ANDROID_KEY_PASSWORD` in `process.env`. */
  datatype Env = Env(iosTeamId: Option<string>, keystorePassword: Option<string>, keyPassword: Option<string>)

  /** A string field is truthy. */
  predicate Given(o: Option<string>) {
    o.Some? && o.value != ""
  }

  /** A number field is truthy (`NaN` is not modelled). */
  predicate GivenNum(o: Option<int>) {
    o.Some? && o.value != 0
  }

  /** `value || fallback`. */
  function Or(o: Option<string>, fallback: string): (r: Option<string>)
    ensures Given(o) ==> r == o
    ensures !Given(o) ==> r == Some(fallback)
  {
    if Given(o) then o else Some(fallback)
  }

  /** The normalisation touches the `ios` block for `ios` and for no
      platform at all. */
  predicate CoversIos(platform: Option<string>) {
    platform.None? || platform.value == IOS
  }

  predicate CoversAndroid(platform: Option<string>) {
    platform.None? || platform.value == ANDROID
  }

  // ---------------------------------------------------------------------
  // normalizeR2AConfig

  /** `config.displayName?.replace(/\s/g, "") || projectName`. */
  function NormalizedDisplayName(displayName: Option<string>, projectName: string): string {
    var stripped := if displayName.Some? then RemoveWhitespace(displayName.value) else "";
    if stripped != "" then stripped else projectName
  }

  /** `if (!current && fromEnv) current = fromEnv`. */
  function FillFromEnv(current: Option<string>, fromEnv: Option<string>): Option<string> {
    if !Given(current) && Given(fromEnv) then fromEnv else current
  }

  function NormalizedIos(ios: Option<IosConfig>, env: Env): IosConfig {
    var block := if ios.Some? then ios.value else IosConfig(None);
    block.(teamId := FillFromEnv(block.teamId, env.iosTeamId))
  }

  function NormalizedAndroid(android: Option<AndroidConfig>, env: Env, r2aRoot: string): AndroidConfig {
    var block := if android.Some? then android.value else AndroidConfig(None);
    var ks := if block.keyStore.Some? then block.keyStore.value else KeyStoreConfig(None, None, None, None);
    var ks := ks.(keystorePath := Or(ks.keystorePath, PathJoin(r2aRoot, KeystoreFile)));
    var ks := ks.(keyAlias := Or(ks.keyAlias, DefaultKeyAlias));
    var ks := ks.(keystorePassword := FillFromEnv(ks.keystorePassword, env.keystorePassword));
    var ks := ks.(keyPassword := FillFromEnv(ks.keyPassword, env.keyPassword));
    block.(keyStore := Some(ks))
  }

  function NormalizedDesign(design: Option<DesignConfig>): DesignConfig {
    var block := if design.Some? then design.value else DesignConfig(None, None);
    var splash := if block.splash.Some? then block.splash.value else SplashConfig(None, None, None);
    var splash := splash.(backgroundColor := Or(splash.backgroundColor, DefaultBackgroundColor));
    var splash := if GivenNum(splash.imageWidth) then splash else splash.(imageWidth := Some(DefaultImageWidth));
    block.(splash := Some(splash))
  }

  /** The configuration `normalizeR2AConfig(config, platform)` leaves,
      with `env` for the environment and `r2aRoot` for the react2app
      directory. */
  function Normalized(c: R2AConfig, platform: Option<string>, env: Env, r2aRoot: string): R2AConfig {
    var projectName := Or(c.projectName, DefaultProjectName).value;
    R2AConfig(
      Some(projectName),
      Some(NormalizedDisplayName(c.displayName, projectName)),
      Or(c.appId, "com." + ToLower(projectName) + ".app"),
      Or(c.productionUrl, DefaultProductionUrl),
      Or(c.version, DefaultVersion),
      Or(c.scheme, DefaultScheme),
      if CoversIos(platform) then Some(NormalizedIos(c.ios, env)) else c.ios,
      if CoversAndroid(platform) then Some(NormalizedAndroid(c.android, env, r2aRoot)) else c.android,
      Some(NormalizedDesign(c.design)))
  }

  /** The configuration object `normalizeR2AConfig` updates field by field. */
  class ConfigObject {
    var projectName: Option<string>
    var displayName: Option<string>
    var appId: Option<string>
    var productionUrl: Option<string>
    var version: Option<string>
    var scheme: Option<string>
    var ios: Option<IosConfig>
    var android: Option<AndroidConfig>
    var design: Option<DesignConfig>

    constructor (c: R2AConfig)
      ensures Record() == c
    {
      projectName, displayName, appId := c.projectName, c.displayName, c.appId;
      productionUrl, version, scheme := c.productionUrl, c.version, c.scheme;
      ios, android, design := c.ios, c.android, c.design;
    }

    function Record(): R2AConfig
      reads this
    {
      R2AConfig(projectName, displayName, appId, productionUrl, version, scheme, ios, android, design)
    }

    /** `normalizeR2AConfig(config, platform)`: the common fields, then
        the `ios` and `android` blocks for the platforms they cover, then
        the design. */
    method Normalize(platform: Option<string>, env: Env, r2aRoot: string)
      modifies this
      ensures Record() == Normalized(old(Record()), platform, env, r2aRoot)
    {
      NormalizeCommon();
      if CoversIos(platform) {
        NormalizeIos(env);
      }
      if CoversAndroid(platform) {
        NormalizeAndroid(env, r2aRoot);
      }
      NormalizeDesign();
    }

    /** The defaults of the top-level strings. */
    method NormalizeCommon()
      modifies this`projectName, this`displayName, this`appId, this`productionUrl, this`version, this`scheme
      ensures var name := Or(old(projectName), DefaultProjectName).value;
        && projectName == Some(name)
        && displayName == Some(NormalizedDisplayName(old(displayName), name))
        && appId == Or(old(appId), "com." + ToLower(name) + ".app")
        && productionUrl == Or(old(productionUrl), DefaultProductionUrl)
        && version == Or(old(version), DefaultVersion)
        && scheme == Or(old(scheme), DefaultScheme)
    {
      projectName := if Given(projectName) then projectName else Some(DefaultProjectName);
      var stripped := if displayName.Some? then RemoveWhitespace(displayName.value) else "";
      displayName := if stripped != "" then Some(stripped) else projectName;
      if !Given(appId) {
        appId := Some("com." + ToLower(projectName.value) + ".app");
      }
      if !Given(productionUrl) {
        productionUrl := Some(DefaultProductionUrl);
      }
      if !Given(version) {
        version := Some(DefaultVersion);
      }
      if !Given(scheme) {
        scheme := Some(DefaultScheme);
      }
    }

    /** `config.ios = config.ios || {}` and the team id from the
        environment. */
    method NormalizeIos(env: Env)
      modifies this`ios
      ensures ios == Some(NormalizedIos(old(ios), env))
    {
      var block := if ios.Some? then ios.value else IosConfig(None);
      if !Given(block.teamId) && Given(env.iosTeamId) {
        block := block.(teamId := env.iosTeamId);
      }
      ios := Some(block);
    }

    /** `config.android = config.android || {}`, its keystore block and
        the keystore defaults. */
    method NormalizeAndroid(env: Env, r2aRoot: string)
      modifies this`android
      ensures android == Some(NormalizedAndroid(old(android), env, r2aRoot))
    {
      var block := if android.Some? then android.value else AndroidConfig(None);
      var ks := if block.keyStore.Some? then block.keyStore.value else KeyStoreConfig(None, None, None, None);
      if !Given(ks.keystorePath) {
        ks := ks.(keystorePath := Some(PathJoin(r2aRoot, KeystoreFile)));
      }
      if !Given(ks.keyAlias) {
        ks := ks.(keyAlias := Some(DefaultKeyAlias));
      }
      if !Given(ks.keystorePassword) && Given(env.keystorePassword) {
        ks := ks.(keystorePassword := env.keystorePassword);
      }
      if !Given(ks.keyPassword) && Given(env.keyPassword) {
        ks := ks.(keyPassword := env.keyPassword);
      }
      android := Some(block.(keyStore := Some(ks)));
    }

    /** `config.design = config.design || {}` and the splash defaults. */
    method NormalizeDesign()
      modifies this`design
      ensures design == Some(NormalizedDesign(old(design)))
    {
      var block := if design.Some? then design.value else DesignConfig(None, None);
      var splash := if block.splash.Some? then block.splash.value else SplashConfig(None, None, None);
      if !Given(splash.backgroundColor) {
        splash := splash.(backgroundColor := Some(DefaultBackgroundColor));
      }
      if !GivenNum(splash.imageWidth) {
        splash := splash.(imageWidth := Some(DefaultImageWidth));
      }
      design := Some(block.(splash := Some(splash)));
    }
  }

  /** Truthy top-level strings are kept and falsy ones get their
      defaults; the app id defaults to `com.<project name in lower
      case>.app`. */
  lemma NormalizeDefaults(c: R2AConfig, platform: Option<string>, env: Env, r2aRoot: string)
    ensures var r := Normalized(c, platform, env, r2aRoot);
      && (Given(c.projectName) ==> r.projectName == c.projectName)
      && (!Given(c.projectName) ==> r.projectName == Some(DefaultProjectName))
      && (Given(c.appId) ==> r.appId == c.appId)
      && (!Given(c.appId) ==> r.appId == Some("com." + ToLower(r.projectName.value) + ".app"))
      && (Given(c.productionUrl) ==> r.productionUrl == c.productionUrl)
      && (!Given(c.productionUrl) ==> r.productionUrl == Some(DefaultProductionUrl))
      && (Given(c.version) ==> r.version == c.version)
      && (!Given(c.version) ==> r.version == Some(DefaultVersion))
      && (Given(c.scheme) ==> r.scheme == c.scheme)
      && (!Given(c.scheme) ==> r.scheme == Some(DefaultScheme))
  {
  }

  /** The display name is the configured one without its whitespace, or
      the project name when that leaves nothing. */
  lemma NormalizeDisplayName(c: R2AConfig, platform: Option<string>, env: Env, r2aRoot: string)
    ensures var r := Normalized(c, platform, env, r2aRoot);
      && r.displayName.Some? && r.displayName.value != ""
      && (c.displayName.Some? && !IsBlank(c.displayName.value) ==>
            r.displayName.value == RemoveWhitespace(c.displayName.value)
            && forall i | 0 <= i < |r.displayName.value| :: !IsJsWhitespace(r.displayName.value[i]))
      && (c.displayName.None? || IsBlank(c.displayName.value) ==> r.displayName == r.projectName)
  {
    if c.displayName.Some? {
      RemoveWhitespaceSpec(c.displayName.value);
    }
  }

  /** The `ios` block is only touched for `ios` or no platform, then
      always present; a truthy team id is kept and a falsy one is taken
      from `R2A_IOS_TEAM_ID` when that is set. */
  lemma NormalizeIos(c: R2AConfig, platform: Option<string>, env: Env, r2aRoot: string)
    ensures var r := Normalized(c, platform, env, r2aRoot);
      && (!CoversIos(platform) ==> r.ios == c.ios)
      && (CoversIos(platform) ==>
            var before := if c.ios.Some? then c.ios.value.teamId else None;
            && r.ios.Some?
            && (Given(before) ==> r.ios.value.teamId == before)
            && (!Given(before) && Given(env.iosTeamId) ==> r.ios.value.teamId == env.iosTeamId)
            && (!Given(before) && !Given(env.iosTeamId) ==> r.ios.value.teamId == before))
  {
  }

  /** The `android` block is only touched for `android` or no platform;
      then a falsy keystore path becomes the `release.keystore` file of the
      react2app directory, a falsy key alias `upload`, and falsy passwords
      are taken from the environment when set there. */
  lemma NormalizeAndroid(c: R2AConfig, platform: Option<string>, env: Env, r2aRoot: string)
    ensures var r := Normalized(c, platform, env, r2aRoot);
      && (!CoversAndroid(platform) ==> r.android == c.android)
      && (CoversAndroid(platform) ==>
            var before := if c.android.Some? && c.android.value.keyStore.Some? then c.android.value.keyStore.value
                          else KeyStoreConfig(None, None, None, None);
            && r.android.Some? && r.android.value.keyStore.Some?
            && var ks := r.android.value.keyStore.value;
            && ks.keystorePath == Or(before.keystorePath, PathJoin(r2aRoot, KeystoreFile))
            && ks.keyAlias == Or(before.keyAlias, DefaultKeyAlias)
            && (Given(before.keystorePassword) || !Given(env.keystorePassword) ==> ks.keystorePassword == before.keystorePassword)
            && (!Given(before.keystorePassword) && Given(env.keystorePassword) ==> ks.keystorePassword == env.keystorePassword)
            && (Given(before.keyPassword) || !Given(env.keyPassword) ==> ks.keyPassword == before.keyPassword)
            && (!Given(before.keyPassword) && Given(env.keyPassword) ==> ks.keyPassword == env.keyPassword))
  {
  }

  /** The splash screen gets background colour `#ffffff` and image width
      200 when those are falsy; the icon and the splash image are never
      filled in. */
  lemma NormalizeDesign(c: R2AConfig, platform: Option<string>, env: Env, r2aRoot: string)
    ensures var r := Normalized(c, platform, env, r2aRoot);
      var before := if c.design.Some? && c.design.value.splash.Some? then c.design.value.splash.value
                    else SplashConfig(None, None, None);
      && r.design.Some? && r.design.value.splash.Some?
      && r.design.value.icon == (if c.design.Some? then c.design.value.icon else None)
      && var s := r.design.value.splash.value;
      && s.backgroundColor == Or(before.backgroundColor, DefaultBackgroundColor)
      && s.image == before.image
      && (GivenNum(before.imageWidth) ==> s.imageWidth == before.imageWidth)
      && (!GivenNum(before.imageWidth) ==> s.imageWidth == Some(DefaultImageWidth))
  {
  }

  // ---------------------------------------------------------------------
  // validateR2AConfig

  const ProjectNameRequired: string := "Project name is required in the configuration"
  const DisplayNameRequired: string := "Display name is required in the configuration"
  const AppIdRequired: string := "App ID is required in the configuration"
  const ProductionUrlRequired: string := "Production URL is required in the configuration"
  const VersionRequired: string := "Version is required in the configuration"
  const SchemeRequired: string := "URL scheme is required in the configuration"
  const IconRequired: string := "App icon path is required in the design configuration"
  const BackgroundColorRequired: string := "Splash screen background color is required in the design configuration"
  const SplashImageRequired: string := "Splash screen image path is required in the design configuration"
  const TeamIdRequired: string := "Team ID is required for iOS configuration"
  const KeystorePathRequired: string := "Keystore path is required for Android configuration"
  const KeystorePasswordRequired: string := "Keystore password is required for Android configuration"
  const KeyAliasRequired: string := "Key alias is required for Android configuration"
  const KeyPasswordRequired: string := "Key password is required for Android configuration"

  function ValidationError(message: string): Error {
    Error(ConfigErr, message, ConfigValidationFailed, None)
  }

  /** `config.design?.icon`, `config.design?.splash?.…`, `config.ios?.teamId`
      and `config.android?.keyStore?.…`: absent along the way reads as
      `undefined`. */
  function IconOf(c: R2AConfig): Option<string> {
    if c.design.Some? then c.design.value.icon else None
  }

  function SplashOf(c: R2AConfig): SplashConfig {
    if c.design.Some? && c.design.value.splash.Some? then c.design.value.splash.value else SplashConfig(None, None, None)
  }

  function TeamIdOf(c: R2AConfig): Option<string> {
    if c.ios.Some? then c.ios.value.teamId else None
  }

  function KeyStoreOf(c: R2AConfig): KeyStoreConfig {
    if c.android.Some? && c.android.value.keyStore.Some? then c.android.value.keyStore.value
    else KeyStoreConfig(None, None, None, None)
  }

  /** `validateR2AConfig(config, platform)`: the first check that fails
      throws a ConfigError with code `VALIDATION_FAILED`. */
  function Validate(c: R2AConfig, platform: Option<string>): Option<Error> {
    if !Given(c.projectName) then Some(ValidationError(ProjectNameRequired))
    else if !Given(c.displayName) then Some(ValidationError(DisplayNameRequired))
    else if !Given(c.appId) then Some(ValidationError(AppIdRequired))
    else if !Given(c.productionUrl) then Some(ValidationError(ProductionUrlRequired))
    else if !Given(c.version) then Some(ValidationError(VersionRequired))
    else if !Given(c.scheme) then Some(ValidationError(SchemeRequired))
    else if !Given(IconOf(c)) then Some(ValidationError(IconRequired))
    else if !Given(SplashOf(c).backgroundColor) then Some(ValidationError(BackgroundColorRequired))
    else if !Given(SplashOf(c).image) then Some(ValidationError(SplashImageRequired))
    else if CoversIos(platform) && !Given(TeamIdOf(c)) then Some(ValidationError(TeamIdRequired))
    else if CoversAndroid(platform) && !Given(KeyStoreOf(c).keystorePath) then Some(ValidationError(KeystorePathRequired))
    else if CoversAndroid(platform) && !Given(KeyStoreOf(c).keystorePassword) then Some(ValidationError(KeystorePasswordRequired))
    else if CoversAndroid(platform) && !Given(KeyStoreOf(c).keyAlias) then Some(ValidationError(KeyAliasRequired))
    else if CoversAndroid(platform) && !Given(KeyStoreOf(c).keyPassword) then Some(ValidationError(KeyPasswordRequired))
    else None
  }

  /** One required field: whether it is present, and the message when it
      is not. */
  datatype Check = Check(passes: bool, message: string)

  /** The required fields in the order they are checked; the
      platform-specific ones only for the platforms they cover. */
  function Checks(c: R2AConfig, platform: Option<string>): seq<Check> {
    [Check(Given(c.projectName), ProjectNameRequired)] +
    ([Check(Given(c.displayName), DisplayNameRequired)] +
     ([Check(Given(c.appId), AppIdRequired)] +
      ([Check(Given(c.productionUrl), ProductionUrlRequired)] +
       ([Check(Given(c.version), VersionRequired)] +
        ([Check(Given(c.scheme), SchemeRequired)] +
         ([Check(Given(IconOf(c)), IconRequired)] +
          ([Check(Given(SplashOf(c).backgroundColor), BackgroundColorRequired)] +
           ([Check(Given(SplashOf(c).image), SplashImageRequired)] +
            PlatformChecks(c, platform)))))))))
  }

  function PlatformChecks(c: R2AConfig, platform: Option<string>): seq<Check> {
    (if CoversIos(platform) then [Check(Given(TeamIdOf(c)), TeamIdRequired)] else []) + AndroidChecks(c, platform)
  }

  function AndroidChecks(c: R2AConfig, platform: Option<string>): seq<Check> {
    if CoversAndroid(platform) then
      [Check(Given(KeyStoreOf(c).keystorePath), KeystorePathRequired)] +
      ([Check(Given(KeyStoreOf(c).keystorePassword), KeystorePasswordRequired)] +
       ([Check(Given(KeyStoreOf(c).keyAlias), KeyAliasRequired)] +
        [Check(Given(KeyStoreOf(c).keyPassword), KeyPasswordRequired)]))
    else []
  }

  /** The message of the first failing check, if any. */
  function FirstFailure(checks: seq<Check>): Option<string> {
    if |checks| == 0 then None
    else if !checks[0].passes then Some(checks[0].message)
    else FirstFailure(checks[1..])
  }

  /** There is no failure exactly when every check passes; otherwise the
      failure is the message of a failing check all of whose predecessors
      pass. */
  lemma {:induction false} FirstFailureSpec(checks: seq<Check>)
    ensures var r := FirstFailure(checks);
      && (r.None? <==> forall i | 0 <= i < |checks| :: checks[i].passes)
      && (r.Some? ==> exists i | 0 <= i < |checks| ::
            !checks[i].passes && checks[i].message == r.value && forall j | 0 <= j < i :: checks[j].passes)
  {
    if |checks| > 0 && checks[0].passes {
      var rest := checks[1..];
      FirstFailureSpec(rest);
      var r := FirstFailure(rest);
      if r.Some? {
        var i :| 0 <= i < |rest| && !rest[i].passes && rest[i].message == r.value
          && forall j | 0 <= j < i :: rest[j].passes;
        assert forall j | 1 <= j < i + 1 :: checks[j] == rest[j - 1];
        assert !checks[i + 1].passes && checks[i + 1].message == r.value;
      } else {
        assert forall i | 1 <= i < |checks| :: checks[i] == rest[i - 1];
      }
    }
  }

  /** One step of the search for the first failure. */
  lemma FirstFailureCons(x: Check, rest: seq<Check>)
    ensures FirstFailure([x] + rest) == if x.passes then FirstFailure(rest) else Some(x.message)
  {
    assert ([x] + rest)[1..] == rest;
  }

  /** The platform-specific checks: the team id where iOS is covered,
      then the keystore fields where Android is. */
  lemma PlatformFirstFailure(c: R2AConfig, platform: Option<string>)
    ensures var ks := KeyStoreOf(c);
      FirstFailure(PlatformChecks(c, platform)) ==
        if CoversIos(platform) && !Given(TeamIdOf(c)) then Some(TeamIdRequired)
        else if CoversAndroid(platform) && !Given(ks.keystorePath) then Some(KeystorePathRequired)
        else if CoversAndroid(platform) && !Given(ks.keystorePassword) then Some(KeystorePasswordRequired)
        else if CoversAndroid(platform) && !Given(ks.keyAlias) then Some(KeyAliasRequired)
        else if CoversAndroid(platform) && !Given(ks.keyPassword) then Some(KeyPasswordRequired)
        else None
  {
    var ks := KeyStoreOf(c);
    var a := AndroidChecks(c, platform);
    if CoversAndroid(platform) {
      var a4 := [Check(Given(ks.keyPassword), KeyPasswordRequired)];
      var a3 := [Check(Given(ks.keyAlias), KeyAliasRequired)] + a4;
      var a2 := [Check(Given(ks.keystorePassword), KeystorePasswordRequired)] + a3;
      FirstFailureCons(Check(Given(ks.keystorePath), KeystorePathRequired), a2);
      FirstFailureCons(Check(Given(ks.keystorePassword), KeystorePasswordRequired), a3);
      FirstFailureCons(Check(Given(ks.keyAlias), KeyAliasRequired), a4);
      FirstFailureCons(Check(Given(ks.keyPassword), KeyPasswordRequired), []);
    }
    if CoversIos(platform) {
      FirstFailureCons(Check(Given(TeamIdOf(c)), TeamIdRequired), a);
    } else {
      assert PlatformChecks(c, platform) == a;
    }
  }

  /** Validation reports the first missing field of the fixed order. */
  lemma ValidateIsFirstFailure(c: R2AConfig, platform: Option<string>)
    ensures var f := FirstFailure(Checks(c, platform));
      && (f.None? ==> Validate(c, platform).None?)
      && (f.Some? ==> Validate(c, platform) == Some(ValidationError(f.value)))
  {
    var p := PlatformChecks(c, platform);
    PlatformFirstFailure(c, platform);
    var s9 := [Check(Given(SplashOf(c).image), SplashImageRequired)] + p;
    var s8 := [Check(Given(SplashOf(c).backgroundColor), BackgroundColorRequired)] + s9;
    var s7 := [Check(Given(IconOf(c)), IconRequired)] + s8;
    var s6 := [Check(Given(c.scheme), SchemeRequired)] + s7;
    var s5 := [Check(Given(c.version), VersionRequired)] + s6;
    var s4 := [Check(Given(c.productionUrl), ProductionUrlRequired)] + s5;
    var s3 := [Check(Given(c.appId), AppIdRequired)] + s4;
    var s2 := [Check(Given(c.displayName), DisplayNameRequired)] + s3;
    FirstFailureCons(Check(Given(c.projectName), ProjectNameRequired), s2);
    FirstFailureCons(Check(Given(c.displayName), DisplayNameRequired), s3);
    FirstFailureCons(Check(Given(c.appId), AppIdRequired), s4);
    FirstFailureCons(Check(Given(c.productionUrl), ProductionUrlRequired), s5);
    FirstFailureCons(Check(Given(c.version), VersionRequired), s6);
    FirstFailureCons(Check(Given(c.scheme), SchemeRequired), s7);
    FirstFailureCons(Check(Given(IconOf(c)), IconRequired), s8);
    FirstFailureCons(Check(Given(SplashOf(c).backgroundColor), BackgroundColorRequired), s9);
    FirstFailureCons(Check(Given(SplashOf(c).image), SplashImageRequired), p);
  }

  /** Validation passes exactly when every check of the table passes; when
      it fails, its message is that of a failing check all of whose
      predecessors pass. */
  lemma ValidatePassesIff(c: R2AConfig, platform: Option<string>)
    ensures var checks := Checks(c, platform);
      && (Validate(c, platform).None? <==> forall i | 0 <= i < |checks| :: checks[i].passes)
      && (Validate(c, platform).Some? ==> exists i | 0 <= i < |checks| ::
            !checks[i].passes && Validate(c, platform).value.message == checks[i].message
            && forall j | 0 <= j < i :: checks[j].passes)
  {
    ValidateIsFirstFailure(c, platform);
    FirstFailureSpec(Checks(c, platform));
  }

  /** Normalisation fills every required field but five: the top-level
      strings, the splash background colour, and the keystore path and
      key alias where it covers Android. */
  lemma NormalizedFills(c: R2AConfig, platform: Option<string>, env: Env, r2aRoot: string)
    ensures var n := Normalized(c, platform, env, r2aRoot);
      && Given(n.projectName) && Given(n.displayName) && Given(n.appId)
      && Given(n.productionUrl) && Given(n.version) && Given(n.scheme)
      && Given(SplashOf(n).backgroundColor)
      && (CoversAndroid(platform) ==> Given(KeyStoreOf(n).keystorePath) && Given(KeyStoreOf(n).keyAlias))
  {
    NormalizeDisplayName(c, platform, env, r2aRoot);
  }

  /** After normalisation only the icon, the splash image, the iOS team id,
      the keystore password and the key password can be missing: the
      result is the first of those that is. */
  lemma NormalizedCanOnlyMiss(c: R2AConfig, platform: Option<string>, env: Env, r2aRoot: string)
    ensures var n := Normalized(c, platform, env, r2aRoot);
      var v := Validate(n, platform);
      && (v.Some? ==> v.value.message in {IconRequired, SplashImageRequired, TeamIdRequired,
                                          KeystorePasswordRequired, KeyPasswordRequired})
      && v == (if !Given(IconOf(n)) then Some(ValidationError(IconRequired))
               else if !Given(SplashOf(n).image) then Some(ValidationError(SplashImageRequired))
               else if CoversIos(platform) && !Given(TeamIdOf(n)) then Some(ValidationError(TeamIdRequired))
               else if CoversAndroid(platform) && !Given(KeyStoreOf(n).keystorePassword) then Some(ValidationError(KeystorePasswordRequired))
               else if CoversAndroid(platform) && !Given(KeyStoreOf(n).keyPassword) then Some(ValidationError(KeyPasswordRequired))
               else None)
  {
    NormalizedFills(c, platform, env, r2aRoot);
  }

  // ---------------------------------------------------------------------
  // ensureValidR2AConfig

  /** What loading `react2app.config.js` gives: no file, an import that
      throws, or the module's default export (`None` when it is falsy). */
  datatype Loaded = NoFile | ImportFailed | Imported(defaultExport: Option<R2AConfig>)

  const ConfigNotFoundError: Error := Error(ConfigErr, "R2A config file not found", ConfigNotFound, None)
  const ConfigLoadFailedError: Error := Error(ConfigErr, "Failed to load R2A config", ConfigLoadFailed, None)

  /** `ensureR2AConfig()`. */
  function EnsureConfig(loaded: Loaded): (r: Result<R2AConfig, Error>)
    ensures r.Ok? <==> loaded.Imported? && loaded.defaultExport.Some?
    ensures r.Ok? ==> r.value == loaded.defaultExport.value
    ensures loaded.ImportFailed? ==> r == Err(ConfigLoadFailedError)
    ensures loaded.NoFile? || (loaded.Imported? && loaded.defaultExport.None?) ==> r == Err(ConfigNotFoundError)
  {
    match loaded
    case NoFile => Err(ConfigNotFoundError)
    case ImportFailed => Err(ConfigLoadFailedError)
    case Imported(defaultExport) => if defaultExport.Some? then Ok(defaultExport.value) else Err(ConfigNotFoundError)
  }

  /** `ensureValidR2AConfig(platform)`: load, normalise, validate, and
      return the normalised configuration. */
  function EnsureValid(loaded: Loaded, platform: Option<string>, env: Env, r2aRoot: string): Result<R2AConfig, Error> {
    var loadedConfig := EnsureConfig(loaded);
    if loadedConfig.Err? then Err(loadedConfig.error)
    else
      var n := Normalized(loadedConfig.value, platform, env, r2aRoot);
      var v := Validate(n, platform);
      if v.Some? then Err(v.value) else Ok(n)
  }

  /** A configuration that comes back passes validation and is the
      normalised form of the loaded one; a loaded configuration fails
      only on one of the five fields normalisation cannot fill. */
  lemma EnsureValidSpec(loaded: Loaded, platform: Option<string>, env: Env, r2aRoot: string)
    ensures var r := EnsureValid(loaded, platform, env, r2aRoot);
      && (r.Ok? ==> loaded.Imported? && loaded.defaultExport.Some?
                    && r.value == Normalized(loaded.defaultExport.value, platform, env, r2aRoot)
                    && Validate(r.value, platform).None?)
      && (loaded.NoFile? ==> r == Err(ConfigNotFoundError))
      && (loaded.ImportFailed? ==> r == Err(ConfigLoadFailedError))
      && (loaded.Imported? && loaded.defaultExport.Some? && r.Err? ==>
            r.error.code == ConfigValidationFailed
            && r.error.message in {IconRequired, SplashImageRequired, TeamIdRequired,
                                   KeystorePasswordRequired, KeyPasswordRequired})
  {
    if loaded.Imported? && loaded.defaultExport.Some? {
      NormalizedCanOnlyMiss(loaded.defaultExport.value, platform, env, r2aRoot);
    }
  }
}
