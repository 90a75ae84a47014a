/** Keeping the Expo manifest (`app.json`) in step with the project's
    configuration: the merges that overwrite the app's identity, version,
    scheme, icon and splash screen while keeping every other key. Copying
    the icon and splash image is the Assets module.

    A manifest is the JSON value `fs.readJson` parsed, or `None` when the
    file is missing or unreadable. The merged value is the manifest as
    `fs.writeJson` writes it: a key whose value is `undefined` is left out,
    which `Put` models. Configuration values are taken to be JSON values
    or `undefined`. */
module Manifest {
  import opened Wrappers
  import opened Js
  import opened Errors
  import opened Paths

  const IconAsset: string := "./assets/images/icon.png"
  const SplashAsset: string := "./assets/images/splash.png"
  const SplashPlugin: string := "expo-splash-screen"

  /** A key of an object as written: its value, or absent. */
  function Lookup(m: map<string, Value>, k: string): Option<Value> {
    if k in m then Some(m[k]) else None
  }

  /** The written form of `{ k: v }`: `undefined` leaves the key out. */
  function Defined(v: Value): Option<Value> {
    if v.Undefined? then None else Some(v)
  }

  /** `fs.readJson(path).catch(() => ({}))`. */
  function ExistingOrEmpty(existing: Option<Value>): Value {
    if existing.Some? then existing.value else Obj(map[])
  }

  /** The fields read from the configuration's default export. */
  datatype SyncFields = SyncFields(projectName: Value, displayName: Value, appId: Value,
                                   scheme: Value, version: Value, design: Value)

  /** `const { projectName, displayName, appId, design, scheme, version } = v`. */
  function Destructure(v: Value, name: string): Result<SyncFields, Error> {
    if IsNullish(v) then Err(DestructureError(v, "projectName", name))
    else Ok(SyncFields(Get(v, "projectName"), Get(v, "displayName"), Get(v, "appId"),
                       Get(v, "scheme"), Get(v, "version"), Get(v, "design")))
  }

  /** `{ ...block, key: appId }`, the `ios` and `android` blocks, given
      the keys `block` spreads. */
  function WithId(block: map<string, Value>, key: string, appId: Value): Value {
    Obj(Put(block, key, Defined(appId)))
  }

  /** What every merge writes under `expo`: `name`, `slug`, and the app id
      in `ios.bundleIdentifier` and `android.package`, over the keys
      `before` the existing `expo` block spreads and the keys its `ios` and
      `android` blocks spread. */
  function IdentityBlock(before: map<string, Value>, ios: map<string, Value>, android: map<string, Value>, f: SyncFields): map<string, Value> {
    var m := Put(Put(before, "name", Defined(f.displayName)), "slug", Defined(f.projectName));
    Put(Put(m, "ios", Some(WithId(ios, "bundleIdentifier", f.appId))),
        "android", Some(WithId(android, "package", f.appId)))
  }

  /** The `plugins` list: one `expo-splash-screen` entry with the splash
      colour, the fixed image and the image width. */
  function SplashPlugins(splash: Value): Value
    requires !IsNullish(splash)
  {
    var options := Put(Put(map["image" := Str(SplashAsset)], "backgroundColor", Defined(Get(splash, "backgroundColor"))),
                       "imageWidth", Defined(Get(splash, "imageWidth")));
    Arr([Arr([Str(SplashPlugin), Obj(options)])])
  }

  /** What the two `syncExpoConfigWith*` commands write under `expo` on
      top of the identity: `version` when `withVersion` (the react2app
      copy; the next2app copy does not write it), the scheme, the fixed
      icon and the splash plugin. */
  function DesignFields(m: map<string, Value>, f: SyncFields, plugins: Value, withVersion: bool): map<string, Value> {
    var m := if withVersion then Put(m, "version", Defined(f.version)) else m;
    var m := Put(m, "scheme", Defined(f.scheme));
    Put(Put(m, "icon", Some(Str(IconAsset))), "plugins", Some(plugins))
  }

  /** The `expo` block the two `syncExpoConfigWith*` commands write. */
  function DesignBlock(before: map<string, Value>, ios: map<string, Value>, android: map<string, Value>, f: SyncFields,
                       plugins: Value, withVersion: bool): map<string, Value> {
    DesignFields(IdentityBlock(before, ios, android, f), f, plugins, withVersion)
  }

  /** `{ ...existingConfig, expo: {...} }`. */
  function Merged(base: map<string, Value>, expo: map<string, Value>): Value {
    Obj(Put(base, "expo", Some(Obj(expo))))
  }

  /** The error `getExpoAppNameFromConfig` throws, through
      `PATHS.getExpoPaths()`, when the configuration module in
      `configFile` has a falsy `projectName`. That module is the one the
      merge has already imported, so it exists and is the same object. */
  function ProjectNameError(configFile: string): Error {
    PlainError("Project name not set in " + configFile)
  }

  /** The configuration file each tool's message names. */
  const R2AConfigFile: string := "react2app.config.js"
  const N2AConfigFile: string := "next2app.config.js"

  /** The merge of the `syncExpoConfigWith*` commands; the Expo paths are
      looked up between the destructuring and the manifest read. */
  function SyncWithDesign(existing: Option<Value>, config: Value, withVersion: bool, configFile: string): Result<Value, Error> {
    var fields := Destructure(config, "config.default");
    if fields.Err? then Err(fields.error)
    else if !Truthy(fields.value.projectName) then Err(ProjectNameError(configFile))
    else
      var f := fields.value;
      var base := ExistingOrEmpty(existing);
      if IsNullish(base) then Err(PropertyReadError(base, "expo"))
      else if IsNullish(f.design) then Err(PropertyReadError(f.design, "splash"))
      else if IsNullish(Get(f.design, "splash")) then Err(PropertyReadError(Get(f.design, "splash"), "backgroundColor"))
      else
        var expo := Get(base, "expo");
        Ok(Merged(Spread(base), DesignBlock(Spread(expo), Spread(GetOpt(expo, "ios")), Spread(GetOpt(expo, "android")), f,
                                            SplashPlugins(Get(f.design, "splash")), withVersion)))
  }

  /** `syncExpoConfigWithR2A`. */
  function SyncExpoConfigWithR2A(existing: Option<Value>, config: Value): Result<Value, Error> {
    SyncWithDesign(existing, config, true, R2AConfigFile)
  }

  /** `syncExpoConfigWithN2A`. */
  function SyncExpoConfigWithN2A(existing: Option<Value>, config: Value): Result<Value, Error> {
    SyncWithDesign(existing, config, false, N2AConfigFile)
  }

  /** The merge of `syncR2AConfigWithExpo` and `syncN2AConfigWithExpo`,
      which write only the identity fields; `name` is the variable the
      configuration is bound to. */
  function SyncIdentity(existing: Option<Value>, config: Value, name: string, configFile: string): Result<Value, Error> {
    var fields := Destructure(config, name);
    if fields.Err? then Err(fields.error)
    else if !Truthy(fields.value.projectName) then Err(ProjectNameError(configFile))
    else
      var base := ExistingOrEmpty(existing);
      if IsNullish(base) then Err(PropertyReadError(base, "expo"))
      else
        var expo := Get(base, "expo");
        Ok(Merged(Spread(base), IdentityBlock(Spread(expo), Spread(GetOpt(expo, "ios")), Spread(GetOpt(expo, "android")), fields.value)))
  }

  /** `syncR2AConfigWithExpo`. */
  function SyncR2AConfigWithExpo(existing: Option<Value>, config: Value): Result<Value, Error> {
    SyncIdentity(existing, config, "R2AConfig", R2AConfigFile)
  }

  /** `syncN2AConfigWithExpo`. */
  function SyncN2AConfigWithExpo(existing: Option<Value>, config: Value): Result<Value, Error> {
    SyncIdentity(existing, config, "N2AConfig", N2AConfigFile)
  }

  // ---------------------------------------------------------------------
  // What the merges promise

  /** `m` with `k` written as it already is, is `m`. */
  lemma PutUnchanged(m: map<string, Value>, k: string, o: Option<Value>)
    requires Lookup(m, k) == o
    ensures Put(m, k, o) == m
  {
  }

  /** Reading a key after `Put`. */
  lemma LookupPut(m: map<string, Value>, k: string, o: Option<Value>, j: string)
    ensures Lookup(Put(m, k, o), j) == if j == k then o else Lookup(m, j)
  {
  }

  /** The top level of the written manifest: `expo`, and every other key of
      the existing manifest as it was. */
  lemma MergedKeepsTopLevel(base: map<string, Value>, expo: map<string, Value>)
    ensures var out := Merged(base, expo);
      && out.Obj? && out.fields.Keys == base.Keys + {"expo"}
      && Lookup(out.fields, "expo") == Some(Obj(expo))
      && forall k | k != "expo" :: Lookup(out.fields, k) == Lookup(base, k)
  {
  }

  /** `{ ...block, key: appId }` writes the app id and keeps every other
      key of the block. */
  lemma WithIdKeepsSiblings(block: map<string, Value>, key: string, appId: Value)
    ensures var w := WithId(block, key, appId);
      && w.Obj? && Lookup(w.fields, key) == Defined(appId)
      && forall k | k != key :: Lookup(w.fields, k) == Lookup(block, k)
  {
  }

  /** The keys the identity merge writes under `expo`. */
  const IdentityKeys: set<string> := {"name", "slug", "ios", "android"}

  /** The identity merge writes `name`, `slug`, `ios` and `android` and
      keeps every other key. */
  lemma IdentityBlockSpec(before: map<string, Value>, ios: map<string, Value>, android: map<string, Value>, f: SyncFields)
    ensures var e := IdentityBlock(before, ios, android, f);
      && (forall k | k !in IdentityKeys :: Lookup(e, k) == Lookup(before, k))
      && Lookup(e, "name") == Defined(f.displayName)
      && Lookup(e, "slug") == Defined(f.projectName)
      && Lookup(e, "ios") == Some(WithId(ios, "bundleIdentifier", f.appId))
      && Lookup(e, "android") == Some(WithId(android, "package", f.appId))
  {
    var m1 := Put(before, "name", Defined(f.displayName));
    var m2 := Put(m1, "slug", Defined(f.projectName));
    var m3 := Put(m2, "ios", Some(WithId(ios, "bundleIdentifier", f.appId)));
    var e := Put(m3, "android", Some(WithId(android, "package", f.appId)));
    forall k | k !in IdentityKeys ensures Lookup(e, k) == Lookup(before, k) {
      LookupPut(before, "name", Defined(f.displayName), k);
      LookupPut(m1, "slug", Defined(f.projectName), k);
      LookupPut(m2, "ios", Some(WithId(ios, "bundleIdentifier", f.appId)), k);
      LookupPut(m3, "android", Some(WithId(android, "package", f.appId)), k);
    }
  }

  /** The keys `DesignFields` writes. */
  function DesignOnlyKeys(withVersion: bool): set<string> {
    {"scheme", "icon", "plugins"} + (if withVersion then {"version"} else {})
  }

  /** `version`, when asked for, the scheme, the icon and the plugins are
      written, and every other key is kept. */
  lemma DesignFieldsSpec(m: map<string, Value>, f: SyncFields, plugins: Value, withVersion: bool)
    ensures var e := DesignFields(m, f, plugins, withVersion);
      && (forall k | k !in DesignOnlyKeys(withVersion) :: Lookup(e, k) == Lookup(m, k))
      && Lookup(e, "scheme") == Defined(f.scheme)
      && (withVersion ==> Lookup(e, "version") == Defined(f.version))
      && Lookup(e, "icon") == Some(Str(IconAsset))
      && Lookup(e, "plugins") == Some(plugins)
  {
    var m1 := if withVersion then Put(m, "version", Defined(f.version)) else m;
    var m2 := Put(m1, "scheme", Defined(f.scheme));
    var m3 := Put(m2, "icon", Some(Str(IconAsset)));
    var e := Put(m3, "plugins", Some(plugins));
    forall k | k !in DesignOnlyKeys(withVersion) ensures Lookup(e, k) == Lookup(m, k) {
      if withVersion {
        LookupPut(m, "version", Defined(f.version), k);
      }
      LookupPut(m1, "scheme", Defined(f.scheme), k);
      LookupPut(m2, "icon", Some(Str(IconAsset)), k);
      LookupPut(m3, "plugins", Some(plugins), k);
    }
  }

  /** The react2app merge writes `version` from the configuration; the
      next2app merge keeps the version the manifest had. */
  lemma DesignBlockVersion(before: map<string, Value>, ios: map<string, Value>, android: map<string, Value>, f: SyncFields,
                           plugins: Value, withVersion: bool)
    ensures withVersion ==> Lookup(DesignBlock(before, ios, android, f, plugins, withVersion), "version") == Defined(f.version)
    ensures !withVersion ==> Lookup(DesignBlock(before, ios, android, f, plugins, withVersion), "version") == Lookup(before, "version")
  {
    var m := IdentityBlock(before, ios, android, f);
    IdentityBlockSpec(before, ios, android, f);
    DesignFieldsSpec(m, f, plugins, withVersion);
  }

  /** The plugin list is the single splash entry, whatever plugins the
      manifest listed before. */
  lemma SplashPluginsShape(splash: Value)
    requires !IsNullish(splash)
    ensures var p := SplashPlugins(splash);
      && p.Arr? && |p.items| == 1 && p.items[0].Arr? && |p.items[0].items| == 2
      && p.items[0].items[0] == Str(SplashPlugin)
      && p.items[0].items[1].Obj?
      && var o := p.items[0].items[1].fields;
      && Lookup(o, "image") == Some(Str(SplashAsset))
      && Lookup(o, "backgroundColor") == Defined(Get(splash, "backgroundColor"))
      && Lookup(o, "imageWidth") == Defined(Get(splash, "imageWidth"))
      && o.Keys <= {"image", "backgroundColor", "imageWidth"}
  {
  }

  /** Writing the app id into a block that already holds it changes
      nothing. */
  lemma WithIdStable(block: map<string, Value>, key: string, appId: Value)
    ensures WithId(WithId(block, key, appId).fields, key, appId) == WithId(block, key, appId)
  {
    var w := WithId(block, key, appId);
    PutUnchanged(w.fields, key, Defined(appId));
  }

  /** Writing the identity over a block the identity merge wrote leaves it
      as it is. */
  lemma IdentityBlockStable(before: map<string, Value>, ios: map<string, Value>, android: map<string, Value>, f: SyncFields)
    ensures var e := IdentityBlock(before, ios, android, f);
      && "ios" in e && e["ios"].Obj? && "android" in e && e["android"].Obj?
      && IdentityBlock(e, e["ios"].fields, e["android"].fields, f) == e
  {
    var e := IdentityBlock(before, ios, android, f);
    IdentityBlockSpec(before, ios, android, f);
    WithIdStable(ios, "bundleIdentifier", f.appId);
    WithIdStable(android, "package", f.appId);
    PutUnchanged(e, "name", Defined(f.displayName));
    PutUnchanged(e, "slug", Defined(f.projectName));
    PutUnchanged(e, "ios", Some(e["ios"]));
    PutUnchanged(e, "android", Some(e["android"]));
  }

  /** Writing the design fields twice is writing them once. */
  lemma DesignFieldsStable(m: map<string, Value>, f: SyncFields, plugins: Value, withVersion: bool)
    ensures var e := DesignFields(m, f, plugins, withVersion);
      DesignFields(e, f, plugins, withVersion) == e
  {
    var e := DesignFields(m, f, plugins, withVersion);
    DesignFieldsSpec(m, f, plugins, withVersion);
    if withVersion {
      PutUnchanged(e, "version", Defined(f.version));
    }
    PutUnchanged(e, "scheme", Defined(f.scheme));
    PutUnchanged(e, "icon", Some(Str(IconAsset)));
    PutUnchanged(e, "plugins", Some(plugins));
  }

  /** The design fields leave the identity keys alone. */
  lemma DesignFieldsKeepIdentity(m: map<string, Value>, f: SyncFields, plugins: Value, withVersion: bool)
    ensures var e := DesignFields(m, f, plugins, withVersion);
      && Lookup(e, "name") == Lookup(m, "name") && Lookup(e, "slug") == Lookup(m, "slug")
      && Lookup(e, "ios") == Lookup(m, "ios") && Lookup(e, "android") == Lookup(m, "android")
  {
    DesignFieldsSpec(m, f, plugins, withVersion);
    assert "name" !in DesignOnlyKeys(withVersion) && "slug" !in DesignOnlyKeys(withVersion);
    assert "ios" !in DesignOnlyKeys(withVersion) && "android" !in DesignOnlyKeys(withVersion);
  }

  /** Writing the identity over a block the design merge wrote leaves it
      as it is. */
  lemma IdentityOverDesignStable(before: map<string, Value>, ios: map<string, Value>, android: map<string, Value>,
                                 f: SyncFields, plugins: Value, withVersion: bool)
    ensures var e := DesignBlock(before, ios, android, f, plugins, withVersion);
      && "ios" in e && e["ios"].Obj? && "android" in e && e["android"].Obj?
      && IdentityBlock(e, e["ios"].fields, e["android"].fields, f) == e
  {
    var m0 := IdentityBlock(before, ios, android, f);
    IdentityBlockSpec(before, ios, android, f);
    DesignFieldsKeepIdentity(m0, f, plugins, withVersion);
    var e := DesignFields(m0, f, plugins, withVersion);
    WithIdStable(ios, "bundleIdentifier", f.appId);
    WithIdStable(android, "package", f.appId);
    PutUnchanged(e, "name", Defined(f.displayName));
    PutUnchanged(e, "slug", Defined(f.projectName));
    PutUnchanged(e, "ios", Some(e["ios"]));
    PutUnchanged(e, "android", Some(e["android"]));
  }

  /** Writing the design over a block the design merge wrote leaves it as
      it is. */
  lemma DesignBlockStable(before: map<string, Value>, ios: map<string, Value>, android: map<string, Value>, f: SyncFields,
                          plugins: Value, withVersion: bool)
    ensures var e := DesignBlock(before, ios, android, f, plugins, withVersion);
      && "ios" in e && e["ios"].Obj? && "android" in e && e["android"].Obj?
      && DesignBlock(e, e["ios"].fields, e["android"].fields, f, plugins, withVersion) == e
  {
    IdentityOverDesignStable(before, ios, android, f, plugins, withVersion);
    DesignFieldsStable(IdentityBlock(before, ios, android, f), f, plugins, withVersion);
  }

  /** The keys `DesignBlock` writes. */
  function DesignKeys(withVersion: bool): set<string> {
    IdentityKeys + DesignOnlyKeys(withVersion)
  }

  /** Every key of the design block outside `DesignKeys` is the key the
      existing `expo` block had. */
  lemma DesignBlockKeepsOthers(before: map<string, Value>, ios: map<string, Value>, android: map<string, Value>,
                               f: SyncFields, plugins: Value, withVersion: bool)
    ensures forall k | k !in DesignKeys(withVersion) ::
      Lookup(DesignBlock(before, ios, android, f, plugins, withVersion), k) == Lookup(before, k)
  {
    IdentityBlockSpec(before, ios, android, f);
    DesignFieldsSpec(IdentityBlock(before, ios, android, f), f, plugins, withVersion);
  }

  /** The written identity of the design block. */
  lemma DesignBlockIdentity(before: map<string, Value>, ios: map<string, Value>, android: map<string, Value>,
                            f: SyncFields, plugins: Value, withVersion: bool)
    ensures var e := DesignBlock(before, ios, android, f, plugins, withVersion);
      && Lookup(e, "name") == Defined(f.displayName)
      && Lookup(e, "slug") == Defined(f.projectName)
      && Lookup(e, "ios") == Some(WithId(ios, "bundleIdentifier", f.appId))
      && Lookup(e, "android") == Some(WithId(android, "package", f.appId))
  {
    IdentityBlockSpec(before, ios, android, f);
    DesignFieldsKeepIdentity(IdentityBlock(before, ios, android, f), f, plugins, withVersion);
  }

  // ---------------------------------------------------------------------
  // The commands

  /** A design merge fails only on a missing configuration, a falsy
      `projectName`, a manifest that is `null`, or a configuration without
      `design` or `design.splash`, and reports the first of these. */
  lemma SyncWithDesignErrors(existing: Option<Value>, config: Value, withVersion: bool, configFile: string)
    ensures var r := SyncWithDesign(existing, config, withVersion, configFile);
      var base := ExistingOrEmpty(existing);
      var design := Get(config, "design");
      var named := Truthy(Get(config, "projectName"));
      && (IsNullish(config) ==> r == Err(DestructureError(config, "projectName", "config.default")))
      && (!IsNullish(config) && !named ==> r == Err(ProjectNameError(configFile)))
      && (!IsNullish(config) && named && IsNullish(base) ==> r == Err(PropertyReadError(base, "expo")))
      && (!IsNullish(config) && named && !IsNullish(base) && IsNullish(design) ==> r == Err(PropertyReadError(design, "splash")))
      && (!IsNullish(config) && named && !IsNullish(base) && !IsNullish(design) && IsNullish(Get(design, "splash")) ==>
            r == Err(PropertyReadError(Get(design, "splash"), "backgroundColor")))
      && (r.Ok? <==> !IsNullish(config) && named && !IsNullish(base) && !IsNullish(design) && !IsNullish(Get(design, "splash")))
  {
  }

  /** The written manifest keeps every top-level key but `expo`, and a
      missing manifest counts as `{}`. */
  lemma SyncWithDesignTopLevel(existing: Option<Value>, config: Value, withVersion: bool, configFile: string)
    requires SyncWithDesign(existing, config, withVersion, configFile).Ok?
    ensures var out := SyncWithDesign(existing, config, withVersion, configFile).value;
      var base := Spread(ExistingOrEmpty(existing));
      && out.Obj? && out.fields.Keys == base.Keys + {"expo"}
      && (forall k | k != "expo" :: Lookup(out.fields, k) == Lookup(base, k))
      && (existing.None? ==> out.fields.Keys == {"expo"})
      && "expo" in out.fields && out.fields["expo"].Obj?
  {
    var f := Destructure(config, "config.default").value;
    var base := ExistingOrEmpty(existing);
    var expo := Get(base, "expo");
    MergedKeepsTopLevel(Spread(base), DesignBlock(Spread(expo), Spread(GetOpt(expo, "ios")), Spread(GetOpt(expo, "android")), f,
                                                  SplashPlugins(Get(f.design, "splash")), withVersion));
  }

  /** Under `expo` the design merge writes the identity from the
      configuration (`ios.bundleIdentifier` and `android.package` over the
      existing blocks), the scheme, the fixed icon and the single splash
      plugin; `version` from the configuration in the react2app copy and
      as it was in the next2app copy; and every other key as it was. */
  lemma SyncWithDesignExpo(existing: Option<Value>, config: Value, withVersion: bool, configFile: string)
    requires SyncWithDesign(existing, config, withVersion, configFile).Ok?
    ensures var out := SyncWithDesign(existing, config, withVersion, configFile).value;
      var prev := Get(ExistingOrEmpty(existing), "expo");
      && out.Obj? && "expo" in out.fields && out.fields["expo"].Obj?
      && var e := out.fields["expo"].fields;
      && (forall k | k !in DesignKeys(withVersion) :: Lookup(e, k) == Lookup(Spread(prev), k))
      && Lookup(e, "name") == Defined(Get(config, "displayName"))
      && Lookup(e, "slug") == Defined(Get(config, "projectName"))
      && Lookup(e, "ios") == Some(WithId(Spread(GetOpt(prev, "ios")), "bundleIdentifier", Get(config, "appId")))
      && Lookup(e, "android") == Some(WithId(Spread(GetOpt(prev, "android")), "package", Get(config, "appId")))
      && Lookup(e, "scheme") == Defined(Get(config, "scheme"))
      && (withVersion ==> Lookup(e, "version") == Defined(Get(config, "version")))
      && (!withVersion ==> Lookup(e, "version") == Lookup(Spread(prev), "version"))
      && Lookup(e, "icon") == Some(Str(IconAsset))
      && Lookup(e, "plugins") == Some(SplashPlugins(Get(Get(config, "design"), "splash")))
  {
    var f := Destructure(config, "config.default").value;
    var base := ExistingOrEmpty(existing);
    var expo := Get(base, "expo");
    var before, ios, android := Spread(expo), Spread(GetOpt(expo, "ios")), Spread(GetOpt(expo, "android"));
    var plugins := SplashPlugins(Get(f.design, "splash"));
    var e := DesignBlock(before, ios, android, f, plugins, withVersion);
    MergedKeepsTopLevel(Spread(base), e);
    DesignBlockKeepsOthers(before, ios, android, f, plugins, withVersion);
    DesignBlockIdentity(before, ios, android, f, plugins, withVersion);
    DesignBlockVersion(before, ios, android, f, plugins, withVersion);
    DesignFieldsSpec(IdentityBlock(before, ios, android, f), f, plugins, withVersion);
  }

  /** Merging the written manifest again with the same configuration
      writes the same manifest. */
  lemma SyncWithDesignIdempotent(existing: Option<Value>, config: Value, withVersion: bool, configFile: string)
    requires SyncWithDesign(existing, config, withVersion, configFile).Ok?
    ensures SyncWithDesign(Some(SyncWithDesign(existing, config, withVersion, configFile).value), config, withVersion, configFile)
         == SyncWithDesign(existing, config, withVersion, configFile)
  {
    var f := Destructure(config, "config.default").value;
    var base := ExistingOrEmpty(existing);
    var expo := Get(base, "expo");
    var plugins := SplashPlugins(Get(f.design, "splash"));
    var e := DesignBlock(Spread(expo), Spread(GetOpt(expo, "ios")), Spread(GetOpt(expo, "android")), f, plugins, withVersion);
    DesignBlockStable(Spread(expo), Spread(GetOpt(expo, "ios")), Spread(GetOpt(expo, "android")), f, plugins, withVersion);
    var out := Merged(Spread(base), e);
    MergedKeepsTopLevel(Spread(base), e);
    assert Get(out, "expo") == Obj(e);
    PutUnchanged(out.fields, "expo", Some(Obj(e)));
  }

  /** An identity merge fails only on a missing configuration, a falsy
      `projectName` or a manifest that is `null`, reporting the first. */
  lemma SyncIdentityErrors(existing: Option<Value>, config: Value, name: string, configFile: string)
    ensures var r := SyncIdentity(existing, config, name, configFile);
      var base := ExistingOrEmpty(existing);
      var named := Truthy(Get(config, "projectName"));
      && (IsNullish(config) ==> r == Err(DestructureError(config, "projectName", name)))
      && (!IsNullish(config) && !named ==> r == Err(ProjectNameError(configFile)))
      && (!IsNullish(config) && named && IsNullish(base) ==> r == Err(PropertyReadError(base, "expo")))
      && (r.Ok? <==> !IsNullish(config) && named && !IsNullish(base))
  {
  }

  /** The identity merge keeps every top-level key but `expo` and, under
      `expo`, writes only `name`, `slug`, `ios.bundleIdentifier` and
      `android.package`: icon, plugins, version and scheme stay as they
      were. */
  lemma SyncIdentityWrites(existing: Option<Value>, config: Value, name: string, configFile: string)
    requires SyncIdentity(existing, config, name, configFile).Ok?
    ensures var out := SyncIdentity(existing, config, name, configFile).value;
      var base := Spread(ExistingOrEmpty(existing));
      var prev := Get(ExistingOrEmpty(existing), "expo");
      && out.Obj? && out.fields.Keys == base.Keys + {"expo"}
      && (forall k | k != "expo" :: Lookup(out.fields, k) == Lookup(base, k))
      && "expo" in out.fields && out.fields["expo"].Obj?
      && var e := out.fields["expo"].fields;
      && (forall k | k !in IdentityKeys :: Lookup(e, k) == Lookup(Spread(prev), k))
      && Lookup(e, "name") == Defined(Get(config, "displayName"))
      && Lookup(e, "slug") == Defined(Get(config, "projectName"))
      && Lookup(e, "ios") == Some(WithId(Spread(GetOpt(prev, "ios")), "bundleIdentifier", Get(config, "appId")))
      && Lookup(e, "android") == Some(WithId(Spread(GetOpt(prev, "android")), "package", Get(config, "appId")))
  {
    var f := Destructure(config, name).value;
    var b := ExistingOrEmpty(existing);
    var expo := Get(b, "expo");
    var before, ios, android := Spread(expo), Spread(GetOpt(expo, "ios")), Spread(GetOpt(expo, "android"));
    var e := IdentityBlock(before, ios, android, f);
    MergedKeepsTopLevel(Spread(b), e);
    IdentityBlockSpec(before, ios, android, f);
  }

  /** Merging the written manifest again with the same configuration
      writes the same manifest. */
  lemma SyncIdentityIdempotent(existing: Option<Value>, config: Value, name: string, configFile: string)
    requires SyncIdentity(existing, config, name, configFile).Ok?
    ensures SyncIdentity(Some(SyncIdentity(existing, config, name, configFile).value), config, name, configFile)
         == SyncIdentity(existing, config, name, configFile)
  {
    var f := Destructure(config, name).value;
    var base := ExistingOrEmpty(existing);
    var expo := Get(base, "expo");
    var e := IdentityBlock(Spread(expo), Spread(GetOpt(expo, "ios")), Spread(GetOpt(expo, "android")), f);
    IdentityBlockStable(Spread(expo), Spread(GetOpt(expo, "ios")), Spread(GetOpt(expo, "android")), f);
    var out := Merged(Spread(base), e);
    MergedKeepsTopLevel(Spread(base), e);
    assert Get(out, "expo") == Obj(e);
    PutUnchanged(out.fields, "expo", Some(Obj(e)));
  }
}
