/** Copying the configured icon and splash image into the Expo project
    (`copyAssetsToExpo`). The react2app copy skips an asset whose source
    does not exist; the next2app copy copies both unconditionally, so the
    first missing source fails the command.

    The file system is an existence predicate on paths; a copy is the
    pair of paths it copies between, and the result lists the copies made
    in order. */
module Assets {
  import opened Wrappers
  import opened Js
  import opened Errors
  import opened Paths

  /** One `fs.copy(source, target)`. */
  datatype Copy = Copy(source: string, target: string)

  /** The copies made, and the error the command failed with, if any. */
  datatype Copied = Copied(done: seq<Copy>, failure: Option<Error>)

  /** The error `fs.copy` fails with when its source does not exist. */
  function MissingSourceError(source: string): Error {
    PlainError("ENOENT: no such file or directory, stat '" + source + "'")
  }

  /** `path.join(..., "assets", "images", file)` under the Expo root. */
  function ExpoImage(expoRoot: string, file: string): string {
    PathJoin(PathJoin(PathJoin(expoRoot, "assets"), "images"), file)
  }

  /** The two copies the command plans, icon first, from the `design`
      block of the configuration's default export; the source paths are
      resolved against the web project's root. Reading `design`, its
      `icon`, its `splash.image` and joining them fails as JavaScript
      does, in the order the source evaluates them. */
  function PlannedCopies(config: Value, webRoot: string, expoRoot: string): (r: Result<seq<Copy>, Error>)
    ensures r.Ok? ==>
              && |r.value| == 2
              && r.value[0].target == ExpoImage(expoRoot, "icon.png")
              && r.value[1].target == ExpoImage(expoRoot, "splash.png")
  {
    if IsNullish(config) then Err(DestructureError(config, "design", "default"))
    else
      var design := Get(config, "design");
      if IsNullish(design) then Err(PropertyReadError(design, "icon"))
      else
        var icon := Get(design, "icon");
        if !icon.Str? then Err(PathArgumentError)
        else
          var splash := Get(design, "splash");
          if IsNullish(splash) then Err(PropertyReadError(splash, "image"))
          else
            var image := Get(splash, "image");
            if !image.Str? then Err(PathArgumentError)
            else Ok([Copy(PathJoin(webRoot, icon.s), ExpoImage(expoRoot, "icon.png")),
                     Copy(PathJoin(webRoot, image.s), ExpoImage(expoRoot, "splash.png"))])
  }

  /** The copies whose source exists, in order. */
  function Existing(plan: seq<Copy>, present: string -> bool): seq<Copy> {
    if |plan| == 0 then []
    else (if present(plan[0].source) then [plan[0]] else []) + Existing(plan[1..], present)
  }

  /** The copies made one after another until the first missing source,
      which fails the rest. */
  function CopyEach(plan: seq<Copy>, present: string -> bool): Copied {
    if |plan| == 0 then Copied([], None)
    else if !present(plan[0].source) then Copied([], Some(MissingSourceError(plan[0].source)))
    else
      var rest := CopyEach(plan[1..], present);
      Copied([plan[0]] + rest.done, rest.failure)
  }

  /** react2app `copyAssetsToExpo`: each asset is copied only when its
      source exists. */
  function CopyAssetsR2A(config: Value, webRoot: string, expoRoot: string, present: string -> bool): Copied {
    var plan := PlannedCopies(config, webRoot, expoRoot);
    if plan.Err? then Copied([], Some(plan.error)) else Copied(Existing(plan.value, present), None)
  }

  /** next2app `copyAssetsToExpo`: both assets are copied unconditionally. */
  function CopyAssetsN2A(config: Value, webRoot: string, expoRoot: string, present: string -> bool): Copied {
    var plan := PlannedCopies(config, webRoot, expoRoot);
    if plan.Err? then Copied([], Some(plan.error)) else CopyEach(plan.value, present)
  }

  /** The guarded copies of a plan split at any point are those of its
      two parts, one after the other. */
  lemma {:induction false} ExistingSplitAt(plan: seq<Copy>, present: string -> bool, k: nat)
    requires k <= |plan|
    ensures Existing(plan, present) == Existing(plan[..k], present) + Existing(plan[k..], present)
  {
    if k > 0 {
      ExistingSplitAt(plan[1..], present, k - 1);
      assert plan[..k][1..] == plan[1..][..k - 1];
      assert plan[1..][k - 1..] == plan[k..];
    }
  }

  /** A planned copy is made exactly when its source exists, and the
      copies keep the planned order: the copies of any prefix of the plan
      come first, and each planned copy contributes itself once or not
      at all. */
  lemma {:induction false} ExistingSpec(plan: seq<Copy>, present: string -> bool)
    ensures forall c :: c in Existing(plan, present) <==> c in plan && present(c.source)
    ensures |Existing(plan, present)| <= |plan|
    ensures forall c :: c in plan && !present(c.source) ==> c !in Existing(plan, present)
    ensures forall k | 0 <= k <= |plan| ::
      Existing(plan, present) == Existing(plan[..k], present) + Existing(plan[k..], present)
    ensures forall i | 0 <= i < |plan| ::
      Existing([plan[i]], present) == (if present(plan[i].source) then [plan[i]] else [])
  {
    if |plan| > 0 {
      ExistingSpec(plan[1..], present);
      assert plan == [plan[0]] + plan[1..];
    }
    forall k | 0 <= k <= |plan|
      ensures Existing(plan, present) == Existing(plan[..k], present) + Existing(plan[k..], present)
    {
      ExistingSplitAt(plan, present, k);
    }
    forall i | 0 <= i < |plan|
      ensures Existing([plan[i]], present) == (if present(plan[i].source) then [plan[i]] else [])
    {
      assert [plan[i]][1..] == [];
    }
  }

  /** With every source present, every planned copy is made. */
  lemma {:induction false} ExistingAll(plan: seq<Copy>, present: string -> bool)
    requires forall c | c in plan :: present(c.source)
    ensures Existing(plan, present) == plan
  {
    if |plan| > 0 {
      assert plan[0] in plan;
      assert forall c | c in plan[1..] :: c in plan;
      ExistingAll(plan[1..], present);
    }
  }

  /** Unconditional copying either makes every planned copy, when every
      source exists, or stops at the first missing source: the copies
      before it are made, it fails, and nothing after it is copied. */
  lemma {:induction false} CopyEachSpec(plan: seq<Copy>, present: string -> bool)
    ensures var r := CopyEach(plan, present);
      && (r.failure.None? <==> forall c | c in plan :: present(c.source))
      && (r.failure.None? ==> r.done == plan)
      && (r.failure.Some? ==>
            |r.done| < |plan| && r.done == plan[..|r.done|]
            && (forall c | c in r.done :: present(c.source))
            && !present(plan[|r.done|].source)
            && r.failure == Some(MissingSourceError(plan[|r.done|].source)))
  {
    if |plan| > 0 {
      CopyEachSpec(plan[1..], present);
      var rest := CopyEach(plan[1..], present);
      assert plan == [plan[0]] + plan[1..];
      if present(plan[0].source) && rest.failure.Some? {
        assert plan[..|rest.done| + 1] == [plan[0]] + plan[1..][..|rest.done|];
      }
    }
  }

  /** What the next2app command copies before failing is a prefix of what
      the react2app command copies, and the same when every source
      exists. */
  lemma {:induction false} UnconditionalIsPrefixOfGuarded(plan: seq<Copy>, present: string -> bool)
    ensures var d := CopyEach(plan, present).done;
      d <= Existing(plan, present)
    ensures CopyEach(plan, present).failure.None? ==> CopyEach(plan, present).done == Existing(plan, present)
  {
    if |plan| > 0 {
      UnconditionalIsPrefixOfGuarded(plan[1..], present);
    }
  }

  /** The two copies of the command agree whenever both assets exist, and
      fail on the same configurations. */
  lemma CopyAssetsAgree(config: Value, webRoot: string, expoRoot: string, present: string -> bool)
    ensures var plan := PlannedCopies(config, webRoot, expoRoot);
      && (plan.Err? ==> CopyAssetsR2A(config, webRoot, expoRoot, present) == CopyAssetsN2A(config, webRoot, expoRoot, present)
                        == Copied([], Some(plan.error)))
      && (plan.Ok? && (forall c | c in plan.value :: present(c.source)) ==>
            CopyAssetsR2A(config, webRoot, expoRoot, present) == CopyAssetsN2A(config, webRoot, expoRoot, present)
            == Copied(plan.value, None))
  {
    var plan := PlannedCopies(config, webRoot, expoRoot);
    if plan.Ok? {
      CopyEachSpec(plan.value, present);
      if forall c | c in plan.value :: present(c.source) {
        ExistingAll(plan.value, present);
      }
    }
  }

  /** The react2app command never fails on a missing asset: it copies
      exactly the planned copies whose source present. */
  lemma GuardedCopiesExisting(config: Value, webRoot: string, expoRoot: string, present: string -> bool)
    requires PlannedCopies(config, webRoot, expoRoot).Ok?
    ensures var plan := PlannedCopies(config, webRoot, expoRoot).value;
      var r := CopyAssetsR2A(config, webRoot, expoRoot, present);
      && r.failure.None?
      && (forall c :: c in r.done <==> c in plan && present(c.source))
  {
    ExistingSpec(PlannedCopies(config, webRoot, expoRoot).value, present);
  }

  /** Where the configuration resolves, the icon source is the configured
      `design.icon` and the splash source `design.splash.image`, both
      under the web root; the errors come in the order the source reads
      the fields. */
  lemma PlannedCopiesSpec(config: Value, webRoot: string, expoRoot: string)
    ensures var r := PlannedCopies(config, webRoot, expoRoot);
      var design := Get(config, "design");
      var icon := Get(design, "icon");
      var splash := Get(design, "splash");
      && (IsNullish(config) ==> r.Err? && r.error.cls == TypeErr)
      && (!IsNullish(config) && IsNullish(design) ==> r == Err(PropertyReadError(design, "icon")))
      && (!IsNullish(config) && !IsNullish(design) && !icon.Str? ==> r == Err(PathArgumentError))
      && (!IsNullish(config) && !IsNullish(design) && icon.Str? && IsNullish(splash) ==> r == Err(PropertyReadError(splash, "image")))
      && (r.Ok? <==> !IsNullish(config) && !IsNullish(design) && icon.Str? && !IsNullish(splash) && Get(splash, "image").Str?)
      && (r.Ok? ==> r.value[0].source == PathJoin(webRoot, icon.s) && r.value[1].source == PathJoin(webRoot, Get(splash, "image").s))
  {
  }
}
