/** Telling a Next.js project from a plain React project by the
    dependencies its `package.json` declares. */
module Project {
  import opened Wrappers
  import opened Js
  import opened Errors

  /** `REACT_FRAMEWORK`. */
  datatype ReactFramework = NextJsApp | ReactApp

  const NoReactProjectError: Error :=
    Error(ProjectErr, "There is no React project in the current directory", NoReactProject, None)

  /** `determineReactFramework` on the parsed `package.json`. */
  function DetermineReactFramework(packageJson: Value): Result<ReactFramework, Error> {
    if IsNullish(packageJson) then Err(PropertyReadError(packageJson, "dependencies"))
    else
      var deps := Get(packageJson, "dependencies");
      if IsNullish(deps) then Err(PropertyReadError(deps, "next"))
      else if Truthy(Get(deps, "next")) then Ok(NextJsApp)
      else if Truthy(Get(deps, "react")) then Ok(ReactApp)
      else Err(NoReactProjectError)
  }

  /** The dependency table of a `package.json` object. */
  function Dependencies(m: map<string, Value>): Value {
    if "dependencies" in m then m["dependencies"] else Undefined
  }

  /** A `next` dependency means Next.js, even when `react` is declared too;
      otherwise a `react` dependency means plain React; with neither the
      project is refused; without a dependency table the read throws. */
  lemma FrameworkDecision(m: map<string, Value>)
    ensures var deps := Dependencies(m);
      && (IsNullish(deps) ==> DetermineReactFramework(Obj(m)).Err? && DetermineReactFramework(Obj(m)).error.cls == TypeErr)
      && (!IsNullish(deps) && Truthy(Get(deps, "next")) ==> DetermineReactFramework(Obj(m)) == Ok(NextJsApp))
      && (!IsNullish(deps) && !Truthy(Get(deps, "next")) && Truthy(Get(deps, "react")) ==>
            DetermineReactFramework(Obj(m)) == Ok(ReactApp))
      && (!IsNullish(deps) && !Truthy(Get(deps, "next")) && !Truthy(Get(deps, "react")) ==>
            DetermineReactFramework(Obj(m)) == Err(NoReactProjectError))
  {
  }

  /** The result depends on the `dependencies` table alone: keys such as
      `devDependencies` are never consulted. */
  lemma OnlyDependenciesMatter(m1: map<string, Value>, m2: map<string, Value>)
    requires Dependencies(m1) == Dependencies(m2)
    ensures DetermineReactFramework(Obj(m1)) == DetermineReactFramework(Obj(m2))
  {
  }

  /** In particular a `next` or `react` declared only as a dev dependency
      does not count. */
  lemma DevDependenciesIgnored(m: map<string, Value>, devDeps: Value)
    ensures DetermineReactFramework(Obj(m["devDependencies" := devDeps])) == DetermineReactFramework(Obj(m))
  {
    OnlyDependenciesMatter(m["devDependencies" := devDeps], m);
  }
}
