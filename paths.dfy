/** File-system paths, kept as plain strings. */
module Paths {
  import opened Wrappers

  /** `path.join(dir, name)`: the two parts with one separator between
      them; the normalisation `path.join` also performs (`..`, repeated
      separators) is not modelled. */
  function PathJoin(dir: string, name: string): string {
    dir + "/" + name
  }

  /** `path.resolve(p)` against the working directory `cwd`: an absolute
      path is kept, a relative one is joined to `cwd`. */
  function PathResolve(cwd: string, p: string): (r: string)
    ensures |p| > 0 && p[0] == '/' ==> r == p
    ensures (|p| == 0 || p[0] != '/') ==> r == PathJoin(cwd, p)
  {
    if |p| > 0 && p[0] == '/' then p else PathJoin(cwd, p)
  }

  /** `DIRECTORY_NAMES.R2A`. */
  const R2ADirectory: string := "react2app"

  /** The paths of the Expo project that `PATHS.getExpoPaths()` gives;
      the build directories are `None` where the object has no such
      entry. */
  datatype ExpoPaths = ExpoPaths(root: string, iosRoot: string, androidRoot: string,
                                 iosBuildDir: Option<string>, androidBuildDir: Option<string>)

  /** `PATHS.getExpoPaths()` for the working directory `cwd` and the Expo
      app name of the configuration: both platform roots lie in the Expo
      root, and neither platform has a `BUILD_DIR`. */
  function GetExpoPaths(cwd: string, expoAppName: string): (r: ExpoPaths)
    ensures r.iosRoot == PathJoin(r.root, "ios") && r.androidRoot == PathJoin(r.root, "android")
    ensures r.root == PathJoin(PathJoin(cwd, R2ADirectory), expoAppName)
    ensures r.iosBuildDir.None? && r.androidBuildDir.None?
  {
    var root := PathJoin(PathJoin(cwd, R2ADirectory), expoAppName);
    ExpoPaths(root, PathJoin(root, "ios"), PathJoin(root, "android"), None, None)
  }
}
