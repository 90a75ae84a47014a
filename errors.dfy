/** The errors the tools throw. Every error class extends `BaseError`,
    which carries a message, a code and optional details. */
module Errors {
  import opened Wrappers
  import opened Js

  /** The class an error is thrown as; `Plain` is JavaScript's own `Error`, `TypeErr` its `TypeError`. */
  datatype ErrorClass = Plain | TypeErr | Base | ProjectErr | ConfigErr | WebErr | ExpoErr | DevServerErr

  /** The error codes the modelled operations throw with. */
  datatype ErrorCode =
    | NoCode
    | ConfigParseError
    | ConfigNotFound
    | ConfigLoadFailed
    | ConfigValidationFailed
    | NoReactProject
    | ServerStartFailed
    | WebServerFailed
    | ExpoServerFailed
    | DevServerFailed

  datatype Error = Error(cls: ErrorClass, message: string, code: ErrorCode, details: Option<string>)

  /** `new Error(message)`. */
  function PlainError(message: string): Error {
    Error(Plain, message, NoCode, None)
  }

  /** The TypeError `path.join` and `path.resolve` throw on an argument
      that is not a string. */
  const PathArgumentError: Error := Error(TypeErr, "The \"path\" argument must be of type string", NoCode, None)

  /** The TypeError JavaScript throws on `v[key]` when `v` is `null` or
      `undefined`. */
  function PropertyReadError(v: Value, key: string): Error
    requires IsNullish(v)
  {
    Error(TypeErr, "Cannot read properties of " + (if v.Null? then "null" else "undefined") + " (reading '" + key + "')",
          NoCode, None)
  }

  /** The TypeError JavaScript throws on `const { prop } = v` when `v`,
      written `name` in the source, is `null` or `undefined`. */
  function DestructureError(v: Value, prop: string, name: string): Error
    requires IsNullish(v)
  {
    Error(TypeErr, "Cannot destructure property '" + prop + "' of '" + name + "' as it is " + (if v.Null? then "null" else "undefined") + ".",
          NoCode, None)
  }
}
