/** Build-time environment variables and the configured/not-configured
    status each platform service reports from them. */
module Env {
  import opened Wrappers

  /** JavaScript truthiness of an environment variable: set and non-empty. */
  predicate Present(v: Option<string>) {
    v.Some? && v.value != ""
  }

  /** An environment variable interpolated into a template literal:
      an unset one prints as `undefined`. */
  function Show(v: Option<string>): string {
    match v
    case Some(s) => s
    case None => "undefined"
  }

  /** What a `get...ConfigStatus` function returns. */
  datatype ConfigStatus = ConfigStatus(configured: bool, message: string)
}
