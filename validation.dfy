/** How a Mongoose schema reports a failed validation: one message per failing path. */
module Validation {

  /** A field → message map; empty means the document validates. */
  type Errors = map<string, string>

  /** Record `msg` for `path` when its check `fails`. */
  function Check(errs: Errors, path: string, fails: bool, msg: string): (r: Errors)
    ensures fails ==> r == errs[path := msg]
    ensures !fails ==> r == errs
  {
    if fails then errs[path := msg] else errs
  }

  /** Mongoose's message for a `required: true` path without a message of its own. */
  function RequiredMessage(path: string): string {
    "Path `" + path + "` is required."
  }

  /** The message of a `required` then `minlength` string path: the first failing check wins. */
  function LengthMessage(value: string, min: nat, required: string, short: string): string {
    if value == "" then required else short
  }
}
