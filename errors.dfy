/** The user-facing error notification (src/utils/errors.ts): the key of the thrown
    value is looked up in a table of six authentication errors, with a generic
    fallback. */
module Errors {
  import opened Wrappers
  import opened Js

  const USERNAME_ALREADY_IN_USE: string := "auth/username-already-in-use"
  const EMAIL_ALREADY_IN_USE: string := "auth/email-already-in-use"

  datatype ErrorDetail = ErrorDetail(title: string, description: string)

  const DEFAULT_DETAIL: ErrorDetail := ErrorDetail(
    "Something went wrong on our end.",
    "Please try again later or contact support if the problem persists.")

  /** The `errors` map. */
  const ERRORS: map<string, ErrorDetail> := map[
    EMAIL_ALREADY_IN_USE := ErrorDetail("Email already in use",
      "Use another email address or try logging in."),
    USERNAME_ALREADY_IN_USE := ErrorDetail("Username already in use",
      "Please choose another username."),
    "auth/invalid-email" := ErrorDetail("Invalid email",
      "Please enter a valid email address."),
    "auth/operation-not-allowed" := ErrorDetail("Operation not allowed",
      "Please contact support to enable email/password accounts."),
    "auth/user-not-found" := ErrorDetail("User not found",
      "Please check your email and try again."),
    "auth/wrong-password" := ErrorDetail("Wrong password",
      "Please check your password and try again.")]

  /** What was thrown: an error object with its `code` and `message` properties, or any
      other value. A string, a number or a boolean has no `code` or `message` (both read
      as undefined); reading a property of `undefined` or `null` throws a TypeError. */
  datatype Thrown = ErrorObject(code: Value, message: Value) | Other(value: Value)

  /** `error.code` can be read: the thrown value is neither `undefined` nor `null`. */
  predicate PropertiesReadable(error: Thrown) {
    !(error.Other? && (error.value.Undefined? || error.value.Null?))
  }

  /** The notification shown: `notification.error({ title, description, duration })`. */
  datatype Notice = Notice(title: string, description: string, duration: nat)

  /** `error.code || error.message || error` as a map key: a string key, or `None`
      when the chosen value is not a string (an error object, a number), which no key
      of the map equals. */
  function ErrorKey(error: Thrown): (key: Option<string>)
    requires PropertiesReadable(error)
    ensures error.ErrorObject? && error.code.Str? && error.code.s != "" ==> key == Some(error.code.s)
    ensures error.ErrorObject? && !Truthy(error.code) ==>
      key == if error.message.Str? && error.message.s != "" then Some(error.message.s) else None
    ensures error.Other? ==> key == if error.value.Str? then Some(error.value.s) else None
  {
    match error
    case ErrorObject(code, message) =>
      var chosen := Or(code, Or(message, Undefined));
      if Truthy(chosen) && chosen.Str? then Some(chosen.s) else None
    case Other(v) =>
      if v.Str? then Some(v.s) else None
  }

  /** `errors.get(errorCode) ?? defaultErrorDetail` */
  function Lookup(key: Option<string>): (detail: ErrorDetail)
    ensures key.Some? && key.value in ERRORS ==> detail == ERRORS[key.value]
    ensures key.None? || key.value !in ERRORS ==> detail == DEFAULT_DETAIL
  {
    if key.Some? && key.value in ERRORS then ERRORS[key.value] else DEFAULT_DETAIL
  }

  /** `notifyError(notification, error)`, returning the notification it raises, or
      `None` when reading `error.code` throws and no notification is raised. */
  function NotifyError(error: Thrown): (notice: Option<Notice>)
    ensures notice.None? <==> !PropertiesReadable(error)
    ensures notice.Some? ==> notice.value.duration == 5000
    ensures notice.Some? ==>
      var d := Lookup(ErrorKey(error)); notice.value.title == d.title && notice.value.description == d.description
  {
    if !PropertiesReadable(error) then None
    else
      var detail := Lookup(ErrorKey(error));
      Some(Notice(detail.title, detail.description, 5000))
  }

  /** The six codes are distinct and each has its own title, none of them the
      fallback's. */
  lemma SixDistinctCodes()
    ensures forall k1, k2 :: k1 in ERRORS && k2 in ERRORS && k1 != k2 ==> ERRORS[k1].title != ERRORS[k2].title
    ensures forall k :: k in ERRORS ==> ERRORS[k] != DEFAULT_DETAIL
  {
  }

  /** An error object with a code such as "auth/wrong-password" gets that code's
      detail, whatever its message; an unknown code gets the fallback. */
  lemma CodeDecides(code: string, message: Value)
    requires code != ""
    ensures NotifyError(ErrorObject(Str(code), message)).value.title
      == if code in ERRORS then ERRORS[code].title else DEFAULT_DETAIL.title
  {
  }
}
