/** The command error type of src/error.rs and how a runtime failure becomes one. */
module Errors {

  /** A failure reported by the runtime client; it is only ever observed through
      its rendered message text. */
  datatype ApiError = ApiError(text: string)

  /** The error every command returns. `UnexpectedError` is declared but no
      modelled operation produces it. */
  datatype CommandError = DockerError(message: string) | UnexpectedError(message: string)

  const DockerErrorPrefix: string := "Docker API error: "
  const UnexpectedErrorPrefix: string := "Unexpected error: "

  /** The human-readable rendering of an error: a fixed prefix naming the
      variant, followed by the carried message. */
  function Display(e: CommandError): (s: string)
    ensures |s| == 18 + |e.message|
    ensures s[18..] == e.message
    ensures e.DockerError? ==> s[..18] == DockerErrorPrefix
    ensures e.UnexpectedError? ==> s[..18] == UnexpectedErrorPrefix
  {
    match e
    case DockerError(m) => DockerErrorPrefix + m
    case UnexpectedError(m) => UnexpectedErrorPrefix + m
  }

  /** Rendering loses nothing: the variant and the message can be read back. */
  lemma DisplayInjective(e1: CommandError, e2: CommandError)
    requires Display(e1) == Display(e2)
    ensures e1 == e2
  {
  }

  /** The `map_err` every runtime call goes through: the failure becomes a
      `DockerError` carrying the client error's message text. */
  function FromApiError(err: ApiError): (e: CommandError)
    ensures e.DockerError?
    ensures Display(e) == DockerErrorPrefix + err.text
  {
    DockerError(err.text)
  }
}
