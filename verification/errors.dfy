/** The single error shape every failure of the client is reported in (errors.go). */
module Errors {

  datatype RequestError = RequestError(code: string, message: string)

  /** `RequestError.Error()`: the text `[code]: message`. */
  function Error(e: RequestError): (text: string)
    ensures |text| == |e.code| + |e.message| + 4
    ensures text[..|e.code| + 2] == "[" + e.code + "]"
    ensures text[|e.code| + 2..|e.code| + 4] == ": "
    ensures text[|e.code| + 4..] == e.message
  {
    "[" + e.code + "]: " + e.message
  }

  /** Knowing the code, the text gives the message back: formatting loses nothing. */
  lemma ErrorKeepsMessage(e1: RequestError, e2: RequestError)
    requires e1.code == e2.code
    requires Error(e1) == Error(e2)
    ensures e1 == e2
  {
    assert e1.message == Error(e1)[|e1.code| + 4..];
  }

  const BadRequest := "bad_request"
  const RequestErrorCode := "request_error"
  const JsonErrorCode := "json_error"

  const PublicKeyMissing := RequestError(BadRequest, "Public key is not set")
  const PrivateKeyMissing := RequestError(BadRequest, "Private key is not set")
  const ProjectRequired := RequestError(BadRequest, "Project is required")
  const NameRequired := RequestError(BadRequest, "Name is required")
  const NotSuccessful := RequestError(RequestErrorCode, "Request was not successful")
  const FileNotFound := RequestError("file_not_found", "File does not exist")
  const InvalidFile := RequestError("invalid_file", "Could not read file")

  /** The error for content that is not JSON text. Its Go declaration is not among the
      source files this model covers, so its code and message are left unspecified. */
  const InvalidJsonError: RequestError
}
