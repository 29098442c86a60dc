/**
 * Status codes and responses. `HttpCodes` is the reason-phrase table the
 * server answers with (the status codes of section 15 of RFC 9110, with the
 * phrases as the table spells them); a `ResponseCode` holds one code and
 * renders it through the table, and a `Response` starts with a code, no
 * headers and no file.
 */
module Responses {
  import opened Wrappers
  import opened Numbers

  /** `HTTP_CODES.get`: the reason phrase of every status code the server knows. */
  function HttpCodes(code: u16): (r: Option<string>)
    ensures r.Some? ==> 100 <= code <= 511
  {
    match code
    case 100 => Some("Continue")
    case 101 => Some("Switching Protocols")
    case 102 => Some("Processing")
    case 103 => Some("Early Hints")
    case 200 => Some("OK")
    case 201 => Some("Created")
    case 202 => Some("Accepted")
    case 203 => Some("Non-Authoritative Information")
    case 204 => Some("No Content")
    case 205 => Some("Reset Content")
    case 206 => Some("Partial Content")
    case 207 => Some("Multi-Status")
    case 208 => Some("Already Reported")
    case 226 => Some("IM Used")
    case 300 => Some("Multiple Choices")
    case 301 => Some("Moved Permanently")
    case 302 => Some("Found")
    case 303 => Some("See Other")
    case 304 => Some("Not Modified")
    case 305 => Some("Use Proxy")
    case 307 => Some("Temporary Redirect")
    case 308 => Some("Permanent Redirect")
    case 400 => Some("Bad Request")
    case 401 => Some("Unauthorized")
    case 402 => Some("Payment Required")
    case 403 => Some("Forbidden")
    case 404 => Some("Not Found")
    case 405 => Some("Method Not Allowed")
    case 406 => Some("Not Acceptable")
    case 407 => Some("Proxy Authentication Required")
    case 408 => Some("Request Timeout")
    case 409 => Some("Conflict")
    case 410 => Some("Gone")
    case 411 => Some("Length Required")
    case 412 => Some("Precondition Failed")
    case 413 => Some("Payload Too Large")
    case 414 => Some("URI Too Long")
    case 415 => Some("Unsupported Media Type")
    case 416 => Some("Range Not Satisfiable")
    case 417 => Some("Expectation Failed")
    case 418 => Some("I'm a Teapot")
    case 421 => Some("Misdirected Request")
    case 422 => Some("Unprocessable Entity")
    case 423 => Some("Locked")
    case 424 => Some("Failed Dependency")
    case 425 => Some("Too Early")
    case 426 => Some("Upgrade Required")
    case 428 => Some("Precondition Required")
    case 429 => Some("Too Many Requests")
    case 431 => Some("Request Header Fields Too Large")
    case 451 => Some("Unavailable For Legal Reasons")
    case 500 => Some("Internal Server Error")
    case 501 => Some("Not Implemented")
    case 502 => Some("Bad Gateway")
    case 503 => Some("Service Unavailable")
    case 504 => Some("Gateway Timeout")
    case 505 => Some("HTTP Version Not Supported")
    case 506 => Some("Variant Also Negotiates")
    case 507 => Some("Insufficient Storage")
    case 508 => Some("Loop Detected")
    case 510 => Some("Not Extended")
    case 511 => Some("Network Authentication Required")
    case _ => None
  }

  /** What `to_string` answers for a code the table does not hold. */
  const UnknownCode := "Unknow Error code"

  /** The phrases the server's own answers use. */
  lemma KnownPhrases()
    ensures HttpCodes(200) == Some("OK")
    ensures HttpCodes(400) == Some("Bad Request")
    ensures HttpCodes(404) == Some("Not Found")
    ensures HttpCodes(405) == Some("Method Not Allowed")
    ensures HttpCodes(413) == Some("Payload Too Large")
    ensures HttpCodes(501) == Some("Not Implemented")
  {
  }

  /** The I/O error kinds `from_error` tells apart; every other kind is `Other`. */
  datatype ErrorKind = NotFound | PermissionDenied | ConnectionRefused | TimedOut | WriteZero | Interrupted | Other

  /** The status code an I/O error is answered with. */
  function ErrorCode(err: ErrorKind): (code: u16)
    ensures code == 404 <==> err == NotFound
    ensures code == 403 <==> err == PermissionDenied
    ensures code == 503 <==> err == ConnectionRefused
    ensures code == 408 <==> err == TimedOut
    ensures code == 500 <==> err !in {NotFound, PermissionDenied, ConnectionRefused, TimedOut}
    ensures HttpCodes(code).Some?
  {
    match err
    case NotFound => 404
    case PermissionDenied => 403
    case ConnectionRefused => 503
    case TimedOut => 408
    case WriteZero => 500
    case Interrupted => 500
    case Other => 500
  }

  /** `to_string`: the table's phrase, or the fallback for a code it does not hold. */
  function Phrase(code: u16): (s: string)
    ensures HttpCodes(code).Some? ==> s == HttpCodes(code).value
    ensures HttpCodes(code).None? ==> s == UnknownCode
  {
    match HttpCodes(code)
    case Some(msg) => msg
    case None => UnknownCode
  }

  /** The fallback is not a phrase of the table, so it is answered exactly for the codes the table lacks. */
  lemma PhraseUnknownIff(code: u16)
    ensures Phrase(code) == UnknownCode <==> HttpCodes(code).None?
  {
  }

  /** A status code. */
  class ResponseCode {
    var code: u16

    /** `ResponseCode::new`: the code is stored as given. */
    constructor (code: u16)
      ensures this.code == code
    {
      this.code := code;
    }

    /** `ResponseCode::from_error`. */
    constructor FromError(err: ErrorKind)
      ensures code == ErrorCode(err)
    {
      code := ErrorCode(err);
    }

    /** `to_string`. */
    function ToString(): (s: string)
      reads this
      ensures HttpCodes(code).Some? ==> s == HttpCodes(code).value
      ensures HttpCodes(code).None? ==> s == UnknownCode
    {
      Phrase(code)
    }

    /** `code`. */
    function Code(): (c: u16)
      reads this
      ensures c == code
    {
      code
    }

    /** `set_code`: the code is replaced. */
    method SetCode(code: u16)
      modifies this
      ensures this.code == code
    {
      this.code := code;
    }
  }

  /** A response: a status code, headers and the file to send, if any. */
  class Response {
    var code: ResponseCode
    var headers: map<string, string>
    /** The path of the file to send; opening it is not part of this model. */
    var file: Option<string>

    /** `Response::new`: the given code, no headers and no file. */
    constructor (code: u16)
      ensures fresh(this.code) && this.code.code == code
      ensures headers == map[] && file == None
    {
      this.code := new ResponseCode(code);
      headers := map[];
      file := None;
    }
  }
}
