/**
 * The error body both variants send, ApiErroResponse.of, and the HTTP
 * statuses their exception handlers choose from.
 */
module ApiErro {
  import opened Wrappers
  import opened Domain

  /** The org.springframework.http.HttpStatus constants the handlers use. */
  datatype HttpStatus = BadRequest | Unauthorized | NotFound | TooManyRequests | InternalServerError | ServiceUnavailable

  /** HttpStatus.value() */
  function Code(s: HttpStatus): int {
    match s
    case BadRequest => 400
    case Unauthorized => 401
    case NotFound => 404
    case TooManyRequests => 429
    case InternalServerError => 500
    case ServiceUnavailable => 503
  }

  /** HttpStatus.name() */
  function Name(s: HttpStatus): string {
    match s
    case BadRequest => "BAD_REQUEST"
    case Unauthorized => "UNAUTHORIZED"
    case NotFound => "NOT_FOUND"
    case TooManyRequests => "TOO_MANY_REQUESTS"
    case InternalServerError => "INTERNAL_SERVER_ERROR"
    case ServiceUnavailable => "SERVICE_UNAVAILABLE"
  }

  /** ApiErroResponse.ApiErro without its timestamp. */
  datatype Body = Body(status: string, codigoErro: int, mensagemDetalhada: string)

  /** A ResponseEntity: the status line and the body. */
  datatype ErrorResponse = ErrorResponse(httpStatus: HttpStatus, body: Body)

  /** `ResponseEntity.status(s).body(ApiErroResponse.of(s, message))`: the status line and the body always agree. */
  function Respond(s: HttpStatus, message: string): (r: ErrorResponse)
    ensures r.httpStatus == s && r.body.mensagemDetalhada == message
    ensures r.body.codigoErro == Code(s) && r.body.status == Name(s)
  {
    ErrorResponse(s, Body(Name(s), Code(s), message))
  }

  const InternalErrorMessage := "Erro interno no servidor"

  /** Collectors.joining(", ") */
  function Join(parts: seq<string>): (r: string)
    ensures parts == [] ==> r == ""
    ensures |parts| == 1 ==> r == parts[0]
    ensures parts != [] ==> |parts[0]| <= |r| && r[..|parts[0]|] == parts[0]
  {
    if |parts| == 0 then ""
    else if |parts| == 1 then parts[0]
    else parts[0] + ", " + Join(parts[1..])
  }

  /** `.map(FieldError::getDefaultMessage)`: a null default message is joined as "null". */
  function FieldMessages(fieldMessages: seq<Option<string>>): (texts: seq<string>)
    ensures |texts| == |fieldMessages|
    ensures forall i :: 0 <= i < |texts| ==> texts[i] == JavaText(fieldMessages[i])
  {
    if fieldMessages == [] then []
    else [JavaText(fieldMessages[0])] + FieldMessages(fieldMessages[1..])
  }

  // ---------------------------------------------------------------------------
  // Properties

  /** Joining is appending: each further part comes after a ", ". */
  lemma {:induction false} JoinAppend(parts: seq<string>, p: string)
    requires parts != []
    ensures Join(parts + [p]) == Join(parts) + ", " + p
  {
    if |parts| == 1 {
      assert (parts + [p])[1..] == [p];
    } else {
      assert (parts + [p])[1..] == parts[1..] + [p];
      JoinAppend(parts[1..], p);
    }
  }
}
