/**
 * Values shared by both application variants (com.hotel.guessr and
 * com.hotel.transilvania): the exceptions the core throws or catches, the
 * abstract outcome of one upstream HTTP call, coordinates, and the record
 * of which upstream request a service issued.
 */
module Domain {
  import opened Wrappers

  /**
   * A Java exception in flight. The first group are the application's own
   * exception classes (each carries its getMessage() text and, where the
   * class has a (message, cause) constructor, its cause); the second group
   * are the JDK and Spring exceptions the core catches or lets through.
   */
  datatype Exc =
    | CepInvalido(message: string)
    | CepNaoEncontrado(message: string, cause: Option<Exc>)
    | ErroConsultaExterna(message: string, cause: Option<Exc>)
    | ApiKeyInvalida(message: string, cause: Option<Exc>)
    | LimiteRequisicaoExcedido(message: string, cause: Option<Exc>)
    | HotelNaoEncontrado(message: string)
      // java.lang.IllegalArgumentException
    | IllegalArgument(message: string)
      // java.lang.NullPointerException
    | NullPointer
      // HttpClientErrorException.NotFound, the subtype RestTemplate throws for a 404
    | HttpNotFound
      // HttpClientErrorException itself (not a subtype), with any status code
    | HttpClientError(code: int)
      // HttpServerErrorException
    | HttpServerError(code: int)
      // ResourceAccessException: timeout or connection failure
    | ResourceAccess
      // MethodArgumentNotValidException: the default message of each field error, in order
    | ArgumentNotValid(fieldMessages: seq<Option<string>>)
      // MethodArgumentTypeMismatchException: parameter name and offending value
    | ArgumentTypeMismatch(name: string, value: Option<string>)
      // any other exception
    | OtherException(detail: Option<string>)

  /** Is the exception caught by `catch (HttpClientErrorException e)`? */
  predicate IsHttpClientError(e: Exc) {
    e.HttpNotFound? || e.HttpClientError?
  }

  /** e.getStatusCode() of a client error. */
  function ClientStatusCode(e: Exc): int
    requires IsHttpClientError(e)
  {
    if e.HttpNotFound? then 404 else e.code
  }

  /** What `restTemplate.getForObject` did: returned a (possibly null) body, or threw. */
  datatype Call<T> = Returned(body: Option<T>) | Threw(exc: Exc)

  /** CoordenadasResponse. The values are those of Java doubles; no arithmetic is done on them. */
  datatype Coordinates = Coordinates(latitude: real, longitude: real)

  /** The structure of the one upstream request a service issues. */
  datatype Request =
    | CepGet(url: string)
    | GeocodeGet(baseUrl: string, address: string, geocodingKey: Option<string>)
    | PlacesGet(baseUrl: string, location: Coordinates, radius: int, placeType: string, key: string)

  /** A service's outcome together with the upstream request it issued (None: no call was made). */
  datatype Traced<T> = Traced(request: Option<Request>, result: Result<T, Exc>)

  /** String.valueOf of a possibly null string, as `String.format("%s", …)` renders it. */
  function JavaText(s: Option<string>): (t: string)
    ensures s.Some? ==> t == s.value
    ensures s.None? ==> t == "null"
  {
    match s
    case Some(v) => v
    case None => "null"
  }

  /** Character.isWhitespace. */
  predicate IsJavaWhitespace(c: char): (b: bool)
    ensures c == ' ' || c == '\t' || c == '\n' || c == '\r' ==> b
    // the non-breaking spaces are not white space for Character.isWhitespace
    ensures c == '\U{00A0}' || c == '\U{2007}' || c == '\U{202F}' ==> !b
  {
    || c == ' '
    || ('\t' <= c <= '\r')
    || ('\U{1C}' <= c <= '\U{1F}')
    || c == '\U{1680}'
    || ('\U{2000}' <= c <= '\U{2006}')
    || ('\U{2008}' <= c <= '\U{200A}')
    || c == '\U{2028}' || c == '\U{2029}' || c == '\U{205F}' || c == '\U{3000}'
  }

  /** String.isBlank: empty, or only white space. */
  predicate IsBlank(s: string): (b: bool)
    ensures s == [] ==> b
    ensures b && s != [] ==> IsJavaWhitespace(s[0]) && IsBlank(s[1..])
  {
    forall i :: 0 <= i < |s| ==> IsJavaWhitespace(s[i])
  }

  /** `s == null || s.isBlank()` */
  predicate IsNullOrBlank(s: Option<string>) {
    s.None? || IsBlank(s.value)
  }

  /** Long.toString: the decimal rendering of an integer, with a leading '-' when negative. */
  function DecimalText(n: int): (s: string)
    ensures |s| > 0
  {
    if n < 0 then "-" + NaturalText(-n) else NaturalText(n)
  }

  function NaturalText(n: nat): (s: string)
    ensures |s| > 0
  {
    var digit := [(('0' as int) + n % 10) as char];
    if n < 10 then digit else NaturalText(n / 10) + digit
  }
}
