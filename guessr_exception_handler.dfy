/**
 * com.hotel.guessr.exception.ApiExceptionHandler: every @ExceptionHandler
 * method as one function from the exception to the error response. Spring
 * picks the most specific handler, so each exception kind below has exactly
 * one branch and everything else falls to handleGenericException.
 */
module GuessrExceptionHandler {
  import opened Wrappers
  import opened Domain
  import opened ApiErro

  /** String.format("Parâmetro '%s' inválido. Valor fornecido: '%s'", name, value) */
  function TypeMismatchMessage(name: string, value: Option<string>): string {
    "Parâmetro '" + name + "' inválido. Valor fornecido: '" + JavaText(value) + "'"
  }

  function Handle(e: Exc): (r: ErrorResponse)
    ensures r.body.codigoErro in {400, 401, 404, 429, 500, 503}
  {
    match e
    case CepNaoEncontrado(message, _) => Respond(NotFound, message)
    case CepInvalido(message) => Respond(BadRequest, message)
    case HotelNaoEncontrado(message) => Respond(NotFound, message)
    case ErroConsultaExterna(message, _) => Respond(ServiceUnavailable, message)
    case ApiKeyInvalida(message, _) => Respond(Unauthorized, message)
    case LimiteRequisicaoExcedido(message, _) => Respond(TooManyRequests, message)
    case ArgumentNotValid(fieldMessages) => Respond(BadRequest, Join(FieldMessages(fieldMessages)))
    case ArgumentTypeMismatch(name, value) => Respond(BadRequest, TypeMismatchMessage(name, value))
    case IllegalArgument(message) => Respond(BadRequest, message)
    case _ => Respond(InternalServerError, InternalErrorMessage)
  }

  /** The application's own exceptions keep their message; each kind has its status. */
  lemma ApplicationExceptionsKeepTheirMessage(e: Exc)
    requires e.CepNaoEncontrado? || e.CepInvalido? || e.HotelNaoEncontrado? || e.ErroConsultaExterna?
             || e.ApiKeyInvalida? || e.LimiteRequisicaoExcedido? || e.IllegalArgument?
    ensures Handle(e).body.mensagemDetalhada == e.message
    ensures Handle(e).body.codigoErro ==
              if e.CepNaoEncontrado? || e.HotelNaoEncontrado? then 404
              else if e.CepInvalido? || e.IllegalArgument? then 400
              else if e.ErroConsultaExterna? then 503
              else if e.ApiKeyInvalida? then 401
              else 429
  {
  }

  /** Validation errors are 400 with the field messages joined by ", " in order. */
  lemma ValidationErrorsJoined(fieldMessages: seq<Option<string>>, m: Option<string>)
    requires fieldMessages != []
    ensures Handle(ArgumentNotValid(fieldMessages + [m])) ==
              Respond(BadRequest, Join(FieldMessages(fieldMessages)) + ", " + JavaText(m))
    ensures Handle(ArgumentNotValid([m])) == Respond(BadRequest, JavaText(m))
  {
    var texts := FieldMessages(fieldMessages);
    assert FieldMessages(fieldMessages + [m]) == texts + [JavaText(m)];
    JoinAppend(texts, JavaText(m));
  }

  /** A type mismatch is 400 naming the parameter and the offending value. */
  lemma TypeMismatchIs400(name: string, value: Option<string>)
    ensures Handle(ArgumentTypeMismatch(name, value)).httpStatus == BadRequest
    ensures Handle(ArgumentTypeMismatch(name, value)).body.mensagemDetalhada ==
              "Parâmetro '" + name + "' inválido. Valor fornecido: '" + JavaText(value) + "'"
  {
  }

  /** Every other exception is 500 with the fixed text, whatever it carried. */
  lemma OthersAreInternalErrors(e: Exc)
    requires e.NullPointer? || e.HttpNotFound? || e.HttpClientError? || e.HttpServerError?
             || e.ResourceAccess? || e.OtherException?
    ensures Handle(e) == ErrorResponse(InternalServerError, Body("INTERNAL_SERVER_ERROR", 500, "Erro interno no servidor"))
  {
  }

  /** 500 is reached exactly by the exceptions no specific handler takes. */
  lemma InternalErrorExactlyForUnhandled(e: Exc)
    ensures Handle(e).httpStatus == InternalServerError <==>
              e.NullPointer? || e.HttpNotFound? || e.HttpClientError? || e.HttpServerError?
              || e.ResourceAccess? || e.OtherException?
  {
  }
}
