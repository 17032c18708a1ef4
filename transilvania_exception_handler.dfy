/**
 * com.hotel.transilvania.exception.ApiExceptionHandler: four specific
 * handlers and the generic one. ApiKeyInvalida, LimiteRequisicaoExcedido,
 * HotelNaoEncontrado, IllegalArgument and type mismatches have no handler
 * here and so end as 500.
 */
module TransilvaniaExceptionHandler {
  import opened Wrappers
  import opened Domain
  import opened ApiErro

  const ExternalUnavailableMessage := "Serviço de consulta de CEP temporariamente indisponível"

  function Handle(e: Exc): (r: ErrorResponse)
    ensures r.body.codigoErro in {400, 404, 500, 503}
  {
    match e
    case CepNaoEncontrado(message, _) => Respond(NotFound, message)
    case CepInvalido(message) => Respond(BadRequest, message)
    case ErroConsultaExterna(_, _) => Respond(ServiceUnavailable, ExternalUnavailableMessage)
    case ArgumentNotValid(fieldMessages) => Respond(BadRequest, Join(FieldMessages(fieldMessages)))
    case _ => Respond(InternalServerError, InternalErrorMessage)
  }

  /** CepNaoEncontrado is 404 and CepInvalido 400, each with its own message. */
  lemma CepExceptionsKeepTheirMessage(e: Exc)
    requires e.CepNaoEncontrado? || e.CepInvalido?
    ensures Handle(e) == Respond(if e.CepNaoEncontrado? then NotFound else BadRequest, e.message)
  {
  }

  /** ErroConsultaExterna is 503 with one fixed text, whatever its own message or cause. */
  lemma ExternalErrorMessageIsFixed(m1: string, c1: Option<Exc>, m2: string, c2: Option<Exc>)
    ensures Handle(ErroConsultaExterna(m1, c1)) == Handle(ErroConsultaExterna(m2, c2))
    ensures Handle(ErroConsultaExterna(m1, c1)).body ==
              Body("SERVICE_UNAVAILABLE", 503, "Serviço de consulta de CEP temporariamente indisponível")
  {
  }

  /** Validation errors are 400 with the field messages joined by ", " in order. */
  lemma ValidationErrorsJoined(fieldMessages: seq<Option<string>>, m: Option<string>)
    requires fieldMessages != []
    ensures Handle(ArgumentNotValid(fieldMessages + [m])) ==
              Respond(BadRequest, Join(FieldMessages(fieldMessages)) + ", " + JavaText(m))
  {
    var texts := FieldMessages(fieldMessages);
    assert FieldMessages(fieldMessages + [m]) == texts + [JavaText(m)];
    JoinAppend(texts, JavaText(m));
  }

  /** Everything without a handler, the key, quota and hotel-not-found exceptions included, is 500 with the fixed text. */
  lemma UnhandledAreInternalErrors(e: Exc)
    ensures Handle(e).httpStatus == InternalServerError <==>
              !(e.CepNaoEncontrado? || e.CepInvalido? || e.ErroConsultaExterna? || e.ArgumentNotValid?)
    ensures Handle(e).httpStatus == InternalServerError ==>
              Handle(e).body == Body("INTERNAL_SERVER_ERROR", 500, "Erro interno no servidor")
    ensures e.ApiKeyInvalida? || e.LimiteRequisicaoExcedido? || e.HotelNaoEncontrado? ==>
              Handle(e).httpStatus == InternalServerError
  {
  }
}
