/**
 * com.hotel.transilvania.service.CepService. It differs from the guessr
 * variant in two places: CepInvalidoException(String) formats every message
 * it is given into a "formato inválido" sentence, and the response carries
 * all the entity's fields.
 */
module TransilvaniaCepService {
  import opened Wrappers
  import opened Domain
  import opened CepNormalizer
  import opened CepLookup

  const BlankArgument := "CEP não pode ser vazio"

  const InvalidSuffix := " está em formato inválido. Use formato: 00000000 ou 00000-000"

  /** The message of `new CepInvalidoException(cep)`: the argument between "CEP " and the format hint. */
  function InvalidMessage(cep: string): (m: string)
    ensures |m| == 4 + |cep| + |InvalidSuffix|
    ensures m[..4] == "CEP " && m[4..4 + |cep|] == cep && m[4 + |cep|..] == InvalidSuffix
  {
    "CEP " + cep + InvalidSuffix
  }

  /** The response as the builder in converterParaResponse fills it: every entity field. */
  datatype ConsultaCepResponse = ConsultaCepResponse(
    id: Option<nat>, cep: string, logradouro: string, complemento: string,
    bairro: string, localidade: string, uf: string, ibge: string, gia: string,
    ddd: string, siafi: string, dataConsulta: Option<Timestamp>)

  /**
   * validarENormalizarCep. The blank-input text goes through the same
   * one-argument constructor, so it too is wrapped in the format sentence.
   */
  function ValidarENormalizarCep(cep: Option<string>): (r: Result<string, Exc>)
    ensures r.Ok? <==> Normalize(cep).Ok?
    ensures r.Ok? ==> IsCanonical(r.value)
    ensures r.Err? ==> r.error == CepInvalido(InvalidMessage(if IsNullOrBlank(cep) then BlankArgument else cep.value))
  {
    match Normalize(cep)
    case Ok(d) => Ok(d)
    case Err(Blank) => Err(CepInvalido(InvalidMessage(BlankArgument)))
    case Err(WrongLength(_)) => Err(CepInvalido(InvalidMessage(cep.value)))
  }

  /** converterParaResponse. */
  function ConverterParaResponse(e: ConsultaCep): (r: ConsultaCepResponse)
    ensures r.id == e.id && r.dataConsulta == e.dataConsulta
    ensures r.cep == e.cep && r.logradouro == e.logradouro && r.complemento == e.complemento
            && r.bairro == e.bairro && r.localidade == e.localidade && r.uf == e.uf
    ensures r.ibge == e.ibge && r.gia == e.gia && r.ddd == e.ddd && r.siafi == e.siafi
  {
    ConsultaCepResponse(e.id, e.cep, e.logradouro, e.complemento, e.bairro, e.localidade,
                        e.uf, e.ibge, e.gia, e.ddd, e.siafi, e.dataConsulta)
  }

  /** consultarCep as a value, given ViaCEP's behaviour, the next identity and the clock. */
  function Consulta(cepApiUrl: string, cep: Option<string>, upstream: Call<CepApiResponse>,
                    id: nat, now: Timestamp): (t: Traced<ConsultaCepResponse>)
    ensures t.result.Err? ==> t.result.error.CepInvalido? || t.result.error.CepNaoEncontrado?
                              || t.result.error.ErroConsultaExterna?
    ensures t.result.Ok? ==> t.request.Some?
  {
    match ValidarENormalizarCep(cep)
    case Err(e) => Traced(None, Err(e))
    case Ok(normalizado) =>
      Traced(Some(CepGet(LookupUrl(cepApiUrl, normalizado))),
             match BuscarCep(normalizado, upstream)
             case Err(e) => Err(e)
             case Ok(payload) => Ok(ConverterParaResponse(Persisted(ToEntity(payload), id, now))))
  }

  class CepService {
    const repository: ConsultaCepRepository
    const cepApiUrl: string

    constructor (repository: ConsultaCepRepository, cepApiUrl: string)
      ensures this.repository == repository && this.cepApiUrl == cepApiUrl
    {
      this.repository := repository;
      this.cepApiUrl := cepApiUrl;
    }

    /** consultarCep: one save, after and only after a successful lookup. */
    method ConsultarCep(cep: Option<string>, upstream: Call<CepApiResponse>, now: Timestamp)
      returns (t: Traced<ConsultaCepResponse>)
      requires repository.Valid()
      modifies repository
      ensures repository.Valid()
      ensures t == Consulta(cepApiUrl, cep, upstream, old(repository.NextId()), now)
      ensures t.result.Err? ==> repository.saved == old(repository.saved)
      ensures t.result.Ok? ==> upstream.Returned? && upstream.body.Some?
      ensures t.result.Ok? ==>
                repository.saved == old(repository.saved)
                                    + [Persisted(ToEntity(upstream.body.value), old(repository.NextId()), now)]
    {
      var normalizado := ValidarENormalizarCep(cep);
      if normalizado.Err? {
        return Traced(None, Err(normalizado.error));
      }
      var request := Some(CepGet(LookupUrl(cepApiUrl, normalizado.value)));
      var apiResponse := BuscarCep(normalizado.value, upstream);
      if apiResponse.Err? {
        return Traced(request, Err(apiResponse.error));
      }
      var consultaSalva := repository.Save(ToEntity(apiResponse.value), now);
      t := Traced(request, Ok(ConverterParaResponse(consultaSalva)));
    }
  }

  // ---------------------------------------------------------------------------
  // Properties of consultarCep

  /**
   * A null or blank CEP fails before any call, and its message is not the
   * plain "CEP não pode ser vazio": that text is wrapped in the format sentence.
   */
  lemma BlankFailsWithoutCall(url: string, cep: Option<string>, upstream: Call<CepApiResponse>, id: nat, now: Timestamp)
    requires IsNullOrBlank(cep)
    ensures Consulta(url, cep, upstream, id, now) == Traced(None, Err(CepInvalido(InvalidMessage(BlankArgument))))
    ensures InvalidMessage(BlankArgument) != BlankArgument
    ensures InvalidMessage(BlankArgument)[4..4 + |BlankArgument|] == BlankArgument
  {
    var m := InvalidMessage(BlankArgument);
    assert |m| > |BlankArgument|;
  }

  /** The upstream is called exactly when the CEP normalises, with the normalised code in the path. */
  lemma CallOnlyWithNormalisedCep(url: string, cep: Option<string>, upstream: Call<CepApiResponse>, id: nat, now: Timestamp)
    ensures Consulta(url, cep, upstream, id, now).request.Some? <==> Normalize(cep).Ok?
    ensures Normalize(cep).Ok? ==>
              Consulta(url, cep, upstream, id, now).request == Some(CepGet(LookupUrl(url, Normalize(cep).value)))
    ensures !IsNullOrBlank(cep) && Normalize(cep).Err? ==>
              Consulta(url, cep, upstream, id, now).result == Err(CepInvalido(InvalidMessage(cep.value)))
  {
  }

  /** The lookup succeeds exactly for a valid CEP and a non-null payload without erro=true. */
  lemma SucceedsExactly(url: string, cep: Option<string>, upstream: Call<CepApiResponse>, id: nat, now: Timestamp)
    ensures Consulta(url, cep, upstream, id, now).result.Ok? <==>
              Normalize(cep).Ok? && upstream.Returned? && upstream.body.Some?
              && upstream.body.value.erro != Some(true)
  {
    if Normalize(cep).Ok? {
      LookupSucceedsExactly(Normalize(cep).value, upstream);
    }
  }

  /** Only the NotFound subtype gives CepNaoEncontrado; a null body or erro=true ends as ErroConsultaExterna. */
  lemma NotFoundOnlyForSubtype(url: string, cep: Option<string>, upstream: Call<CepApiResponse>, id: nat, now: Timestamp)
    requires Normalize(cep).Ok?
    ensures var r := Consulta(url, cep, upstream, id, now).result;
            r.Err? && r.error.CepNaoEncontrado? <==> upstream == Threw(HttpNotFound)
    ensures var r := Consulta(url, cep, upstream, id, now).result;
            upstream.Returned? && (upstream.body.None? || upstream.body.value.erro == Some(true)) ==>
              r.Err? && r.error.ErroConsultaExterna? && r.error.message == ExternalLookupFailed
              && r.error.cause.Some? && r.error.cause.value.CepNaoEncontrado?
  {
    CepLookup.NotFoundOnlyForSubtype(Normalize(cep).value, upstream);
  }

  /** The response is exactly the saved record: every payload field, the identity and the timestamp. */
  lemma ResponseFromPayload(url: string, cep: Option<string>, payload: CepApiResponse, id: nat, now: Timestamp)
    requires Normalize(cep).Ok? && payload.erro != Some(true)
    ensures Consulta(url, cep, Returned(Some(payload)), id, now).result ==
              Ok(ConsultaCepResponse(Some(id), payload.cep, payload.logradouro, payload.complemento,
                                     payload.bairro, payload.localidade, payload.uf, payload.ibge,
                                     payload.gia, payload.ddd, payload.siafi, Some(now)))
  {
  }

  /** Nothing of the entity is lost: distinct records give distinct responses. */
  lemma ResponseIsInjective(e1: ConsultaCep, e2: ConsultaCep)
    ensures ConverterParaResponse(e1) == ConverterParaResponse(e2) <==> e1 == e2
  {
  }
}
