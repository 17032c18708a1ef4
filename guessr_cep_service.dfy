/**
 * com.hotel.guessr.service.CepService: consultarCep validates and normalises
 * the CEP, looks it up on ViaCEP, saves one ConsultaCep record and answers
 * with a response built from the saved record.
 */
module GuessrCepService {
  import opened Wrappers
  import opened Domain
  import opened CepNormalizer
  import opened CepLookup

  const BlankMessage := "CEP não pode ser vazio"

  /** This variant's ConsultaCepResponse: ibge, gia and siafi are not part of it. */
  datatype ConsultaCepResponse = ConsultaCepResponse(
    id: Option<nat>, cep: string, logradouro: string, complemento: string,
    bairro: string, localidade: string, uf: string, ddd: string,
    dataConsulta: Option<Timestamp>)

  /**
   * validarENormalizarCep. This variant's CepInvalidoException class is not
   * part of this model; its message is taken to be the constructor argument.
   */
  function ValidarENormalizarCep(cep: Option<string>): (r: Result<string, Exc>)
    ensures r.Ok? <==> Normalize(cep).Ok?
    ensures r.Ok? ==> IsCanonical(r.value)
    ensures r.Err? ==> r.error == CepInvalido(if IsNullOrBlank(cep) then BlankMessage else cep.value)
  {
    match Normalize(cep)
    case Ok(d) => Ok(d)
    case Err(Blank) => Err(CepInvalido(BlankMessage))
    case Err(WrongLength(_)) => Err(CepInvalido(cep.value))
  }

  /** converterParaResponse. */
  function ConverterParaResponse(e: ConsultaCep): (r: ConsultaCepResponse)
    ensures r.id == e.id && r.dataConsulta == e.dataConsulta
    ensures r.cep == e.cep && r.logradouro == e.logradouro && r.complemento == e.complemento
            && r.bairro == e.bairro && r.localidade == e.localidade && r.uf == e.uf && r.ddd == e.ddd
  {
    ConsultaCepResponse(e.id, e.cep, e.logradouro, e.complemento, e.bairro,
                        e.localidade, e.uf, e.ddd, e.dataConsulta)
  }

  /**
   * consultarCep as a value: what it answers and which upstream request it
   * issues, given what ViaCEP does, the identity the repository assigns
   * next and the clock reading that stamps the record.
   */
  function Consulta(cepApiUrl: string, cep: Option<string>, upstream: Call<CepApiResponse>,
                    id: nat, now: Timestamp): (t: Traced<ConsultaCepResponse>)
    ensures t.result.Err? ==> t.result.error.CepInvalido? || t.result.error.CepNaoEncontrado?
                              || t.result.error.ErroConsultaExterna?
    ensures t.result.Ok? ==> t.request.Some?
  {
    match ValidarENormalizarCep(cep)
    case Err(e) => Traced(None, Err(e))
    case Ok(normalizado) =>
      Traced(Some(CepGet(LookupUrl(cepApiUrl, normalizado))),
             match BuscarCep(normalizado, upstream)
             case Err(e) => Err(e)
             case Ok(payload) => Ok(ConverterParaResponse(Persisted(ToEntity(payload), id, now))))
  }

  /** The service object: its collaborators are fixed at construction. */
  class CepService {
    const repository: ConsultaCepRepository
    const cepApiUrl: string

    constructor (repository: ConsultaCepRepository, cepApiUrl: string)
      ensures this.repository == repository && this.cepApiUrl == cepApiUrl
    {
      this.repository := repository;
      this.cepApiUrl := cepApiUrl;
    }

    /** consultarCep: one save, after and only after a successful lookup. */
    method ConsultarCep(cep: Option<string>, upstream: Call<CepApiResponse>, now: Timestamp)
      returns (t: Traced<ConsultaCepResponse>)
      requires repository.Valid()
      modifies repository
      ensures repository.Valid()
      ensures t == Consulta(cepApiUrl, cep, upstream, old(repository.NextId()), now)
      ensures t.result.Err? ==> repository.saved == old(repository.saved)
      ensures t.result.Ok? ==> upstream.Returned? && upstream.body.Some?
      ensures t.result.Ok? ==>
                repository.saved == old(repository.saved)
                                    + [Persisted(ToEntity(upstream.body.value), old(repository.NextId()), now)]
    {
      var normalizado := ValidarENormalizarCep(cep);
      if normalizado.Err? {
        return Traced(None, Err(normalizado.error));
      }
      var request := Some(CepGet(LookupUrl(cepApiUrl, normalizado.value)));
      var apiResponse := BuscarCep(normalizado.value, upstream);
      if apiResponse.Err? {
        return Traced(request, Err(apiResponse.error));
      }
      var consultaSalva := repository.Save(ToEntity(apiResponse.value), now);
      t := Traced(request, Ok(ConverterParaResponse(consultaSalva)));
    }
  }

  // ---------------------------------------------------------------------------
  // Properties of consultarCep

  /** A null or blank CEP fails with "CEP não pode ser vazio" before any upstream call. */
  lemma BlankFailsWithoutCall(url: string, cep: Option<string>, upstream: Call<CepApiResponse>, id: nat, now: Timestamp)
    requires IsNullOrBlank(cep)
    ensures Consulta(url, cep, upstream, id, now) == Traced(None, Err(CepInvalido(BlankMessage)))
  {
  }

  /**
   * The upstream is called exactly when the CEP normalises, and always with
   * the normalised code in the path; an invalid CEP fails with CepInvalido
   * naming the raw input.
   */
  lemma CallOnlyWithNormalisedCep(url: string, cep: Option<string>, upstream: Call<CepApiResponse>, id: nat, now: Timestamp)
    ensures Consulta(url, cep, upstream, id, now).request.Some? <==> Normalize(cep).Ok?
    ensures Normalize(cep).Ok? ==>
              Consulta(url, cep, upstream, id, now).request == Some(CepGet(LookupUrl(url, Normalize(cep).value)))
    ensures !IsNullOrBlank(cep) && Normalize(cep).Err? ==>
              Consulta(url, cep, upstream, id, now).result == Err(CepInvalido(cep.value))
  {
  }

  /** The lookup succeeds exactly for a valid CEP and a non-null payload without erro=true. */
  lemma SucceedsExactly(url: string, cep: Option<string>, upstream: Call<CepApiResponse>, id: nat, now: Timestamp)
    ensures Consulta(url, cep, upstream, id, now).result.Ok? <==>
              Normalize(cep).Ok? && upstream.Returned? && upstream.body.Some?
              && upstream.body.value.erro != Some(true)
  {
    if Normalize(cep).Ok? {
      LookupSucceedsExactly(Normalize(cep).value, upstream);
    }
  }

  /** Only the NotFound subtype gives CepNaoEncontrado; a null body or erro=true ends as ErroConsultaExterna. */
  lemma NotFoundKinds(url: string, cep: Option<string>, upstream: Call<CepApiResponse>, id: nat, now: Timestamp)
    requires Normalize(cep).Ok?
    ensures var r := Consulta(url, cep, upstream, id, now).result;
            r.Err? && r.error.CepNaoEncontrado? <==> upstream == Threw(HttpNotFound)
    ensures var r := Consulta(url, cep, upstream, id, now).result;
            upstream.Returned? && (upstream.body.None? || upstream.body.value.erro == Some(true)) ==>
              r.Err? && r.error.ErroConsultaExterna? && r.error.message == ExternalLookupFailed
              && r.error.cause.Some? && r.error.cause.value.CepNaoEncontrado?
  {
    NotFoundOnlyForSubtype(Normalize(cep).value, upstream);
  }

  /** The response carries the upstream payload's fields and the saved record's identity and timestamp. */
  lemma ResponseFromPayload(url: string, cep: Option<string>, payload: CepApiResponse, id: nat, now: Timestamp)
    requires Normalize(cep).Ok? && payload.erro != Some(true)
    ensures Consulta(url, cep, Returned(Some(payload)), id, now).result ==
              Ok(ConsultaCepResponse(Some(id), payload.cep, payload.logradouro, payload.complemento,
                                     payload.bairro, payload.localidade, payload.uf, payload.ddd, Some(now)))
  {
  }

  /** The response keeps exactly id, cep, logradouro, complemento, bairro, localidade, uf, ddd and dataConsulta. */
  lemma ResponseKeepsOnly(e1: ConsultaCep, e2: ConsultaCep)
    ensures ConverterParaResponse(e1) == ConverterParaResponse(e2) <==>
              e1.(ibge := e2.ibge, gia := e2.gia, siafi := e2.siafi) == e2
  {
  }
}
