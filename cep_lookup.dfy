/**
 * The part of consultarCep that both CepService variants share word for
 * word: the ViaCEP payload, the ConsultaCep entity built from it,
 * buscarCepNaApiExterna with its catch clauses, and the repository that
 * persists each successful lookup.
 */
module CepLookup {
  import opened Wrappers
  import opened Domain

  /** A clock reading, as LocalDateTime.now() gives it; its value is never inspected. */
  type Timestamp = nat

  /** CepApiResponse, the ViaCEP JSON payload. */
  datatype CepApiResponse = CepApiResponse(
    cep: string, logradouro: string, complemento: string, bairro: string,
    localidade: string, uf: string, ibge: string, gia: string, ddd: string,
    siafi: string, erro: Option<bool>)

  /** The ConsultaCep entity. id and dataConsulta are null until it is persisted. */
  datatype ConsultaCep = ConsultaCep(
    id: Option<nat>, cep: string, logradouro: string, complemento: string,
    bairro: string, localidade: string, uf: string, ibge: string, gia: string,
    ddd: string, siafi: string, dataConsulta: Option<Timestamp>)

  const ExternalLookupFailed := "Erro ao consultar API externa de CEP"

  /** The message of `new CepNaoEncontradoException(cep)`. */
  function CepNotFoundMessage(cep: string): string {
    "CEP " + cep + " não encontrado"
  }

  /** String.format("%s/%s/json/", cepApiUrl, cep) */
  function LookupUrl(cepApiUrl: string, cep: string): (url: string)
    ensures |url| == |cepApiUrl| + 1 + |cep| + 6
    ensures url[..|cepApiUrl|] == cepApiUrl
    ensures url[|cepApiUrl| + 1..|cepApiUrl| + 1 + |cep|] == cep
    ensures url[|cepApiUrl| + 1 + |cep|..] == "/json/"
  {
    cepApiUrl + "/" + cep + "/json/"
  }

  /** The catch clauses of buscarCepNaApiExterna, applied to what the try block threw. */
  function CatchLookupFailure(cep: string, e: Exc): (r: Exc)
    ensures r.CepNaoEncontrado? || r.ErroConsultaExterna?
    ensures r.cause == Some(e)
  {
    if e.HttpNotFound? then CepNaoEncontrado(CepNotFoundMessage(cep), Some(e))
    else ErroConsultaExterna(ExternalLookupFailed, Some(e))
  }

  /** buscarCepNaApiExterna(cep), given what the ViaCEP call did. */
  function BuscarCep(cep: string, upstream: Call<CepApiResponse>): (r: Result<CepApiResponse, Exc>)
    ensures r.Err? ==> r.error.CepNaoEncontrado? || r.error.ErroConsultaExterna?
  {
    match upstream
    case Threw(e) => Err(CatchLookupFailure(cep, e))
    case Returned(body) =>
      if body.None? || body.value.erro == Some(true) then
        // thrown inside the try, so the catch-all wraps it
        Err(CatchLookupFailure(cep, CepNaoEncontrado(CepNotFoundMessage(cep), None)))
      else Ok(body.value)
  }

  /** converterParaEntity: every payload field is copied; id and dataConsulta stay null. */
  function ToEntity(a: CepApiResponse): (e: ConsultaCep)
    ensures e.id.None? && e.dataConsulta.None?
  {
    ConsultaCep(None, a.cep, a.logradouro, a.complemento, a.bairro, a.localidade,
                a.uf, a.ibge, a.gia, a.ddd, a.siafi, None)
  }

  /** The entity as repository.save returns it: the identity assigned, and dataConsulta stamped by @PrePersist when null. */
  function Persisted(e: ConsultaCep, id: nat, now: Timestamp): (p: ConsultaCep)
    ensures p.id == Some(id) && p.dataConsulta.Some?
    ensures p.(id := e.id, dataConsulta := e.dataConsulta) == e
  {
    e.(id := Some(id), dataConsulta := if e.dataConsulta.Some? then e.dataConsulta else Some(now))
  }

  // ---------------------------------------------------------------------------
  // Properties of the lookup

  /** Only the HttpClientErrorException.NotFound subtype escapes as "not found". */
  lemma NotFoundOnlyForSubtype(cep: string, upstream: Call<CepApiResponse>)
    ensures BuscarCep(cep, upstream).Err? && BuscarCep(cep, upstream).error.CepNaoEncontrado?
            <==> upstream == Threw(HttpNotFound)
    ensures upstream == Threw(HttpNotFound) ==>
            BuscarCep(cep, upstream) == Err(CepNaoEncontrado(CepNotFoundMessage(cep), Some(HttpNotFound)))
  {
  }

  /** Every other failure, a base-class 404 or a 500 included, ends as ErroConsultaExterna with one fixed message. */
  lemma OtherFailuresAreExternalErrors(cep: string, upstream: Call<CepApiResponse>)
    requires BuscarCep(cep, upstream).Err?
    requires upstream != Threw(HttpNotFound)
    ensures BuscarCep(cep, upstream).error.ErroConsultaExterna?
    ensures BuscarCep(cep, upstream).error.message == ExternalLookupFailed
  {
  }

  /** A null body or a payload with erro=true is wrapped: ErroConsultaExterna whose cause is CepNaoEncontrado. */
  lemma NotFoundPayloadIsWrapped(cep: string, body: Option<CepApiResponse>)
    requires body.None? || body.value.erro == Some(true)
    ensures BuscarCep(cep, Returned(body)) ==
            Err(ErroConsultaExterna(ExternalLookupFailed, Some(CepNaoEncontrado(CepNotFoundMessage(cep), None))))
  {
  }

  /** The lookup succeeds exactly on a non-null payload without erro=true, and returns that payload. */
  lemma LookupSucceedsExactly(cep: string, upstream: Call<CepApiResponse>)
    ensures BuscarCep(cep, upstream).Ok? <==>
            upstream.Returned? && upstream.body.Some? && upstream.body.value.erro != Some(true)
    ensures BuscarCep(cep, upstream).Ok? ==> BuscarCep(cep, upstream).value == upstream.body.value
  {
  }

  /** The test scenarios: a base-class 404, a base-class 500 and erro=true all end as ErroConsultaExterna. */
  lemma LookupTestScenarios(cep: string, payload: CepApiResponse)
    ensures BuscarCep(cep, Threw(HttpClientError(404))).error.ErroConsultaExterna?
    ensures BuscarCep(cep, Threw(HttpClientError(500))).error.ErroConsultaExterna?
    ensures BuscarCep(cep, Returned(Some(payload.(erro := Some(true))))).error.cause.value.CepNaoEncontrado?
  {
  }

  // ---------------------------------------------------------------------------
  // The repository

  /** ConsultaCepRepository: the records saved so far, in order. */
  class ConsultaCepRepository {
    var saved: seq<ConsultaCep>

    /** Every saved record carries its identity (1, 2, … in order of saving) and a timestamp. */
    ghost predicate Valid()
      reads this
    {
      forall i :: 0 <= i < |saved| ==> saved[i].id == Some(i + 1) && saved[i].dataConsulta.Some?
    }

    constructor ()
      ensures Valid() && saved == []
    {
      saved := [];
    }

    /** The identity the next saved record receives. */
    function NextId(): (id: nat)
      reads this
      ensures id > 0
      ensures Valid() ==> forall i :: 0 <= i < |saved| ==> saved[i].id != Some(id)
    {
      |saved| + 1
    }

    /** repository.save of a new entity: it is appended with a fresh identity. */
    method Save(e: ConsultaCep, now: Timestamp) returns (stored: ConsultaCep)
      requires Valid()
      modifies this
      ensures Valid()
      ensures stored == Persisted(e, old(NextId()), now)
      ensures saved == old(saved) + [stored]
    {
      stored := Persisted(e, NextId(), now);
      saved := saved + [stored];
    }
  }
}
