/**
 * The transilvania pipeline behind GET /hoteis: HotelService wired to the
 * models of CepService and the table-driven GeolocalizacaoService, with the
 * repository query as a parameter, and its failures passed to
 * ApiExceptionHandler.
 */
module TransilvaniaEndToEnd {
  import opened Wrappers
  import opened Domain
  import opened CepNormalizer
  import opened CepLookup
  import ApiErro
  import TransilvaniaCepService
  import TransilvaniaGeolocalizacao
  import TransilvaniaHotelService
  import TransilvaniaExceptionHandler

  /** The configuration, ViaCEP's behaviour, the repository, the next identity, the clock and the distance function. */
  datatype Settings = Settings(
    cepApiUrl: string, viaCep: Call<CepApiResponse>,
    findHoteis: (real, real, string, int) -> Result<seq<TransilvaniaHotelService.Hotel>, Exc>,
    nextId: nat, now: Timestamp, distancia: (Coordinates, Coordinates) -> real)

  /** CepService.consultarCep as HotelService sees it, for the configured ViaCEP behaviour. */
  function ConsultarCep(s: Settings): Option<string> -> Result<TransilvaniaCepService.ConsultaCepResponse, Exc> {
    c => TransilvaniaCepService.Consulta(s.cepApiUrl, c, s.viaCep, s.nextId, s.now).result
  }

  function Hoteis(s: Settings, cep: Option<string>, limite: Option<int>)
    : TransilvaniaHotelService.Run<TransilvaniaHotelService.HoteisProximosResponse>
  {
    TransilvaniaHotelService.BuscarHoteisProximosPorCep(
      cep, limite, ConsultarCep(s), TransilvaniaGeolocalizacao.ObterCoordenadasPorCep, s.findHoteis, s.distancia)
  }

  /** The HTTP status of the reply: 200 with the hotels, or the handler's status. */
  function Status(s: Settings, cep: Option<string>, limite: Option<int>): (code: int)
    ensures code in {200, 400, 404, 500, 503}
  {
    var r := Hoteis(s, cep, limite).result;
    if r.Ok? then 200 else TransilvaniaExceptionHandler.Handle(r.error).body.codigoErro
  }

  function Message(s: Settings, cep: Option<string>, limite: Option<int>): string
    requires Hoteis(s, cep, limite).result.Err?
  {
    TransilvaniaExceptionHandler.Handle(Hoteis(s, cep, limite).result.error).body.mensagemDetalhada
  }

  predicate CepFound(s: Settings, cep: Option<string>) {
    Normalize(cep).Ok? && s.viaCep.Returned? && s.viaCep.body.Some? && s.viaCep.body.value.erro != Some(true)
  }

  // ---------------------------------------------------------------------------
  // Input and upstream behaviour → HTTP status

  /** A null or blank CEP is 400 with the wrapped blank text; the geocoder's NullPointerException is never reached. */
  lemma BlankCepIs400(s: Settings, cep: Option<string>, limite: Option<int>)
    requires IsNullOrBlank(cep)
    ensures Status(s, cep, limite) == 400
    ensures Message(s, cep, limite) == TransilvaniaCepService.InvalidMessage("CEP não pode ser vazio")
    ensures Hoteis(s, cep, limite).steps == [TransilvaniaHotelService.ConsultarCep(cep)]
  {
  }

  /** A CEP without eight digits is 400 naming the raw input in the format sentence. */
  lemma MalformedCepIs400(s: Settings, cep: string, limite: Option<int>)
    requires !IsBlank(cep) && |DigitsOf(cep)| != 8
    ensures Status(s, Some(cep), limite) == 400
    ensures Message(s, Some(cep), limite) == TransilvaniaCepService.InvalidMessage(cep)
  {
  }

  /** ViaCEP's NotFound is 404; an erro=true payload is 503 with the handler's fixed text. */
  lemma ViaCepFailures(s: Settings, cep: Option<string>, limite: Option<int>, p: CepApiResponse)
    requires Normalize(cep).Ok?
    ensures s.viaCep == Threw(HttpNotFound) ==>
              Status(s, cep, limite) == 404 && Message(s, cep, limite) == CepNotFoundMessage(Normalize(cep).value)
    ensures s.viaCep == Returned(Some(p.(erro := Some(true)))) ==>
              Status(s, cep, limite) == 503
              && Message(s, cep, limite) == "Serviço de consulta de CEP temporariamente indisponível"
  {
  }

  /**
   * The geocoder is given the raw CEP: one with a leading blank (" 01310100")
   * passes the CEP lookup, but its prefix is not recognised and the repository
   * is searched around Brasília with the looked-up state.
   */
  lemma RawCepReachesTheGeocoder(s: Settings, cep: string, limite: Option<int>)
    requires CepFound(s, Some(cep)) && |cep| > 0 && cep[0] == ' '
    ensures var uf := s.viaCep.body.value.uf;
            Hoteis(s, Some(cep), limite).steps ==
              [TransilvaniaHotelService.ConsultarCep(Some(cep)), TransilvaniaHotelService.ObterCoordenadasPorCep(Some(cep)),
               TransilvaniaHotelService.FindHoteisProximosPorCoordenadas(-15.7801, -47.9292, uf, limite.GetOr(5))]
  {
    assert TransilvaniaGeolocalizacao.ObterCoordenadasPorCep(Some(cep)) == Ok(TransilvaniaGeolocalizacao.Fallback) by {
      TransilvaniaGeolocalizacao.CoordinatesByPrefix(cep);
    }
    TransilvaniaCepService.ResponseFromPayload(s.cepApiUrl, Some(cep), s.viaCep.body.value, s.nextId, s.now);
    TransilvaniaHotelService.RepositoryQuery(Some(cep), limite, ConsultarCep(s), TransilvaniaGeolocalizacao.ObterCoordenadasPorCep,
                                             s.findHoteis, s.distancia);
  }

  /** The empty-state HotelNaoEncontrado has no handler here: it becomes 500 "Erro interno no servidor". */
  lemma EmptyRepositoryIs500(s: Settings, cep: string, limite: Option<int>)
    requires CepFound(s, Some(cep))
    requires forall lat: real, lng: real, uf: string, n: int :: s.findHoteis(lat, lng, uf, n) == Ok([])
    ensures Status(s, Some(cep), limite) == 500
    ensures Message(s, Some(cep), limite) == "Erro interno no servidor"
  {
    TransilvaniaCepService.SucceedsExactly(s.cepApiUrl, Some(cep), s.viaCep, s.nextId, s.now);
  }
}
