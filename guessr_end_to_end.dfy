/**
 * The guessr pipeline behind GET /hoteis: HotelService wired to the models
 * of CepService, GeolocalizacaoService and GooglePlacesService, and its
 * failures passed to ApiExceptionHandler, giving the HTTP status for each
 * combination of input and upstream behaviour.
 */
module GuessrEndToEnd {
  import opened Wrappers
  import opened Domain
  import opened CepNormalizer
  import opened CepLookup
  import ApiErro
  import GuessrCepService
  import GuessrGeolocalizacao
  import GooglePlaces
  import GuessrHotelService
  import GuessrExceptionHandler

  /** What each of the three upstream services does for this request. */
  datatype Upstreams = Upstreams(
    viaCep: Call<CepApiResponse>,
    geocoding: Call<GuessrGeolocalizacao.GeocodingResponse>,
    places: Call<GooglePlaces.PlacesResponse>)

  /** The configuration, the identity the repository assigns next, the clock, and the distance function. */
  datatype Settings = Settings(
    cepApiUrl: string, geo: GuessrGeolocalizacao.GeoConfig, places: GooglePlaces.PlacesConfig,
    nextId: nat, now: Timestamp, distancia: (Coordinates, Coordinates) -> real)

  function Hoteis(s: Settings, u: Upstreams, cep: Option<string>, limite: Option<int>)
    : (run: GuessrHotelService.Run<GuessrHotelService.HoteisProximosResponse>)
    ensures run.result.Err? ==> !run.result.error.NullPointer?
  {
    GuessrHotelService.BuscarHoteisProximosPorCep(
      cep, limite,
      c => GuessrCepService.Consulta(s.cepApiUrl, c, u.viaCep, s.nextId, s.now).result,
      c => GuessrGeolocalizacao.ObterCoordenadasPorCep(s.geo, c, u.geocoding).result,
      (origem, lim, raio) => GooglePlaces.BuscarHoteisProximos(s.places, origem, lim, raio, u.places, s.distancia).result)
  }

  /** The HTTP status of the reply: 200 with the hotels, or the handler's status. */
  function Status(s: Settings, u: Upstreams, cep: Option<string>, limite: Option<int>): (code: int)
    ensures code in {200, 400, 401, 404, 429, 503}
  {
    var r := Hoteis(s, u, cep, limite).result;
    if r.Ok? then 200 else GuessrExceptionHandler.Handle(r.error).body.codigoErro
  }

  function Message(s: Settings, u: Upstreams, cep: Option<string>, limite: Option<int>): string
    requires Hoteis(s, u, cep, limite).result.Err?
  {
    GuessrExceptionHandler.Handle(Hoteis(s, u, cep, limite).result.error).body.mensagemDetalhada
  }

  /** A failed pipeline replies with the handler's status and message for its exception. */
  lemma HandlerDecides(s: Settings, u: Upstreams, cep: Option<string>, limite: Option<int>, e: Exc)
    requires Hoteis(s, u, cep, limite).result == Err(e)
    ensures Status(s, u, cep, limite) == GuessrExceptionHandler.Handle(e).body.codigoErro
    ensures Message(s, u, cep, limite) == GuessrExceptionHandler.Handle(e).body.mensagemDetalhada
  {
  }

  /** ViaCEP answers with a real address for a valid CEP. */
  predicate CepFound(u: Upstreams, cep: Option<string>) {
    Normalize(cep).Ok? && u.viaCep.Returned? && u.viaCep.body.Some? && u.viaCep.body.value.erro != Some(true)
  }

  /** The geocoder answers with a location in its first result. */
  predicate Geocoded(u: Upstreams) {
    u.geocoding.Returned? && u.geocoding.body.Some? && u.geocoding.body.value.results.Some?
    && |u.geocoding.body.value.results.value| > 0 && u.geocoding.body.value.results.value[0].location.Some?
  }

  // ---------------------------------------------------------------------------
  // Input and upstream behaviour → HTTP status

  /** A null or blank CEP is 400 "CEP não pode ser vazio", and nothing after the lookup runs. */
  lemma BlankCepIs400(s: Settings, u: Upstreams, cep: Option<string>, limite: Option<int>)
    requires IsNullOrBlank(cep)
    ensures Status(s, u, cep, limite) == 400 && Message(s, u, cep, limite) == "CEP não pode ser vazio"
    ensures Hoteis(s, u, cep, limite).steps == [GuessrHotelService.ConsultarCep(cep)]
  {
  }

  /** A CEP without eight digits is 400 with the raw input as message. */
  lemma MalformedCepIs400(s: Settings, u: Upstreams, cep: string, limite: Option<int>)
    requires !IsBlank(cep) && |DigitsOf(cep)| != 8
    ensures Status(s, u, Some(cep), limite) == 400 && Message(s, u, Some(cep), limite) == cep
  {
  }

  /** ViaCEP's NotFound is 404; its erro=true payload and its base-class 404 are 503. */
  lemma ViaCepFailures(s: Settings, u: Upstreams, cep: Option<string>, limite: Option<int>, p: CepApiResponse)
    requires Normalize(cep).Ok?
    ensures u.viaCep == Threw(HttpNotFound) ==>
              Status(s, u, cep, limite) == 404 && Message(s, u, cep, limite) == CepNotFoundMessage(Normalize(cep).value)
    ensures u.viaCep == Threw(HttpClientError(404)) || u.viaCep == Returned(Some(p.(erro := Some(true)))) ==>
              Status(s, u, cep, limite) == 503 && Message(s, u, cep, limite) == "Erro ao consultar API externa de CEP"
  {
  }

  /** After a successful lookup, a failed geocoding is 503 "Erro ao consultar serviço de geolocalização". */
  lemma StatusOfGeocodingFailure(s: Settings, u: Upstreams, cep: Option<string>, limite: Option<int>)
    requires CepFound(u, cep)
    requires GuessrGeolocalizacao.ObterCoordenadasPorCep(s.geo, cep, u.geocoding).result.Err?
    ensures Status(s, u, cep, limite) == 503
    ensures Message(s, u, cep, limite) == "Erro ao consultar serviço de geolocalização"
  {
    GuessrCepService.SucceedsExactly(s.cepApiUrl, cep, u.viaCep, s.nextId, s.now);
  }

  /** Any geocoding failure after a successful lookup is 503 "Erro ao consultar serviço de geolocalização". */
  lemma GeocodingFailureIs503(s: Settings, u: Upstreams, cep: Option<string>, limite: Option<int>)
    requires CepFound(u, cep) && !Geocoded(u)
    ensures Status(s, u, cep, limite) == 503
    ensures Message(s, u, cep, limite) == "Erro ao consultar serviço de geolocalização"
  {
    assert GuessrGeolocalizacao.ObterCoordenadasPorCep(s.geo, cep, u.geocoding).result.Err?;
    StatusOfGeocodingFailure(s, u, cep, limite);
  }

  /** The search's outcome once the lookup and the geocoding have succeeded. */
  function Search(s: Settings, u: Upstreams, limite: Option<int>): Traced<seq<GooglePlaces.HotelResponse>>
    requires Geocoded(u)
  {
    GooglePlaces.BuscarHoteisProximos(s.places, u.geocoding.body.value.results.value[0].location.value,
                                      limite, Some(5000), u.places, s.distancia)
  }

  /** After a successful lookup and geocoding the reply is decided by the search alone. */
  lemma AfterGeocoding(s: Settings, u: Upstreams, cep: Option<string>, limite: Option<int>)
    requires CepFound(u, cep) && Geocoded(u)
    ensures Search(s, u, limite).result.Err? ==> Hoteis(s, u, cep, limite).result == Err(Search(s, u, limite).result.error)
    ensures Search(s, u, limite).result == Ok([]) ==>
              Hoteis(s, u, cep, limite).result == Err(HotelNaoEncontrado("Nenhum hotel encontrado próximo ao CEP: " + cep.value))
  {
    GuessrCepService.SucceedsExactly(s.cepApiUrl, cep, u.viaCep, s.nextId, s.now);
  }

  /** After a successful lookup and geocoding, a missing Places key is 401. */
  lemma MissingPlacesKeyIs401(s: Settings, u: Upstreams, cep: Option<string>, limite: Option<int>)
    requires CepFound(u, cep) && Geocoded(u)
    requires !GooglePlaces.ApiKeyConfigured(s.places.apiKey)
    ensures Status(s, u, cep, limite) == 401
  {
    AfterGeocoding(s, u, cep, limite);
  }

  /** After a successful lookup and geocoding, a failed search decides the status through the handler. */
  lemma StatusOfSearchFailure(s: Settings, u: Upstreams, cep: Option<string>, limite: Option<int>, e: Exc)
    requires CepFound(u, cep) && Geocoded(u)
    requires Search(s, u, limite).result == Err(e)
    ensures Status(s, u, cep, limite) == GuessrExceptionHandler.Handle(e).body.codigoErro
  {
    AfterGeocoding(s, u, cep, limite);
    HandlerDecides(s, u, cep, limite, e);
  }

  /** The search's outcome for each status the Places service can send back. */
  lemma SearchByStatus(s: Settings, u: Upstreams, limite: Option<int>,
                       results: Option<seq<GooglePlaces.PlaceResult>>, status: Option<string>)
    requires Geocoded(u) && GooglePlaces.ApiKeyConfigured(s.places.apiKey)
    requires u.places == Returned(Some(GooglePlaces.PlacesResponse(results, status)))
    ensures status == Some("REQUEST_DENIED") ==> Search(s, u, limite).result.Err? && Search(s, u, limite).result.error.ApiKeyInvalida?
    ensures status == Some("OVER_QUERY_LIMIT") ==>
              Search(s, u, limite).result.Err? && Search(s, u, limite).result.error.LimiteRequisicaoExcedido?
    ensures status == Some("INVALID_REQUEST") || status.None? ==>
              Search(s, u, limite).result.Err? && Search(s, u, limite).result.error.ErroConsultaExterna?
  {
    var origem := u.geocoding.body.value.results.value[0].location.value;
    GooglePlaces.StatusTable(s.places, origem, limite, Some(5000), results, status, s.distancia);
  }

  /** REQUEST_DENIED is 401. */
  lemma RequestDeniedIs401(s: Settings, u: Upstreams, cep: Option<string>, limite: Option<int>,
                           results: Option<seq<GooglePlaces.PlaceResult>>)
    requires CepFound(u, cep) && Geocoded(u) && GooglePlaces.ApiKeyConfigured(s.places.apiKey)
    requires u.places == Returned(Some(GooglePlaces.PlacesResponse(results, Some("REQUEST_DENIED"))))
    ensures Status(s, u, cep, limite) == 401
  {
    SearchByStatus(s, u, limite, results, Some("REQUEST_DENIED"));
    var e := Search(s, u, limite).result.error;
    StatusOfSearchFailure(s, u, cep, limite, e);
    GuessrExceptionHandler.ApplicationExceptionsKeepTheirMessage(e);
  }

  /** OVER_QUERY_LIMIT is 429. */
  lemma OverQueryLimitIs429(s: Settings, u: Upstreams, cep: Option<string>, limite: Option<int>,
                            results: Option<seq<GooglePlaces.PlaceResult>>)
    requires CepFound(u, cep) && Geocoded(u) && GooglePlaces.ApiKeyConfigured(s.places.apiKey)
    requires u.places == Returned(Some(GooglePlaces.PlacesResponse(results, Some("OVER_QUERY_LIMIT"))))
    ensures Status(s, u, cep, limite) == 429
  {
    SearchByStatus(s, u, limite, results, Some("OVER_QUERY_LIMIT"));
    var e := Search(s, u, limite).result.error;
    StatusOfSearchFailure(s, u, cep, limite, e);
    GuessrExceptionHandler.ApplicationExceptionsKeepTheirMessage(e);
  }

  /** INVALID_REQUEST and a null status are 503. */
  lemma InvalidRequestIs503(s: Settings, u: Upstreams, cep: Option<string>, limite: Option<int>,
                            results: Option<seq<GooglePlaces.PlaceResult>>, status: Option<string>)
    requires CepFound(u, cep) && Geocoded(u) && GooglePlaces.ApiKeyConfigured(s.places.apiKey)
    requires status == Some("INVALID_REQUEST") || status.None?
    requires u.places == Returned(Some(GooglePlaces.PlacesResponse(results, status)))
    ensures Status(s, u, cep, limite) == 503
  {
    SearchByStatus(s, u, limite, results, status);
    var e := Search(s, u, limite).result.error;
    StatusOfSearchFailure(s, u, cep, limite, e);
    GuessrExceptionHandler.ApplicationExceptionsKeepTheirMessage(e);
  }

  /** After a successful lookup and geocoding, an empty search is 404 naming the CEP. */
  lemma StatusOfEmptySearch(s: Settings, u: Upstreams, cep: Option<string>, limite: Option<int>)
    requires CepFound(u, cep) && Geocoded(u)
    requires Search(s, u, limite).result == Ok([])
    ensures Status(s, u, cep, limite) == 404
    ensures Message(s, u, cep, limite) == "Nenhum hotel encontrado próximo ao CEP: " + cep.value
  {
    AfterGeocoding(s, u, cep, limite);
    HandlerDecides(s, u, cep, limite, HotelNaoEncontrado("Nenhum hotel encontrado próximo ao CEP: " + cep.value));
  }

  /** ZERO_RESULTS without a result list is an empty search. */
  lemma SearchZeroResults(s: Settings, u: Upstreams, limite: Option<int>)
    requires Geocoded(u) && GooglePlaces.ApiKeyConfigured(s.places.apiKey)
    requires u.places == Returned(Some(GooglePlaces.PlacesResponse(None, Some("ZERO_RESULTS"))))
    ensures Search(s, u, limite).result == Ok([])
  {
    var origem := u.geocoding.body.value.results.value[0].location.value;
    GooglePlaces.NullResponseAndNullResults(s.places, origem, limite, Some(5000), "ZERO_RESULTS", s.distancia);
  }

  /** No hotels at all is 404 naming the CEP. */
  lemma NoHotelsIs404(s: Settings, u: Upstreams, cep: Option<string>, limite: Option<int>)
    requires CepFound(u, cep) && Geocoded(u) && GooglePlaces.ApiKeyConfigured(s.places.apiKey)
    requires u.places == Returned(Some(GooglePlaces.PlacesResponse(None, Some("ZERO_RESULTS"))))
    ensures Status(s, u, cep, limite) == 404
    ensures Message(s, u, cep, limite) == "Nenhum hotel encontrado próximo ao CEP: " + cep.value
  {
    SearchZeroResults(s, u, limite);
    StatusOfEmptySearch(s, u, cep, limite);
  }

  /** 200 exactly when every stage succeeds and the search finds at least one hotel. */
  lemma SuccessExactly(s: Settings, u: Upstreams, cep: Option<string>, limite: Option<int>)
    ensures Status(s, u, cep, limite) == 200 <==>
              CepFound(u, cep) && Geocoded(u)
              && var origem := u.geocoding.body.value.results.value[0].location.value;
                 var found := GooglePlaces.BuscarHoteisProximos(s.places, origem, limite, Some(5000), u.places, s.distancia);
                 found.result.Ok? && found.result.value != []
  {
    GuessrCepService.SucceedsExactly(s.cepApiUrl, cep, u.viaCep, s.nextId, s.now);
    var r := Hoteis(s, u, cep, limite).result;
    if r.Err? {
      assert GuessrExceptionHandler.Handle(r.error).body.codigoErro != 200;
    }
  }
}
