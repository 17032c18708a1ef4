/**
 * com.hotel.transilvania.service.GooglePlacesService.buscarHoteisProximos:
 * the API-key guard, one Nearby Search call, the status check, the
 * order-preserving truncation to `limite` and the per-place mapping, and the
 * catch clauses that sort every failure into ApiKeyInvalida,
 * LimiteRequisicaoExcedido or ErroConsultaExterna.
 */
module GooglePlaces {
  import opened Wrappers
  import opened Domain

  /** The injected settings google.places.api.key (possibly unset) and google.places.api.url. */
  datatype PlacesConfig = PlacesConfig(apiKey: Option<string>, apiUrl: string)

  /**
   * GooglePlacesResponse.PlaceResult. `location` is None when the geometry,
   * its location or either coordinate is null: each makes the distance
   * computation throw NullPointerException.
   */
  datatype PlaceResult = PlaceResult(
    name: Option<string>, vicinity: Option<string>, location: Option<Coordinates>,
    rating: Option<real>, userRatingsTotal: Option<int>)

  /** GooglePlacesResponse: `results` and `status` may be null. */
  datatype PlacesResponse = PlacesResponse(results: Option<seq<PlaceResult>>, status: Option<string>)

  /** The two arguments of "Avaliação: %.1f (%d avaliações)", after their null defaults. */
  datatype Descricao = Avaliacao(rating: real, total: int)

  /** HotelResponse as converterParaHotelResponse fills it. */
  datatype HotelResponse = HotelResponse(
    nome: Option<string>, endereco: Option<string>, distanciaKm: real,
    estrelas: Option<int>, descricao: Descricao)

  const Placeholder := "YOUR_API_KEY_HERE"
  const KeyMissingMessage := "Google Places API Key não configurada. Configure a variável GOOGLE_PLACES_API_KEY"
  const KeyRejectedMessage := "API Key do Google Places inválida ou sem permissões"
  const QuotaMessage := "Limite de requisições da API do Google Places excedido. Tente novamente mais tarde"
  const RateLimitMessage := "Limite de requisições excedido"
  const InvalidRequestMessage := "Parâmetros inválidos para busca de hotéis"
  const UnknownStatusPrefix := "Erro ao consultar hotéis: "
  const EmptyResponseMessage := "Resposta vazia do Google Places"
  const SearchFailed := "Erro ao buscar hotéis próximos"
  const ServerFailed := "Serviço do Google Places temporariamente indisponível"
  const ConnectionFailed := "Não foi possível conectar ao serviço de busca de hotéis"
  const PlaceType := "lodging"
  const DefaultRadius := 5000
  const DefaultLimit := 5

  /** The condition validarApiKey lets through. */
  predicate ApiKeyConfigured(apiKey: Option<string>): (ok: bool)
    ensures ok ==> apiKey.Some? && apiKey.value != "" && apiKey.value != Placeholder
  {
    !IsNullOrBlank(apiKey) && apiKey.value != Placeholder
  }

  /** validarStatusResposta: what it throws, if anything; a null status makes the switch throw. */
  function ValidarStatusResposta(status: Option<string>): (thrown: Option<Exc>)
    ensures thrown.None? <==> status == Some("OK") || status == Some("ZERO_RESULTS")
  {
    match status
    case None => Some(NullPointer)
    case Some(s) =>
      if s == "OK" || s == "ZERO_RESULTS" then None
      else if s == "REQUEST_DENIED" then Some(ApiKeyInvalida(KeyRejectedMessage, None))
      else if s == "OVER_QUERY_LIMIT" then Some(LimiteRequisicaoExcedido(QuotaMessage, None))
      else if s == "INVALID_REQUEST" then Some(IllegalArgument(InvalidRequestMessage))
      else Some(ErroConsultaExterna(UnknownStatusPrefix + s, None))
  }

  /**
   * The catch clauses, in order, applied to what the try block threw. The
   * client-error clause first runs tratarErroCliente, whose own throws leave
   * the method directly.
   */
  function CatchPlacesFailure(e: Exc): (r: Exc)
    ensures r.ApiKeyInvalida? || r.LimiteRequisicaoExcedido? || r.ErroConsultaExterna?
  {
    if IsHttpClientError(e) then
      var code := ClientStatusCode(e);
      if code == 403 || code == 401 then ApiKeyInvalida(KeyRejectedMessage, Some(e))
      else if code == 429 then LimiteRequisicaoExcedido(RateLimitMessage, Some(e))
      else ErroConsultaExterna(SearchFailed, Some(e))
    else if e.HttpServerError? then ErroConsultaExterna(ServerFailed, Some(e))
    else if e.ResourceAccess? then ErroConsultaExterna(ConnectionFailed, Some(e))
    else if e.ApiKeyInvalida? || e.LimiteRequisicaoExcedido? then e
    else ErroConsultaExterna(SearchFailed, Some(e))
  }

  /** Math.round(x), on the exact value: the nearest integer, halves rounded up. */
  function Round(x: real): (n: int)
    ensures x - 1.0 / 2.0 < n as real <= x + 1.0 / 2.0
  {
    (x + 1.0 / 2.0).Floor
  }

  /** Math.round(d * 100.0) / 100.0 */
  function RoundHundredths(d: real): (r: real)
    ensures d - 1.0 / 200.0 < r <= d + 1.0 / 200.0
    ensures (r * 100.0).Floor as real == r * 100.0
  {
    Round(d * 100.0) as real / 100.0
  }

  /** converterRatingParaEstrelas */
  function Estrelas(rating: Option<real>): (stars: Option<int>)
    ensures stars.None? <==> rating.None?
    ensures stars.Some? ==> rating.value - 1.0 / 2.0 < stars.value as real <= rating.value + 1.0 / 2.0
  {
    match rating
    case None => None
    case Some(r) => Some(Round(r))
  }

  /**
   * converterParaHotelResponse. `distancia` is calcularDistancia, the
   * haversine distance in kilometres, taken as given.
   */
  function ConverterParaHotelResponse(place: PlaceResult, origem: Coordinates,
                                      distancia: (Coordinates, Coordinates) -> real): (r: Result<HotelResponse, Exc>)
    ensures r.Err? <==> place.location.None?
    ensures r.Err? ==> r.error == NullPointer
    ensures r.Ok? ==> r.value.nome == place.name && r.value.endereco == place.vicinity
  {
    match place.location
    case None => Err(NullPointer)
    case Some(destino) =>
      Ok(HotelResponse(place.name, place.vicinity, RoundHundredths(distancia(origem, destino)),
                       Estrelas(place.rating),
                       Avaliacao(place.rating.GetOr(0.0), place.userRatingsTotal.GetOr(0))))
  }

  /** `.map(converterParaHotelResponse).collect(…)`: the first place that cannot be converted stops the stream. */
  function ConverterTodos(places: seq<PlaceResult>, origem: Coordinates,
                          distancia: (Coordinates, Coordinates) -> real): (r: Result<seq<HotelResponse>, Exc>)
    ensures r.Err? <==> exists i :: 0 <= i < |places| && places[i].location.None?
    ensures r.Err? ==> r.error == NullPointer
    ensures r.Ok? ==> |r.value| == |places|
    ensures r.Ok? ==> forall i :: 0 <= i < |places| ==>
                        Ok(r.value[i]) == ConverterParaHotelResponse(places[i], origem, distancia)
  {
    if places == [] then Ok([])
    else
      match ConverterParaHotelResponse(places[0], origem, distancia)
      case Err(e) => Err(e)
      case Ok(h) =>
        match ConverterTodos(places[1..], origem, distancia)
        case Err(e) =>
          assert exists i :: 0 <= i < |places[1..]| && places[1..][i].location.None?;
          var i :| 0 <= i < |places[1..]| && places[1..][i].location.None?;
          assert places[i + 1].location.None?;
          Err(e)
        case Ok(hs) => Ok([h] + hs)
  }

  /** Stream.limit(n) for n >= 0: the first n elements, in order. */
  function Take<T>(s: seq<T>, n: nat): (r: seq<T>)
    ensures |r| == if n < |s| then n else |s|
    ensures r == s[..|r|]
  {
    if n < |s| then s[..n] else s
  }

  /** Everything inside the try block after construirUrl: what it returns or throws. */
  function RespostaDaBusca(origem: Coordinates, limite: Option<int>, upstream: Call<PlacesResponse>,
                           distancia: (Coordinates, Coordinates) -> real): (r: Result<seq<HotelResponse>, Exc>)
    ensures r.Ok? ==> upstream.Returned? && upstream.body.Some?
                      && ValidarStatusResposta(upstream.body.value.status).None?
    ensures r.Ok? && r.value != [] ==> |r.value| <= limite.GetOr(DefaultLimit)
  {
    match upstream
    case Threw(e) => Err(e)
    case Returned(None) => Err(ErroConsultaExterna(EmptyResponseMessage, None))
    case Returned(Some(response)) =>
      match ValidarStatusResposta(response.status)
      case Some(e) => Err(e)
      case None =>
        match response.results
        case None => Ok([])
        case Some(results) =>
          var n := limite.GetOr(DefaultLimit);
          // Stream.limit rejects a negative size with the size as message
          if n < 0 then Err(IllegalArgument(DecimalText(n)))
          else ConverterTodos(Take(results, n), origem, distancia)
  }

  /** buscarHoteisProximos, given what the one Nearby Search call did. */
  function BuscarHoteisProximos(config: PlacesConfig, origem: Coordinates, limite: Option<int>, raio: Option<int>,
                                upstream: Call<PlacesResponse>, distancia: (Coordinates, Coordinates) -> real)
    : (t: Traced<seq<HotelResponse>>)
    ensures t.request.Some? <==> ApiKeyConfigured(config.apiKey)
    ensures t.result.Err? ==>
              t.result.error.ApiKeyInvalida? || t.result.error.LimiteRequisicaoExcedido?
              || t.result.error.ErroConsultaExterna?
  {
    if !ApiKeyConfigured(config.apiKey) then
      Traced(None, Err(ApiKeyInvalida(KeyMissingMessage, None)))
    else
      Traced(Some(PlacesGet(config.apiUrl, origem, raio.GetOr(DefaultRadius), PlaceType, config.apiKey.value)),
             match RespostaDaBusca(origem, limite, upstream, distancia)
             case Ok(hoteis) => Ok(hoteis)
             case Err(e) => Err(CatchPlacesFailure(e)))
  }

  // ---------------------------------------------------------------------------
  // Properties of buscarHoteisProximos

  /** A null, blank or placeholder key fails with ApiKeyInvalida before any call. */
  lemma KeyGuardBeforeCall(config: PlacesConfig, origem: Coordinates, limite: Option<int>, raio: Option<int>,
                           upstream: Call<PlacesResponse>, distancia: (Coordinates, Coordinates) -> real)
    requires config.apiKey.None? || IsBlank(config.apiKey.value) || config.apiKey.value == Placeholder
    ensures BuscarHoteisProximos(config, origem, limite, raio, upstream, distancia) ==
              Traced(None, Err(ApiKeyInvalida(KeyMissingMessage, None)))
  {
  }

  /** With a usable key exactly one request is made: lodging near the origin, the radius 5000 unless given. */
  lemma OneRequestWithDefaultRadius(config: PlacesConfig, origem: Coordinates, limite: Option<int>, raio: Option<int>,
                                    upstream: Call<PlacesResponse>, distancia: (Coordinates, Coordinates) -> real)
    requires ApiKeyConfigured(config.apiKey)
    ensures BuscarHoteisProximos(config, origem, limite, raio, upstream, distancia).request ==
              Some(PlacesGet(config.apiUrl, origem, if raio.None? then 5000 else raio.value, "lodging", config.apiKey.value))
  {
  }

  /**
   * The status table: OK and ZERO_RESULTS proceed; REQUEST_DENIED and
   * OVER_QUERY_LIMIT leave unchanged; INVALID_REQUEST, a null status and any
   * other value end as ErroConsultaExterna "Erro ao buscar hotéis próximos".
   */
  lemma StatusTable(config: PlacesConfig, origem: Coordinates, limite: Option<int>, raio: Option<int>,
                    results: Option<seq<PlaceResult>>, status: Option<string>,
                    distancia: (Coordinates, Coordinates) -> real)
    requires ApiKeyConfigured(config.apiKey)
    ensures var r := BuscarHoteisProximos(config, origem, limite, raio,
                                          Returned(Some(PlacesResponse(results, status))), distancia).result;
            && (status == Some("REQUEST_DENIED") ==> r == Err(ApiKeyInvalida(KeyRejectedMessage, None)))
            && (status == Some("OVER_QUERY_LIMIT") ==> r == Err(LimiteRequisicaoExcedido(QuotaMessage, None)))
            && (status == Some("INVALID_REQUEST") ==>
                  r == Err(ErroConsultaExterna(SearchFailed, Some(IllegalArgument(InvalidRequestMessage)))))
            && (status.None? ==> r == Err(ErroConsultaExterna(SearchFailed, Some(NullPointer))))
            && (status.Some? && status.value !in {"OK", "ZERO_RESULTS", "REQUEST_DENIED", "OVER_QUERY_LIMIT", "INVALID_REQUEST"}
                ==> r == Err(ErroConsultaExterna(SearchFailed, Some(ErroConsultaExterna(UnknownStatusPrefix + status.value, None)))))
  {
  }

  /** A null response ends as ErroConsultaExterna; null results under an accepted status give the empty list. */
  lemma NullResponseAndNullResults(config: PlacesConfig, origem: Coordinates, limite: Option<int>, raio: Option<int>,
                                   status: string, distancia: (Coordinates, Coordinates) -> real)
    requires ApiKeyConfigured(config.apiKey)
    requires status == "OK" || status == "ZERO_RESULTS"
    ensures BuscarHoteisProximos(config, origem, limite, raio, Returned(None), distancia).result ==
              Err(ErroConsultaExterna(SearchFailed, Some(ErroConsultaExterna(EmptyResponseMessage, None))))
    ensures BuscarHoteisProximos(config, origem, limite, raio,
                                 Returned(Some(PlacesResponse(None, Some(status)))), distancia).result == Ok([])
  {
  }

  /** Client errors: 401 and 403 mean a rejected key, 429 the rate limit, any other code a search failure. */
  lemma ClientErrorTable(config: PlacesConfig, origem: Coordinates, limite: Option<int>, raio: Option<int>,
                         e: Exc, distancia: (Coordinates, Coordinates) -> real)
    requires ApiKeyConfigured(config.apiKey)
    requires IsHttpClientError(e)
    ensures var r := BuscarHoteisProximos(config, origem, limite, raio, Threw(e), distancia).result;
            && (ClientStatusCode(e) in {401, 403} <==> r == Err(ApiKeyInvalida(KeyRejectedMessage, Some(e))))
            && (ClientStatusCode(e) == 429 <==> r == Err(LimiteRequisicaoExcedido(RateLimitMessage, Some(e))))
            && (ClientStatusCode(e) !in {401, 403, 429} <==> r == Err(ErroConsultaExterna(SearchFailed, Some(e))))
  {
  }

  /** Server errors and connection failures each end as ErroConsultaExterna with their own message. */
  lemma ServerAndConnectionFailures(config: PlacesConfig, origem: Coordinates, limite: Option<int>, raio: Option<int>,
                                    code: int, distancia: (Coordinates, Coordinates) -> real)
    requires ApiKeyConfigured(config.apiKey)
    ensures BuscarHoteisProximos(config, origem, limite, raio, Threw(HttpServerError(code)), distancia).result ==
              Err(ErroConsultaExterna(ServerFailed, Some(HttpServerError(code))))
    ensures BuscarHoteisProximos(config, origem, limite, raio, Threw(ResourceAccess), distancia).result ==
              Err(ErroConsultaExterna(ConnectionFailed, Some(ResourceAccess)))
  {
  }

  /**
   * The output is the first min(limite ?? 5, n) places converted in
   * upstream order, provided each of them has a location.
   */
  lemma TruncatesInOrder(config: PlacesConfig, origem: Coordinates, limite: Option<int>, raio: Option<int>,
                         results: seq<PlaceResult>, status: string, distancia: (Coordinates, Coordinates) -> real)
    requires ApiKeyConfigured(config.apiKey)
    requires status == "OK" || status == "ZERO_RESULTS"
    requires limite.GetOr(5) >= 0
    requires forall i :: 0 <= i < |results| && i < limite.GetOr(5) ==> results[i].location.Some?
    ensures var r := BuscarHoteisProximos(config, origem, limite, raio,
                                          Returned(Some(PlacesResponse(Some(results), Some(status)))), distancia).result;
            && r.Ok?
            && |r.value| == (if limite.GetOr(5) < |results| then limite.GetOr(5) else |results|)
            && forall i :: 0 <= i < |r.value| ==> Ok(r.value[i]) == ConverterParaHotelResponse(results[i], origem, distancia)
  {
    var taken := Take(results, limite.GetOr(DefaultLimit));
    assert forall i :: 0 <= i < |taken| ==> taken[i] == results[i];
  }

  /** The places after the limit are never looked at: a malformed one there cannot make the search fail. */
  lemma PlacesBeyondLimitIgnored(config: PlacesConfig, origem: Coordinates, n: nat, raio: Option<int>,
                                 results: seq<PlaceResult>, rest: seq<PlaceResult>, status: Option<string>,
                                 distancia: (Coordinates, Coordinates) -> real)
    requires |results| == n
    ensures BuscarHoteisProximos(config, origem, Some(n), raio,
                                 Returned(Some(PlacesResponse(Some(results + rest), status))), distancia) ==
            BuscarHoteisProximos(config, origem, Some(n), raio,
                                 Returned(Some(PlacesResponse(Some(results), status))), distancia)
  {
    assert Take(results + rest, n) == results;
  }

  /** A negative limit is rejected by the stream and ends as ErroConsultaExterna. */
  lemma NegativeLimitFails(config: PlacesConfig, origem: Coordinates, limite: int, raio: Option<int>,
                           results: seq<PlaceResult>, status: string, distancia: (Coordinates, Coordinates) -> real)
    requires ApiKeyConfigured(config.apiKey)
    requires status == "OK" || status == "ZERO_RESULTS"
    requires limite < 0
    ensures var r := BuscarHoteisProximos(config, origem, Some(limite), raio,
                                          Returned(Some(PlacesResponse(Some(results), Some(status)))), distancia).result;
            r == Err(ErroConsultaExterna(SearchFailed, Some(IllegalArgument(DecimalText(limite)))))
  {
  }

  /** Each converted place: nome is name, endereco is vicinity, estrelas is null exactly when rating is, and the description arguments default to 0. */
  lemma PlaceFieldMapping(place: PlaceResult, origem: Coordinates, distancia: (Coordinates, Coordinates) -> real)
    requires place.location.Some?
    ensures var r := ConverterParaHotelResponse(place, origem, distancia);
            && r.Ok?
            && r.value.nome == place.name && r.value.endereco == place.vicinity
            && (r.value.estrelas.None? <==> place.rating.None?)
            && r.value.descricao.rating == (if place.rating.None? then 0.0 else place.rating.value)
            && r.value.descricao.total == (if place.userRatingsTotal.None? then 0 else place.userRatingsTotal.value)
            && r.value.distanciaKm - 1.0 / 200.0 <= distancia(origem, place.location.value)
                 < r.value.distanciaKm + 1.0 / 200.0
  {
  }

  /** A rating between 0 and 5 gives between 0 and 5 stars. */
  lemma StarsStayInScale(rating: real)
    requires 0.0 <= rating <= 5.0
    ensures 0 <= Estrelas(Some(rating)).value <= 5
  {
  }
}
