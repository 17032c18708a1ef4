/**
 * com.hotel.guessr.service.GeolocalizacaoService: one call to the Google
 * Geocoding API for "<cep without hyphens>,Brazil"; the first result's
 * location is the answer, and every failure leaves the method as one
 * ErroConsultaExternaException.
 */
module GuessrGeolocalizacao {
  import opened Wrappers
  import opened Domain

  /** The two injected settings: google.places.api.key (possibly unset) and google.geocoding.api.url. */
  datatype GeoConfig = GeoConfig(apiKey: Option<string>, geocodingApiUrl: string)

  /** One element of `results`: None when its geometry or its location is null. */
  datatype GeocodingResult = GeocodingResult(location: Option<Coordinates>)

  /** GeocodingResponse. `results` may be null. */
  datatype GeocodingResponse = GeocodingResponse(results: Option<seq<GeocodingResult>>)

  const NoCoordinatesMessage := "Não foi possível obter coordenadas para o CEP informado"
  const GeolocationFailed := "Erro ao consultar serviço de geolocalização"

  /** cep.replace("-", "") */
  function RemoveHyphens(s: string): (r: string)
    ensures |r| <= |s|
    ensures forall i :: 0 <= i < |r| ==> r[i] != '-'
  {
    if s == [] then []
    else (if s[0] == '-' then [] else [s[0]]) + RemoveHyphens(s[1..])
  }

  /** The address parameter: "%s,Brazil" of the hyphen-free CEP. */
  function Address(cep: string): (address: string)
    ensures |address| >= 7 && address[|address| - 7..] == ",Brazil"
    ensures forall i :: 0 <= i < |address| - 7 ==> address[i] != '-'
  {
    RemoveHyphens(cep) + ",Brazil"
  }

  /** What `catch (Exception e)` turns any exception from the try block into. */
  function Wrap(e: Exc): (w: Exc)
    ensures w.ErroConsultaExterna? && w.message == GeolocationFailed && w.cause == Some(e)
  {
    ErroConsultaExterna(GeolocationFailed, Some(e))
  }

  /**
   * obterCoordenadasPorCep, given what the one Geocoding call did. A null
   * CEP throws NullPointerException before the call, inside the try block.
   */
  function ObterCoordenadasPorCep(config: GeoConfig, cep: Option<string>, upstream: Call<GeocodingResponse>)
    : (t: Traced<Coordinates>)
    ensures t.request.Some? <==> cep.Some?
    ensures t.result.Err? ==>
              t.result.error.ErroConsultaExterna? && t.result.error.message == GeolocationFailed
              && t.result.error.cause.Some?
  {
    match cep
    case None => Traced(None, Err(Wrap(NullPointer)))
    case Some(c) =>
      Traced(Some(GeocodeGet(config.geocodingApiUrl, Address(c), config.apiKey)),
             match upstream
             case Threw(e) => Err(Wrap(e))
             case Returned(response) =>
               if response.None? || response.value.results.None? || response.value.results.value == [] then
                 Err(Wrap(ErroConsultaExterna(NoCoordinatesMessage, None)))
               else
                 match response.value.results.value[0].location
                 case None => Err(Wrap(NullPointer))
                 case Some(location) => Ok(location))
  }

  // ---------------------------------------------------------------------------
  // RemoveHyphens: an independent characterisation

  lemma {:induction false} RemoveHyphensConcat(a: string, b: string)
    ensures RemoveHyphens(a + b) == RemoveHyphens(a) + RemoveHyphens(b)
  {
    if a == [] {
      assert a + b == b;
    } else {
      assert (a + b)[0] == a[0];
      assert (a + b)[1..] == a[1..] + b;
      RemoveHyphensConcat(a[1..], b);
    }
  }

  /** A string without hyphens is left unchanged. */
  lemma {:induction false} RemoveHyphensNoHyphen(s: string)
    requires forall i :: 0 <= i < |s| ==> s[i] != '-'
    ensures RemoveHyphens(s) == s
  {
    if s != [] {
      RemoveHyphensNoHyphen(s[1..]);
    }
  }

  /** Every character other than '-' keeps its number of occurrences. */
  lemma {:induction false} RemoveHyphensCounts(s: string, c: char)
    ensures multiset(RemoveHyphens(s))[c] == if c == '-' then 0 else multiset(s)[c]
  {
    if s != [] {
      RemoveHyphensCounts(s[1..], c);
      assert s == [s[0]] + s[1..];
      assert multiset(s) == multiset([s[0]]) + multiset(s[1..]);
    }
  }

  /** "01310-100" and "01310100" are sent as the same address. */
  lemma AddressIgnoresHyphen(head: string, tail: string)
    requires forall i :: 0 <= i < |head| ==> head[i] != '-'
    requires forall i :: 0 <= i < |tail| ==> tail[i] != '-'
    ensures Address(head + "-" + tail) == Address(head + tail) == head + tail + ",Brazil"
  {
    RemoveHyphensNoHyphen(head);
    RemoveHyphensNoHyphen(tail);
    assert RemoveHyphens("-") == [] by {
      assert "-"[1..] == [];
    }
    RemoveHyphensConcat(head, "-");
    assert RemoveHyphens(head + "-") == head;
    RemoveHyphensConcat(head + "-", tail);
    assert RemoveHyphens(head + "-" + tail) == head + tail;
    RemoveHyphensConcat(head, tail);
    assert RemoveHyphens(head + tail) == head + tail;
  }

  // ---------------------------------------------------------------------------
  // Properties of obterCoordenadasPorCep

  /** A non-null CEP makes exactly one call, for its hyphen-free form with ",Brazil" and the configured key. */
  lemma OneRequestForTheAddress(config: GeoConfig, cep: string, upstream: Call<GeocodingResponse>)
    ensures ObterCoordenadasPorCep(config, Some(cep), upstream).request ==
              Some(GeocodeGet(config.geocodingApiUrl, RemoveHyphens(cep) + ",Brazil", config.apiKey))
  {
  }

  /** The first result's location is the answer; the results after it are never looked at. */
  lemma FirstResultWins(config: GeoConfig, cep: string, first: Coordinates, rest: seq<GeocodingResult>)
    ensures ObterCoordenadasPorCep(config, Some(cep),
                                   Returned(Some(GeocodingResponse(Some([GeocodingResult(Some(first))] + rest))))).result
            == Ok(first)
  {
  }

  /** The answer is some result's location, and it is the first one. */
  lemma SuccessIsFirstLocation(config: GeoConfig, cep: Option<string>, upstream: Call<GeocodingResponse>)
    requires ObterCoordenadasPorCep(config, cep, upstream).result.Ok?
    ensures upstream.Returned? && upstream.body.Some? && upstream.body.value.results.Some?
    ensures var results := upstream.body.value.results.value;
            |results| > 0 && results[0].location == Some(ObterCoordenadasPorCep(config, cep, upstream).result.value)
  {
  }

  /** A null response, null results or an empty list: the inner "no coordinates" exception, wrapped. */
  lemma NoResultsIsWrapped(config: GeoConfig, cep: string, body: Option<GeocodingResponse>)
    requires body.None? || body.value.results.None? || body.value.results.value == []
    ensures ObterCoordenadasPorCep(config, Some(cep), Returned(body)).result ==
              Err(ErroConsultaExterna(GeolocationFailed, Some(ErroConsultaExterna(NoCoordinatesMessage, None))))
  {
  }

  /** Whatever the call throws becomes the cause of one ErroConsultaExterna, with no special case. */
  lemma ThrownIsWrapped(config: GeoConfig, cep: string, e: Exc)
    ensures ObterCoordenadasPorCep(config, Some(cep), Threw(e)).result == Err(ErroConsultaExterna(GeolocationFailed, Some(e)))
  {
  }

  /** A null CEP fails without any call, its cause a NullPointerException. */
  lemma NullCepFailsWithoutCall(config: GeoConfig, upstream: Call<GeocodingResponse>)
    ensures ObterCoordenadasPorCep(config, None, upstream) == Traced(None, Err(Wrap(NullPointer)))
  {
  }
}
