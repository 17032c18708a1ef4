# Hotel Guessr / Transilvania: the CEP → coordinates → nearby-hotels pipeline in Dafny

This project models the decision logic behind the two variants of the
hotel-search service, `com.hotel.guessr` and `com.hotel.transilvania`. Both
variants take a Brazilian postal code (CEP) and search for hotels near it.
The pipeline has five stages:

- **CepService.consultarCep** validates and normalises the CEP, looks it up on
  ViaCEP, saves one `ConsultaCep` record and answers with a response built
  from the saved record.
- **GeolocalizacaoService.obterCoordenadasPorCep** turns the CEP into
  coordinates. In guessr it makes one Google Geocoding call. In transilvania
  it uses a fixed table of five states keyed by CEP prefix, with Brasília as
  the fallback.
- **GooglePlacesService.buscarHoteisProximos** guards the API key, makes one
  Nearby Search call and sorts every failure into an error kind. It then
  truncates the places to `limite` and maps each one to a `HotelResponse`.
- **HotelService.buscarHoteisProximosPorCep** chains the stages above. In
  guessr the hotels come from Places; in transilvania they come from a
  repository query for the looked-up state.
- **ApiExceptionHandler** maps each exception to an HTTP status and an error
  body.

How the model is built:

- Every upstream HTTP call is an input value (`Domain.Call`): a possibly null
  body, or the exception thrown.
- Every Java exception is a constructor of `Domain.Exc`, with its message and
  its cause.
- A service result records which upstream request was issued
  (`Domain.Traced`).
- The orchestrators take their collaborators as function parameters and
  return the ordered list of collaborator calls they made (`Run.steps`).
- The repository behind `consultarCep` is a class holding the sequence of
  saved records. `CepService.ConsultarCep` is a method proved against the pure
  function `Consulta`. A failure leaves the sequence unchanged; a success
  appends exactly one record.
- Two end-to-end modules compose each variant's pipeline with its exception
  handler. They state the HTTP status for each kind of input and upstream
  behaviour.

Modules, one file each:

| module | part of the system |
|---|---|
| `Wrappers`, `Domain` | Option/Result; exceptions, upstream calls, coordinates, requests, Java string helpers |
| `CepNormalizer` | `validarENormalizarCep`, which both variants share |
| `CepLookup` | `buscarCepNaApiExterna`, the entity conversion and the repository, which both variants share |
| `GuessrCepService`, `TransilvaniaCepService` | each variant's `CepService` |
| `GuessrGeolocalizacao`, `TransilvaniaGeolocalizacao` | each variant's `GeolocalizacaoService` |
| `GooglePlaces` | `transilvania/service/GooglePlacesService.java` |
| `GuessrHotelService`, `TransilvaniaHotelService` | each variant's `HotelService` |
| `ApiErro`, `GuessrExceptionHandler`, `TransilvaniaExceptionHandler` | `ApiErroResponse.of` and each variant's `ApiExceptionHandler` |
| `GuessrEndToEnd`, `TransilvaniaEndToEnd` | the whole request, input to HTTP status |

Where the model follows the code rather than the documented behaviour:

- **Transilvania blank message.** The blank-input message is passed through
  the one-argument `CepInvalidoException` constructor, which formats every
  argument. The message is therefore the format sentence wrapped around
  "CEP não pode ser vazio", not the plain text.
- **Transilvania CEP response.** Its `ConsultaCepResponse` DTO declares no
  ibge, gia or siafi fields, yet `converterParaResponse` sets all three. The
  model follows `converterParaResponse`, so the response carries every
  entity field.
- **Places statuses.** `INVALID_REQUEST`, a null status and an unknown status
  do not leave `buscarHoteisProximos` as their own exceptions. The catch-all
  clause wraps each of them as `ErroConsultaExterna("Erro ao buscar hotéis
  próximos")`, with the original as its cause. The same happens to a null
  response, to a negative `limite` rejected by `Stream.limit`, and to a
  place without a location.
- **Which Places service guessr uses.** guessr's own `GooglePlacesService` is
  not part of this model. The guessr pipeline is wired to the transilvania
  `GooglePlacesService`. That service throws the transilvania exception
  classes, while the guessr `ApiExceptionHandler` handles only the guessr
  classes of the same names. `Domain.Exc` has one constructor for each such
  pair, so the guessr pipeline assumes that its own Places service throws the
  guessr classes, with the same messages. Wired in literally, the
  transilvania classes would reach the guessr catch-all handler and answer
  500. The 401, 429 and 503 outcomes of the guessr end-to-end lemmas, and
  `GuessrEndToEnd.Status` never being 500, rest on that assumption.
- **guessr response identity.** The guessr `ConsultaCepResponse` declares its
  `id` as a `UUID`, while the `ConsultaCep` entity's `id` is a `Long`, and
  `converterParaResponse` copies one into the other. The model gives the
  response the entity's identity unchanged, as the builder call intends.
- **Exception messages.** These exception classes are not part of this
  model: guessr's `CepInvalidoException`, `ErroConsultaExternaException` and
  `LimiteRequisicaoExcedidoException`, and transilvania's
  `CepNaoEncontradoException` and `HotelNaoEncontradoException`. Each is
  taken to use its constructor argument as its message. For
  `CepNaoEncontradoException(cep)` that is the guessr template "CEP %s não
  encontrado".

## Model

| member | source | states |
|---|---|---|
| CepNormalizer.DigitsOf | src/main/java/com/hotel/guessr/service/CepService.java:52 | the cleaned CEP is no longer than the input and holds only ASCII digits |
| CepNormalizer.Normalize | src/main/java/com/hotel/guessr/service/CepService.java:47-59 | an accepted CEP is exactly eight ASCII digits; a length rejection happens only for a non-null input and reports a cleaned length other than 8 |
| CepNormalizer.DigitsOfConcat | src/main/java/com/hotel/guessr/service/CepService.java:52 | stripping non-digits distributes over concatenation, so the digits keep their order |
| CepNormalizer.DigitsOfChar | src/main/java/com/hotel/guessr/service/CepService.java:52 | a single digit is kept and any other character is dropped |
| CepNormalizer.DigitsOfAllDigits | src/main/java/com/hotel/guessr/service/CepService.java:52 | a string of digits is left unchanged |
| CepNormalizer.DigitsOfIdempotent | src/main/java/com/hotel/guessr/service/CepService.java:52 | stripping twice is stripping once |
| CepNormalizer.DigitsOfCounts | src/main/java/com/hotel/guessr/service/CepService.java:52 | every digit occurs in the result as often as in the input, and no other character occurs |
| CepNormalizer.BlankHasNoDigits | src/main/java/com/hotel/guessr/service/CepService.java:48-52 | a blank string contains no digits |
| CepNormalizer.NormalizeAcceptsExactly | src/main/java/com/hotel/guessr/service/CepService.java:47-58 | a CEP is accepted if and only if it is non-null and contains exactly eight digits |
| CepNormalizer.NormalizeResult | src/main/java/com/hotel/guessr/service/CepService.java:48-58 | the accepted value is the input's digits; the Blank rejection happens exactly for null or blank input |
| CepNormalizer.NormalizeIdempotent | src/main/java/com/hotel/guessr/service/CepService.java:52-58 | normalising a normalised CEP returns it unchanged |
| CepNormalizer.NormalizeAcceptsBothForms | src/main/java/com/hotel/guessr/service/CepService.java:52-58 | every eight-digit code is accepted as it is and in its "00000-000" form, both giving the plain code |
| CepNormalizer.NormalizeRejectsWrongLength | src/main/java/com/hotel/guessr/service/CepService.java:54-56 | any input whose digits do not number eight is rejected |
| CepNormalizer.NormalizeAllDigits | src/main/java/com/hotel/guessr/service/CepService.java:52-58 | a non-empty all-digit input is accepted exactly when it has eight characters, and otherwise rejected with its own length |
| CepNormalizer.NormalizePlainExample | src/test/java/com/hotel/guessr/service/CepServiceTest.java:95-118 | "01310100" is accepted as "01310100" |
| CepNormalizer.NormalizeHyphenatedExample | src/test/java/com/hotel/guessr/service/CepServiceTest.java:120-138 | "01310" + "-" + "100" is accepted as "01310100" |
| CepNormalizer.NormalizeRejectsTooShortExample | src/test/java/com/hotel/guessr/service/CepServiceTest.java:88 | "123" is rejected, with cleaned length 3 |
| CepNormalizer.NormalizeRejectsTooLongExample | src/test/java/com/hotel/guessr/service/CepServiceTest.java:89 | "123456789" is rejected, with cleaned length 9 |
| CepNormalizer.NormalizeBlankExamples | src/test/java/com/hotel/guessr/service/CepServiceTest.java:85-87 | null, "" and "   " are rejected as blank |
| CepLookup.LookupUrl | src/main/java/com/hotel/guessr/service/CepService.java:66 | the lookup URL is the base URL, "/", the CEP and "/json/", each part at its own position |
| CepLookup.CatchLookupFailure | src/main/java/com/hotel/guessr/service/CepService.java:77-83 | whatever was thrown becomes the cause of either CepNaoEncontrado or ErroConsultaExterna |
| CepLookup.BuscarCep | src/main/java/com/hotel/guessr/service/CepService.java:64-84 | the lookup fails only with CepNaoEncontrado or ErroConsultaExterna |
| CepLookup.ToEntity | src/main/java/com/hotel/guessr/service/CepService.java:89-102 | a new entity has no id and no dataConsulta |
| CepLookup.Persisted | src/main/java/com/hotel/guessr/model/ConsultaCep.java:63-68 | a saved record has an id and a timestamp, and otherwise equals the entity that was saved |
| CepLookup.NotFoundOnlyForSubtype | src/main/java/com/hotel/guessr/service/CepService.java:77-79 | the lookup fails with CepNaoEncontrado if and only if the call threw the NotFound subtype; that error carries "CEP … não encontrado" and the cause |
| CepLookup.OtherFailuresAreExternalErrors | src/main/java/com/hotel/guessr/service/CepService.java:80-83 | every other failure is ErroConsultaExterna "Erro ao consultar API externa de CEP" |
| CepLookup.NotFoundPayloadIsWrapped | src/main/java/com/hotel/guessr/service/CepService.java:71-73 | a null body or erro=true gives ErroConsultaExterna whose cause is CepNaoEncontrado |
| CepLookup.LookupSucceedsExactly | src/main/java/com/hotel/guessr/service/CepService.java:69-75 | the lookup succeeds if and only if the body is non-null without erro=true, and then returns that body |
| CepLookup.LookupTestScenarios | src/test/java/com/hotel/guessr/service/CepServiceTest.java:155-215 | a base-class 404, a base-class 500 and erro=true each end as ErroConsultaExterna, the last with a CepNaoEncontrado cause |
| CepLookup.ConsultaCepRepository.constructor | src/main/java/com/hotel/guessr/repository/ConsultaCepRepository.java:11 | a new repository is empty and valid |
| CepLookup.ConsultaCepRepository.NextId | src/main/java/com/hotel/guessr/repository/ConsultaCepRepository.java:11 | the next identity is positive and belongs to no saved record |
| CepLookup.ConsultaCepRepository.Save | src/main/java/com/hotel/guessr/repository/ConsultaCepRepository.java:11 | save appends exactly the persisted record, with the next identity, and keeps every record identified and stamped |
| Domain.JavaText | src/main/java/com/hotel/guessr/exception/ApiExceptionHandler.java:71-74 | a present string renders as itself and null as "null" |
| Domain.IsJavaWhitespace | src/main/java/com/hotel/guessr/service/CepService.java:48 | space, tab, newline and carriage return are white space; the non-breaking spaces are not |
| Domain.IsBlank | src/main/java/com/hotel/guessr/service/CepService.java:48 | the empty string is blank, and a non-empty blank string is white space followed by a blank string |
| GuessrCepService.ValidarENormalizarCep | src/main/java/com/hotel/guessr/service/CepService.java:47-59 | succeeds exactly when the CEP normalises, giving eight digits; otherwise CepInvalido "CEP não pode ser vazio" for blank input and the raw input for the rest |
| GuessrCepService.Consulta | src/main/java/com/hotel/guessr/service/CepService.java:33-45 | fails only with CepInvalido, CepNaoEncontrado or ErroConsultaExterna; a success always made the upstream call |
| GuessrCepService.ConverterParaResponse | src/main/java/com/hotel/guessr/service/CepService.java:107-119 | the response carries the entity's id, timestamp, cep, logradouro, complemento, bairro, localidade, uf and ddd |
| GuessrCepService.CepService.constructor | src/main/java/com/hotel/guessr/service/CepService.java:33 | the service keeps the repository and URL it was given |
| GuessrCepService.CepService.ConsultarCep | src/main/java/com/hotel/guessr/service/CepService.java:33-45 | answers as Consulta does; a failure saves nothing; a success saves exactly one record, the persisted upstream payload |
| GuessrCepService.BlankFailsWithoutCall | src/main/java/com/hotel/guessr/service/CepService.java:48-50 | null or blank input fails with CepInvalido "CEP não pode ser vazio" and makes no call |
| GuessrCepService.CallOnlyWithNormalisedCep | src/main/java/com/hotel/guessr/service/CepService.java:36-37 | the upstream is called exactly when the CEP normalises, always with the normalised code; an invalid non-blank CEP fails naming the raw input |
| GuessrCepService.SucceedsExactly | src/main/java/com/hotel/guessr/service/CepService.java:33-45 | consultarCep succeeds if and only if the CEP is valid and ViaCEP returns a body without erro=true |
| GuessrCepService.NotFoundKinds | src/main/java/com/hotel/guessr/service/CepService.java:71-83 | CepNaoEncontrado exactly for the NotFound subtype; a null body or erro=true ends as ErroConsultaExterna with a CepNaoEncontrado cause |
| GuessrCepService.ResponseFromPayload | src/main/java/com/hotel/guessr/service/CepService.java:89-119 | the response carries the payload's fields and the saved record's id and timestamp |
| GuessrCepService.ResponseKeepsOnly | src/main/java/com/hotel/guessr/service/CepService.java:107-119 | two records give the same response if and only if they differ at most in ibge, gia and siafi |
| TransilvaniaCepService.InvalidMessage | src/main/java/com/hotel/transilvania/exception/CepInvalidoException.java:8-10 | the message is "CEP ", then the argument, then the fixed format hint, each at its own position |
| TransilvaniaCepService.ValidarENormalizarCep | src/main/java/com/hotel/transilvania/service/CepService.java:60-72 | succeeds exactly when the CEP normalises; every failure is CepInvalido with the format sentence around the blank text or the raw input |
| TransilvaniaCepService.Consulta | src/main/java/com/hotel/transilvania/service/CepService.java:38-55 | fails only with CepInvalido, CepNaoEncontrado or ErroConsultaExterna; a success always made the upstream call |
| TransilvaniaCepService.ConverterParaResponse | src/main/java/com/hotel/transilvania/service/CepService.java:120-135 | the response carries every entity field, ibge, gia and siafi included |
| TransilvaniaCepService.CepService.constructor | src/main/java/com/hotel/transilvania/service/CepService.java:39 | the service keeps the repository and URL it was given |
| TransilvaniaCepService.CepService.ConsultarCep | src/main/java/com/hotel/transilvania/service/CepService.java:38-55 | answers as Consulta does; a failure saves nothing; a success saves exactly one record, the persisted upstream payload |
| TransilvaniaCepService.BlankFailsWithoutCall | src/main/java/com/hotel/transilvania/exception/CepInvalidoException.java:8-10 | null or blank input fails without a call, with a message other than the plain blank text that embeds that text after "CEP " |
| TransilvaniaCepService.CallOnlyWithNormalisedCep | src/main/java/com/hotel/transilvania/service/CepService.java:43-46 | the upstream is called exactly when the CEP normalises, at `{base}/{cep}/json/` with the normalised code |
| TransilvaniaCepService.SucceedsExactly | src/main/java/com/hotel/transilvania/service/CepService.java:38-55 | consultarCep succeeds if and only if the CEP is valid and ViaCEP returns a body without erro=true |
| TransilvaniaCepService.NotFoundOnlyForSubtype | src/main/java/com/hotel/transilvania/service/CepService.java:84-96 | CepNaoEncontrado exactly for the NotFound subtype; a null body or erro=true ends as ErroConsultaExterna "Erro ao consultar API externa de CEP" with a CepNaoEncontrado cause |
| TransilvaniaCepService.ResponseFromPayload | src/main/java/com/hotel/transilvania/service/CepService.java:102-135 | the response carries every payload field, ibge, gia and siafi included, and the saved record's id and timestamp |
| TransilvaniaCepService.ResponseIsInjective | src/main/java/com/hotel/transilvania/service/CepService.java:120-135 | two records give the same response if and only if they are equal |
| GuessrGeolocalizacao.RemoveHyphens | src/main/java/com/hotel/guessr/service/GeolocalizacaoService.java:37 | the result is no longer than the input and contains no '-' |
| GuessrGeolocalizacao.Address | src/main/java/com/hotel/guessr/service/GeolocalizacaoService.java:35-38 | the address ends in ",Brazil" and holds no hyphen before it |
| GuessrGeolocalizacao.Wrap | src/main/java/com/hotel/guessr/service/GeolocalizacaoService.java:62-65 | any exception becomes the cause of ErroConsultaExterna "Erro ao consultar serviço de geolocalização" |
| GuessrGeolocalizacao.ObterCoordenadasPorCep | src/main/java/com/hotel/guessr/service/GeolocalizacaoService.java:31-66 | a call is made exactly for a non-null CEP; every failure is ErroConsultaExterna "Erro ao consultar serviço de geolocalização" with a cause |
| GuessrGeolocalizacao.RemoveHyphensConcat | src/main/java/com/hotel/guessr/service/GeolocalizacaoService.java:37 | removing hyphens distributes over concatenation |
| GuessrGeolocalizacao.RemoveHyphensNoHyphen | src/main/java/com/hotel/guessr/service/GeolocalizacaoService.java:37 | a string without hyphens is unchanged |
| GuessrGeolocalizacao.RemoveHyphensCounts | src/main/java/com/hotel/guessr/service/GeolocalizacaoService.java:37 | every character other than '-' keeps its number of occurrences |
| GuessrGeolocalizacao.AddressIgnoresHyphen | src/main/java/com/hotel/guessr/service/GeolocalizacaoService.java:35-38 | the hyphenated and plain forms give the same address, the digits followed by ",Brazil" |
| GuessrGeolocalizacao.OneRequestForTheAddress | src/main/java/com/hotel/guessr/service/GeolocalizacaoService.java:35-42 | a non-null CEP makes exactly one request, for the hyphen-free address with ",Brazil" and the configured key |
| GuessrGeolocalizacao.FirstResultWins | src/main/java/com/hotel/guessr/service/GeolocalizacaoService.java:49-55 | the first result's location is the answer, whatever follows it |
| GuessrGeolocalizacao.SuccessIsFirstLocation | src/main/java/com/hotel/guessr/service/GeolocalizacaoService.java:44-60 | a successful answer is the location of the first result of a non-empty list |
| GuessrGeolocalizacao.NoResultsIsWrapped | src/main/java/com/hotel/guessr/service/GeolocalizacaoService.java:44-47 | a null response, null results or an empty list give the "no coordinates" error, wrapped |
| GuessrGeolocalizacao.ThrownIsWrapped | src/main/java/com/hotel/guessr/service/GeolocalizacaoService.java:62-65 | every exception from the call becomes the cause of one ErroConsultaExterna |
| GuessrGeolocalizacao.NullCepFailsWithoutCall | src/main/java/com/hotel/guessr/service/GeolocalizacaoService.java:35-37 | a null CEP fails without a call, its cause a NullPointerException |
| TransilvaniaGeolocalizacao.ExtrairUf | src/main/java/com/hotel/transilvania/service/GeolocalizacaoService.java:74-88 | the state is one of the table's keys or "DF" |
| TransilvaniaGeolocalizacao.ObterCoordenadasPorCep | src/main/java/com/hotel/transilvania/service/GeolocalizacaoService.java:53-72 | fails exactly for a null CEP, with NullPointerException; otherwise answers a table entry or the fallback |
| TransilvaniaGeolocalizacao.ExtrairUfIsPrefixLookup | src/main/java/com/hotel/transilvania/service/GeolocalizacaoService.java:74-88 | the state is the prefix table's entry for the first two characters ("01"–"03" SP, "20"/"21" RJ, "30"/"31" MG, "40"/"41" BA, "80"/"81" PR), and "DF" otherwise |
| TransilvaniaGeolocalizacao.OnlyFirstTwoCharactersMatter | src/main/java/com/hotel/transilvania/service/GeolocalizacaoService.java:74-88 | two CEPs with the same first two characters get the same state |
| TransilvaniaGeolocalizacao.TableCoversPrefixStates | src/main/java/com/hotel/transilvania/service/GeolocalizacaoService.java:19-51 | the coordinate table holds exactly SP, RJ, MG, BA and PR, the states the prefix rule names, and not DF |
| TransilvaniaGeolocalizacao.CoordinatesByPrefix | src/main/java/com/hotel/transilvania/service/GeolocalizacaoService.java:59-66 | every non-null CEP gets its state's coordinates, or Brasília's when the prefix is unknown |
| TransilvaniaGeolocalizacao.CoordinateExamples | src/main/java/com/hotel/transilvania/service/GeolocalizacaoService.java:61-66 | "01310100" is São Paulo; "70040010" and " 01310100" get the fallback |
| GooglePlaces.ValidarStatusResposta | src/main/java/com/hotel/transilvania/service/GooglePlacesService.java:100-126 | nothing is thrown if and only if the status is "OK" or "ZERO_RESULTS" |
| GooglePlaces.ApiKeyConfigured | src/main/java/com/hotel/transilvania/service/GooglePlacesService.java:91-98 | a key is accepted only when present, non-empty and not the placeholder |
| GooglePlaces.CatchPlacesFailure | src/main/java/com/hotel/transilvania/service/GooglePlacesService.java:70-88 | every failure leaves as ApiKeyInvalida, LimiteRequisicaoExcedido or ErroConsultaExterna |
| GooglePlaces.Round | src/main/java/com/hotel/transilvania/service/GooglePlacesService.java:177 | the rounded value is within one half of its argument, halves rounding up |
| GooglePlaces.RoundHundredths | src/main/java/com/hotel/transilvania/service/GooglePlacesService.java:167 | the rounded distance is within 1/200 of the exact one and has at most two decimals |
| GooglePlaces.Estrelas | src/main/java/com/hotel/transilvania/service/GooglePlacesService.java:175-178 | stars are null exactly when the rating is, and otherwise within one half of it |
| GooglePlaces.ConverterParaHotelResponse | src/main/java/com/hotel/transilvania/service/GooglePlacesService.java:155-173 | conversion fails, with NullPointerException, exactly for a place without a location; nome is name and endereco is vicinity |
| GooglePlaces.ConverterTodos | src/main/java/com/hotel/transilvania/service/GooglePlacesService.java:67-68 | the mapping fails, with NullPointerException, exactly when some place has no location; otherwise one converted place per place, in order |
| GooglePlaces.Take | src/main/java/com/hotel/transilvania/service/GooglePlacesService.java:66 | limit(n) is the prefix of length min(n, size) |
| GooglePlaces.RespostaDaBusca | src/main/java/com/hotel/transilvania/service/GooglePlacesService.java:46-68 | a success needs a returned body with an accepted status, and a non-empty result has at most `limite` (default 5) hotels |
| GooglePlaces.BuscarHoteisProximos | src/main/java/com/hotel/transilvania/service/GooglePlacesService.java:39-89 | a request is made exactly when the key is configured; every failure is ApiKeyInvalida, LimiteRequisicaoExcedido or ErroConsultaExterna |
| GooglePlaces.KeyGuardBeforeCall | src/main/java/com/hotel/transilvania/service/GooglePlacesService.java:91-98 | a null, blank or placeholder key fails with the "não configurada" ApiKeyInvalida and makes no call |
| GooglePlaces.OneRequestWithDefaultRadius | src/main/java/com/hotel/transilvania/service/GooglePlacesService.java:144-153 | with a usable key exactly one lodging request is made near the origin, with radius 5000 unless given |
| GooglePlaces.StatusTable | src/main/java/com/hotel/transilvania/service/GooglePlacesService.java:82-126 | REQUEST_DENIED and OVER_QUERY_LIMIT leave unchanged; INVALID_REQUEST, null and unknown statuses end as ErroConsultaExterna "Erro ao buscar hotéis próximos" with the original cause |
| GooglePlaces.NullResponseAndNullResults | src/main/java/com/hotel/transilvania/service/GooglePlacesService.java:48-61 | a null response ends as ErroConsultaExterna; null results under an accepted status give the empty list |
| GooglePlaces.ClientErrorTable | src/main/java/com/hotel/transilvania/service/GooglePlacesService.java:128-142 | a client error gives ApiKeyInvalida exactly for 401/403, LimiteRequisicaoExcedido exactly for 429, and ErroConsultaExterna exactly for any other code |
| GooglePlaces.ServerAndConnectionFailures | src/main/java/com/hotel/transilvania/service/GooglePlacesService.java:74-80 | server errors and connection failures each end as ErroConsultaExterna with their own message |
| GooglePlaces.TruncatesInOrder | src/main/java/com/hotel/transilvania/service/GooglePlacesService.java:65-68 | the output is the first min(limite or 5, n) places, converted in upstream order |
| GooglePlaces.PlacesBeyondLimitIgnored | src/main/java/com/hotel/transilvania/service/GooglePlacesService.java:65-68 | places after the limit do not affect the outcome |
| GooglePlaces.NegativeLimitFails | src/main/java/com/hotel/transilvania/service/GooglePlacesService.java:65-88 | a negative limit ends as ErroConsultaExterna with the stream's IllegalArgumentException as cause |
| GooglePlaces.PlaceFieldMapping | src/main/java/com/hotel/transilvania/service/GooglePlacesService.java:155-173 | nome is name, endereco is vicinity, estrelas is null exactly when rating is, the description arguments default to 0, and the distance is rounded to hundredths |
| GooglePlaces.StarsStayInScale | src/main/java/com/hotel/transilvania/service/GooglePlacesService.java:175-178 | a rating between 0 and 5 gives between 0 and 5 stars |
| GuessrHotelService.BuscarHoteisProximosPorCep | src/main/java/com/hotel/guessr/service/HotelService.java:23-60 | the CEP lookup is always the first call and at most three calls are made; a success made all three and has a non-empty list |
| GuessrHotelService.CallOrder | src/main/java/com/hotel/guessr/service/HotelService.java:27-34 | calls go lookup, geocoding of the same raw CEP, search with `limite` unchanged and radius 5000, each only after the previous one returned |
| GuessrHotelService.ErrorsPropagateUnchanged | src/main/java/com/hotel/guessr/service/HotelService.java:54-59 | a collaborator's exception is the method's exception, unchanged |
| GuessrHotelService.EmptySearchIsNotFound | src/main/java/com/hotel/guessr/service/HotelService.java:36-41 | an empty search gives HotelNaoEncontrado naming the CEP |
| GuessrHotelService.ResponseAssembly | src/main/java/com/hotel/guessr/service/HotelService.java:45-52 | succeeds if and only if all three calls return and the list is non-empty; hoteis is that list, totalEncontrado its size, and the header comes from the lookup |
| TransilvaniaHotelService.ConverterTodos | src/main/java/com/hotel/transilvania/service/HotelService.java:56-58 | one response per hotel, in repository order |
| TransilvaniaHotelService.ConverterParaResponse | src/main/java/com/hotel/transilvania/service/HotelService.java:77-96 | the response keeps the hotel's id, uf and cep, and its distance is within 1/200 of the exact one |
| TransilvaniaHotelService.BuscarHoteisProximosPorCep | src/main/java/com/hotel/transilvania/service/HotelService.java:28-75 | the CEP lookup is always the first call and at most three calls are made; a success made all three and has a non-empty list |
| TransilvaniaHotelService.ResponseCopiesHotel | src/main/java/com/hotel/transilvania/service/HotelService.java:77-96 | a response copies id, nome, endereco, cidade, uf, cep, estrelas and descricao, and its distance is within 1/200 of the exact one |
| TransilvaniaHotelService.RepositoryQuery | src/main/java/com/hotel/transilvania/service/HotelService.java:33-44 | the repository is queried with the geocoded point, the looked-up state and `limite`, defaulting to 5, after the two other calls succeed |
| TransilvaniaHotelService.FailureOutcomes | src/main/java/com/hotel/transilvania/service/HotelService.java:46-74 | collaborator exceptions leave unchanged; an empty list is HotelNaoEncontrado "Nenhum hotel encontrado para o estado: {uf}" |
| TransilvaniaHotelService.ResponseAssembly | src/main/java/com/hotel/transilvania/service/HotelService.java:56-67 | on success: one converted response per repository hotel in order, totalEncontrado the list size, header from the lookup |
| ApiErro.Respond | src/main/java/com/hotel/guessr/dto/ApiErroResponse.java:44-54 | the status line, the body's status name and code, and the message all agree |
| ApiErro.FieldMessages | src/main/java/com/hotel/guessr/exception/ApiExceptionHandler.java:71-74 | one text per field error, in order, a null message becoming "null" |
| ApiErro.Join | src/main/java/com/hotel/guessr/exception/ApiExceptionHandler.java:75 | no parts join to "", one part to itself, and the first part always leads |
| ApiErro.JoinAppend | src/main/java/com/hotel/guessr/exception/ApiExceptionHandler.java:75 | joining one more part appends ", " and the part |
| GuessrExceptionHandler.Handle | src/main/java/com/hotel/guessr/exception/ApiExceptionHandler.java:19-106 | every exception gets 400, 401, 404, 429, 500 or 503 |
| GuessrExceptionHandler.ApplicationExceptionsKeepTheirMessage | src/main/java/com/hotel/guessr/exception/ApiExceptionHandler.java:19-98 | the application's exceptions keep their message: CepNaoEncontrado/HotelNaoEncontrado 404, CepInvalido/IllegalArgument 400, ErroConsultaExterna 503, ApiKeyInvalida 401, LimiteRequisicaoExcedido 429 |
| GuessrExceptionHandler.ValidationErrorsJoined | src/main/java/com/hotel/guessr/exception/ApiExceptionHandler.java:67-80 | validation errors are 400 with the field messages joined by ", " in order |
| GuessrExceptionHandler.TypeMismatchIs400 | src/main/java/com/hotel/guessr/exception/ApiExceptionHandler.java:82-90 | a type mismatch is 400 naming the parameter and the offending value |
| GuessrExceptionHandler.OthersAreInternalErrors | src/main/java/com/hotel/guessr/exception/ApiExceptionHandler.java:100-106 | every other exception is 500 "Erro interno no servidor", never its own message |
| GuessrExceptionHandler.InternalErrorExactlyForUnhandled | src/main/java/com/hotel/guessr/exception/ApiExceptionHandler.java:19-106 | 500 is reached if and only if no specific handler takes the exception |
| TransilvaniaExceptionHandler.Handle | src/main/java/com/hotel/transilvania/exception/ApiExceptionHandler.java:18-63 | every exception gets 400, 404, 500 or 503 |
| TransilvaniaExceptionHandler.CepExceptionsKeepTheirMessage | src/main/java/com/hotel/transilvania/exception/ApiExceptionHandler.java:18-32 | CepNaoEncontrado is 404 and CepInvalido 400, each with its own message |
| TransilvaniaExceptionHandler.ExternalErrorMessageIsFixed | src/main/java/com/hotel/transilvania/exception/ApiExceptionHandler.java:34-40 | ErroConsultaExterna is 503 with one fixed text, whatever its message or cause |
| TransilvaniaExceptionHandler.ValidationErrorsJoined | src/main/java/com/hotel/transilvania/exception/ApiExceptionHandler.java:42-55 | validation errors are 400 with the field messages joined by ", " in order |
| TransilvaniaExceptionHandler.UnhandledAreInternalErrors | src/main/java/com/hotel/transilvania/exception/ApiExceptionHandler.java:57-63 | 500 "Erro interno no servidor" exactly for exceptions without a handler, ApiKeyInvalida, LimiteRequisicaoExcedido and HotelNaoEncontrado included |
| GuessrEndToEnd.Hoteis | src/main/java/com/hotel/guessr/service/HotelService.java:23-60 | the composed guessr pipeline never fails with a bare NullPointerException |
| GuessrEndToEnd.Status | src/main/java/com/hotel/guessr/exception/ApiExceptionHandler.java:19-106 | a guessr request's status is 200, 400, 401, 404, 429 or 503, never 500 |
| GuessrEndToEnd.HandlerDecides | src/main/java/com/hotel/guessr/exception/ApiExceptionHandler.java:19-106 | a failed request replies with the handler's status and message for its exception |
| GuessrEndToEnd.BlankCepIs400 | src/main/java/com/hotel/guessr/service/CepService.java:48-50 | a null or blank CEP is 400 "CEP não pode ser vazio", after the lookup call only |
| GuessrEndToEnd.MalformedCepIs400 | src/main/java/com/hotel/guessr/service/CepService.java:54-56 | a CEP without eight digits is 400 with the raw input as message |
| GuessrEndToEnd.ViaCepFailures | src/main/java/com/hotel/guessr/service/CepService.java:71-83 | ViaCEP's NotFound is 404 "CEP … não encontrado"; erro=true and a base-class 404 are 503 "Erro ao consultar API externa de CEP" |
| GuessrEndToEnd.StatusOfGeocodingFailure | src/main/java/com/hotel/guessr/service/GeolocalizacaoService.java:62-65 | after a found CEP, a failed geocoding is 503 "Erro ao consultar serviço de geolocalização" |
| GuessrEndToEnd.GeocodingFailureIs503 | src/main/java/com/hotel/guessr/service/GeolocalizacaoService.java:44-65 | after a found CEP, any geocoding without a first location is 503 "Erro ao consultar serviço de geolocalização" |
| GuessrEndToEnd.AfterGeocoding | src/main/java/com/hotel/guessr/service/HotelService.java:30-41 | after lookup and geocoding, a search failure is the request's failure and an empty search is HotelNaoEncontrado |
| GuessrEndToEnd.MissingPlacesKeyIs401 | src/main/java/com/hotel/transilvania/service/GooglePlacesService.java:91-98 | an unset Places key is 401 |
| GuessrEndToEnd.StatusOfSearchFailure | src/main/java/com/hotel/guessr/service/HotelService.java:54-59 | a failed search's status is the handler's status for its exception |
| GuessrEndToEnd.SearchByStatus | src/main/java/com/hotel/transilvania/service/GooglePlacesService.java:100-126 | REQUEST_DENIED gives ApiKeyInvalida, OVER_QUERY_LIMIT LimiteRequisicaoExcedido, INVALID_REQUEST and null ErroConsultaExterna |
| GuessrEndToEnd.RequestDeniedIs401 | src/main/java/com/hotel/transilvania/service/GooglePlacesService.java:104-107 | REQUEST_DENIED is 401 |
| GuessrEndToEnd.OverQueryLimitIs429 | src/main/java/com/hotel/transilvania/service/GooglePlacesService.java:109-114 | OVER_QUERY_LIMIT is 429 |
| GuessrEndToEnd.InvalidRequestIs503 | src/main/java/com/hotel/transilvania/service/GooglePlacesService.java:100-126 | INVALID_REQUEST and a null status are 503 |
| GuessrEndToEnd.StatusOfEmptySearch | src/main/java/com/hotel/guessr/service/HotelService.java:36-41 | an empty search is 404 naming the CEP |
| GuessrEndToEnd.SearchZeroResults | src/main/java/com/hotel/transilvania/service/GooglePlacesService.java:58-61 | ZERO_RESULTS without a result list is an empty search |
| GuessrEndToEnd.NoHotelsIs404 | src/main/java/com/hotel/guessr/service/HotelService.java:36-41 | ZERO_RESULTS from Places is 404 naming the CEP |
| GuessrEndToEnd.SuccessExactly | src/main/java/com/hotel/guessr/service/HotelService.java:23-60 | 200 if and only if the CEP is found, geocoded, and the search returns at least one hotel |
| TransilvaniaEndToEnd.Status | src/main/java/com/hotel/transilvania/exception/ApiExceptionHandler.java:18-63 | a transilvania request's status is 200, 400, 404, 500 or 503 |
| TransilvaniaEndToEnd.BlankCepIs400 | src/main/java/com/hotel/transilvania/service/CepService.java:61-63 | a null or blank CEP is 400 with the wrapped blank text, after the lookup call only |
| TransilvaniaEndToEnd.MalformedCepIs400 | src/main/java/com/hotel/transilvania/service/CepService.java:67-69 | a CEP without eight digits is 400 naming the raw input in the format sentence |
| TransilvaniaEndToEnd.ViaCepFailures | src/main/java/com/hotel/transilvania/service/CepService.java:84-96 | ViaCEP's NotFound is 404; erro=true is 503 with the handler's fixed text |
| TransilvaniaEndToEnd.RawCepReachesTheGeocoder | src/main/java/com/hotel/transilvania/service/HotelService.java:33-44 | a found CEP with a leading blank is searched around Brasília with the looked-up state, because the geocoder gets the raw CEP |
| TransilvaniaEndToEnd.EmptyRepositoryIs500 | src/main/java/com/hotel/transilvania/exception/ApiExceptionHandler.java:57-63 | an empty repository result is 500 "Erro interno no servidor", since HotelNaoEncontrado has no handler |

## Left out

- HTTP calls (`RestTemplate`), logging and `@Transactional` semantics. Each upstream call is an input value.
- The clock. `LocalDateTime.now()` in `@PrePersist` is a `now` parameter, and the timestamp in `ApiErroResponse.of` is not modelled.
- JPA identity generation. The repository assigns 1, 2, … in order of saving.
- The haversine distance in both variants. It is floating-point trigonometry, so it is a function parameter.
- The native SQL query of `HotelRepository.findHoteisProximosPorCoordenadas`. It runs in the database, so it is a function parameter returning the hotel list.
- Java `double` arithmetic. Coordinates, ratings and distances are exact reals, so `Math.round` is exact rounding on the real value.
- GooglePlaces.Round: does not model the clamping of `Math.round` to the `long` range, because the ratings and distances involved are far from it.
- `%f` in the Places URL. The request is kept as a structured value.
- The `%.1f` and `%d` rendering of "Avaliação: … (… avaliações)". The description keeps the two formatting arguments after their null defaults.
- `tratarErroCliente`'s cast `(HttpStatus) e.getStatusCode()`. That cast throws `ClassCastException` for a status code outside the standard enum; the model treats every client-error code as a standard one.
- Null coordinates in the geocoder or the repository hotels, and a null origin passed to the Places search. The model's coordinates are never null; only a Places result whose geometry is missing is modelled, as a `PlaceResult` without a location.
- Null address fields passed to `String.format("%s, %s", …)` in the orchestrators. The lookup payload's fields are non-null strings.
- Controllers, Swagger interfaces, `OpenApiConfig`, and DTO getters and setters.
- The guessr `GooglePlacesService`, which is not part of this model.
- GuessrEndToEnd.Status: its codes assume the guessr Places service throws the guessr exception classes; wired in literally, the transilvania classes would answer 500.
- The state change of `consultarCep` in the end-to-end modules. They use the pure `Consulta`, with the identity the repository would assign as a parameter; the repository itself is modelled only in `CepService.ConsultarCep`.
