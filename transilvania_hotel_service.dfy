/**
 * com.hotel.transilvania.service.HotelService.buscarHoteisProximosPorCep:
 * the CEP lookup, then the coordinates of the same CEP, then the
 * repository's nearest-hotels query for the looked-up state, then one
 * response per hotel. The collaborators, the native SQL query included, are
 * parameters.
 */
module TransilvaniaHotelService {
  import opened Wrappers
  import opened Domain
  import TransilvaniaCepService
  import GooglePlaces

  const DefaultLimit := 5

  /** The Hotel entity as the repository loads it. */
  datatype Hotel = Hotel(
    id: nat, nome: string, cep: string, endereco: string, cidade: string, uf: string,
    latitude: real, longitude: real, descricao: Option<string>, estrelas: Option<int>)

  /** This variant's HotelResponse. */
  datatype HotelResponse = HotelResponse(
    id: nat, nome: string, endereco: string, cidade: string, uf: string, cep: string,
    estrelas: Option<int>, descricao: Option<string>, distanciaKm: real)

  datatype HoteisProximosResponse = HoteisProximosResponse(
    cepConsultado: string, enderecoConsultado: string, cidade: string, uf: string,
    hoteis: seq<HotelResponse>, totalEncontrado: int)

  /** One call to a collaborator, with its arguments. */
  datatype Step =
    | ConsultarCep(cep: Option<string>)
    | ObterCoordenadasPorCep(cep: Option<string>)
    | FindHoteisProximosPorCoordenadas(latitude: real, longitude: real, uf: string, limite: int)

  datatype Run<T> = Run(steps: seq<Step>, result: Result<T, Exc>)

  function NotFoundMessage(uf: string): string {
    "Nenhum hotel encontrado para o estado: " + uf
  }

  /**
   * converterParaResponse. `distancia` is calcularDistancia, the haversine
   * distance in kilometres, taken as given; the rounding is GooglePlaces'.
   */
  function ConverterParaResponse(hotel: Hotel, origem: Coordinates,
                                 distancia: (Coordinates, Coordinates) -> real): (r: HotelResponse)
    ensures r.id == hotel.id && r.uf == hotel.uf && r.cep == hotel.cep
    ensures r.distanciaKm - 1.0 / 200.0 <= distancia(origem, Coordinates(hotel.latitude, hotel.longitude))
              < r.distanciaKm + 1.0 / 200.0
  {
    HotelResponse(hotel.id, hotel.nome, hotel.endereco, hotel.cidade, hotel.uf, hotel.cep,
                  hotel.estrelas, hotel.descricao,
                  GooglePlaces.RoundHundredths(distancia(origem, Coordinates(hotel.latitude, hotel.longitude))))
  }

  /** The stream map over the repository's list. */
  function ConverterTodos(hoteis: seq<Hotel>, origem: Coordinates,
                          distancia: (Coordinates, Coordinates) -> real): (rs: seq<HotelResponse>)
    ensures |rs| == |hoteis|
    ensures forall i :: 0 <= i < |hoteis| ==> rs[i] == ConverterParaResponse(hoteis[i], origem, distancia)
  {
    if hoteis == [] then []
    else [ConverterParaResponse(hoteis[0], origem, distancia)] + ConverterTodos(hoteis[1..], origem, distancia)
  }

  /** buscarHoteisProximosPorCep. Both catch clauses rethrow, so every failure leaves unchanged. */
  function BuscarHoteisProximosPorCep(
    cep: Option<string>, limite: Option<int>,
    consultarCep: Option<string> -> Result<TransilvaniaCepService.ConsultaCepResponse, Exc>,
    obterCoordenadas: Option<string> -> Result<Coordinates, Exc>,
    findHoteis: (real, real, string, int) -> Result<seq<Hotel>, Exc>,
    distancia: (Coordinates, Coordinates) -> real)
    : (run: Run<HoteisProximosResponse>)
    ensures 1 <= |run.steps| <= 3 && run.steps[0] == ConsultarCep(cep)
    ensures run.result.Ok? ==> |run.steps| == 3 && run.result.value.hoteis != []
  {
    match consultarCep(cep)
    case Err(e) => Run([ConsultarCep(cep)], Err(e))
    case Ok(endereco) =>
      match obterCoordenadas(cep)
      case Err(e) => Run([ConsultarCep(cep), ObterCoordenadasPorCep(cep)], Err(e))
      case Ok(coordenadas) =>
        var n := limite.GetOr(DefaultLimit);
        var steps := [ConsultarCep(cep), ObterCoordenadasPorCep(cep),
                      FindHoteisProximosPorCoordenadas(coordenadas.latitude, coordenadas.longitude, endereco.uf, n)];
        match findHoteis(coordenadas.latitude, coordenadas.longitude, endereco.uf, n)
        case Err(e) => Run(steps, Err(e))
        case Ok(hoteis) =>
          if hoteis == [] then Run(steps, Err(HotelNaoEncontrado(NotFoundMessage(endereco.uf))))
          else
            var respostas := ConverterTodos(hoteis, coordenadas, distancia);
            Run(steps, Ok(HoteisProximosResponse(endereco.cep, endereco.logradouro + ", " + endereco.bairro,
                                                 endereco.localidade, endereco.uf, respostas, |respostas|)))
  }

  // ---------------------------------------------------------------------------
  // Properties

  /** Each response copies the hotel's fields unchanged and rounds its distance to hundredths. */
  lemma ResponseCopiesHotel(hotel: Hotel, origem: Coordinates, distancia: (Coordinates, Coordinates) -> real)
    ensures var r := ConverterParaResponse(hotel, origem, distancia);
            && r.id == hotel.id && r.nome == hotel.nome && r.endereco == hotel.endereco
            && r.cidade == hotel.cidade && r.uf == hotel.uf && r.cep == hotel.cep
            && r.estrelas == hotel.estrelas && r.descricao == hotel.descricao
            && r.distanciaKm - 1.0 / 200.0 <= distancia(origem, Coordinates(hotel.latitude, hotel.longitude))
                 < r.distanciaKm + 1.0 / 200.0
  {
  }

  /** The repository is asked for the geocoded point, the looked-up state and `limite`, 5 when null. */
  lemma RepositoryQuery(cep: Option<string>, limite: Option<int>,
                        consultarCep: Option<string> -> Result<TransilvaniaCepService.ConsultaCepResponse, Exc>,
                        obterCoordenadas: Option<string> -> Result<Coordinates, Exc>,
                        findHoteis: (real, real, string, int) -> Result<seq<Hotel>, Exc>,
                        distancia: (Coordinates, Coordinates) -> real)
    ensures var run := BuscarHoteisProximosPorCep(cep, limite, consultarCep, obterCoordenadas, findHoteis, distancia);
            run.steps ==
              if consultarCep(cep).Err? then [ConsultarCep(cep)]
              else if obterCoordenadas(cep).Err? then [ConsultarCep(cep), ObterCoordenadasPorCep(cep)]
              else [ConsultarCep(cep), ObterCoordenadasPorCep(cep),
                    FindHoteisProximosPorCoordenadas(obterCoordenadas(cep).value.latitude,
                                                     obterCoordenadas(cep).value.longitude,
                                                     consultarCep(cep).value.uf,
                                                     if limite.None? then 5 else limite.value)]
  {
  }

  /** Collaborator exceptions leave unchanged; an empty list is HotelNaoEncontrado naming the state. */
  lemma FailureOutcomes(cep: Option<string>, limite: Option<int>,
                        consultarCep: Option<string> -> Result<TransilvaniaCepService.ConsultaCepResponse, Exc>,
                        obterCoordenadas: Option<string> -> Result<Coordinates, Exc>,
                        findHoteis: (real, real, string, int) -> Result<seq<Hotel>, Exc>,
                        distancia: (Coordinates, Coordinates) -> real)
    ensures var r := BuscarHoteisProximosPorCep(cep, limite, consultarCep, obterCoordenadas, findHoteis, distancia).result;
            && (consultarCep(cep).Err? ==> r == Err(consultarCep(cep).error))
            && (consultarCep(cep).Ok? && obterCoordenadas(cep).Err? ==> r == Err(obterCoordenadas(cep).error))
            && (consultarCep(cep).Ok? && obterCoordenadas(cep).Ok? ==>
                  var c := obterCoordenadas(cep).value;
                  var uf := consultarCep(cep).value.uf;
                  var found := findHoteis(c.latitude, c.longitude, uf, limite.GetOr(5));
                  && (found.Err? ==> r == Err(found.error))
                  && (found == Ok([]) ==> r == Err(HotelNaoEncontrado("Nenhum hotel encontrado para o estado: " + uf))))
  {
  }

  /** On success: one response per repository hotel in repository order, the total its length, the header from the lookup. */
  lemma ResponseAssembly(cep: Option<string>, limite: Option<int>,
                         consultarCep: Option<string> -> Result<TransilvaniaCepService.ConsultaCepResponse, Exc>,
                         obterCoordenadas: Option<string> -> Result<Coordinates, Exc>,
                         findHoteis: (real, real, string, int) -> Result<seq<Hotel>, Exc>,
                         distancia: (Coordinates, Coordinates) -> real)
    requires BuscarHoteisProximosPorCep(cep, limite, consultarCep, obterCoordenadas, findHoteis, distancia).result.Ok?
    ensures consultarCep(cep).Ok? && obterCoordenadas(cep).Ok?
    ensures var c := obterCoordenadas(cep).value;
            var endereco := consultarCep(cep).value;
            var found := findHoteis(c.latitude, c.longitude, endereco.uf, limite.GetOr(5));
            var r := BuscarHoteisProximosPorCep(cep, limite, consultarCep, obterCoordenadas, findHoteis, distancia).result.value;
            && found.Ok? && |r.hoteis| == |found.value| > 0
            && (forall i :: 0 <= i < |r.hoteis| ==> r.hoteis[i] == ConverterParaResponse(found.value[i], c, distancia))
            && r.totalEncontrado == |r.hoteis|
            && r.cepConsultado == endereco.cep
            && r.enderecoConsultado == endereco.logradouro + ", " + endereco.bairro
            && r.cidade == endereco.localidade && r.uf == endereco.uf
  {
  }
}
