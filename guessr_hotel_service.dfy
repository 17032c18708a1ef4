/**
 * com.hotel.guessr.service.HotelService.buscarHoteisProximosPorCep: the
 * CEP lookup, then the geocoding of the same CEP, then the places search
 * with a 5000 m radius, then the response. The three collaborators are
 * parameters, each standing for what that service returns or throws.
 */
module GuessrHotelService {
  import opened Wrappers
  import opened Domain
  import GuessrCepService
  import GooglePlaces

  const SearchRadius := 5000

  /** HoteisProximosResponse */
  datatype HoteisProximosResponse = HoteisProximosResponse(
    cepConsultado: string, enderecoConsultado: string, cidade: string, uf: string,
    hoteis: seq<GooglePlaces.HotelResponse>, totalEncontrado: int)

  /** One call to a collaborator, with its arguments. */
  datatype Step =
    | ConsultarCep(cep: Option<string>)
    | ObterCoordenadasPorCep(cep: Option<string>)
    | BuscarHoteisProximos(coordenadas: Coordinates, limite: Option<int>, raio: Option<int>)

  /** The collaborator calls made, in order, and the outcome. */
  datatype Run<T> = Run(steps: seq<Step>, result: Result<T, Exc>)

  function NotFoundMessage(cep: Option<string>): string {
    "Nenhum hotel encontrado próximo ao CEP: " + JavaText(cep)
  }

  /** String.format("%s, %s", logradouro, bairro) */
  function EnderecoConsultado(e: GuessrCepService.ConsultaCepResponse): string {
    e.logradouro + ", " + e.bairro
  }

  /** buscarHoteisProximosPorCep. Both catch clauses rethrow, so every failure leaves unchanged. */
  function BuscarHoteisProximosPorCep(
    cep: Option<string>, limite: Option<int>,
    consultarCep: Option<string> -> Result<GuessrCepService.ConsultaCepResponse, Exc>,
    obterCoordenadas: Option<string> -> Result<Coordinates, Exc>,
    buscarHoteis: (Coordinates, Option<int>, Option<int>) -> Result<seq<GooglePlaces.HotelResponse>, Exc>)
    : (run: Run<HoteisProximosResponse>)
    ensures 1 <= |run.steps| <= 3 && run.steps[0] == ConsultarCep(cep)
    ensures run.result.Ok? ==> |run.steps| == 3 && run.result.value.hoteis != []
  {
    match consultarCep(cep)
    case Err(e) => Run([ConsultarCep(cep)], Err(e))
    case Ok(endereco) =>
      match obterCoordenadas(cep)
      case Err(e) => Run([ConsultarCep(cep), ObterCoordenadasPorCep(cep)], Err(e))
      case Ok(coordenadas) =>
        var steps := [ConsultarCep(cep), ObterCoordenadasPorCep(cep),
                      BuscarHoteisProximos(coordenadas, limite, Some(SearchRadius))];
        match buscarHoteis(coordenadas, limite, Some(SearchRadius))
        case Err(e) => Run(steps, Err(e))
        case Ok(hoteis) =>
          if hoteis == [] then Run(steps, Err(HotelNaoEncontrado(NotFoundMessage(cep))))
          else
            Run(steps, Ok(HoteisProximosResponse(endereco.cep, EnderecoConsultado(endereco),
                                                 endereco.localidade, endereco.uf, hoteis, |hoteis|)))
  }

  // ---------------------------------------------------------------------------
  // Properties

  /**
   * The calls are made in the order lookup, geocoding, search, each only
   * when the previous one returned; geocoding gets the same raw CEP and the
   * search gets the coordinates, `limite` unchanged and radius 5000.
   */
  lemma CallOrder(cep: Option<string>, limite: Option<int>,
                  consultarCep: Option<string> -> Result<GuessrCepService.ConsultaCepResponse, Exc>,
                  obterCoordenadas: Option<string> -> Result<Coordinates, Exc>,
                  buscarHoteis: (Coordinates, Option<int>, Option<int>) -> Result<seq<GooglePlaces.HotelResponse>, Exc>)
    ensures var run := BuscarHoteisProximosPorCep(cep, limite, consultarCep, obterCoordenadas, buscarHoteis);
            run.steps ==
              if consultarCep(cep).Err? then [ConsultarCep(cep)]
              else if obterCoordenadas(cep).Err? then [ConsultarCep(cep), ObterCoordenadasPorCep(cep)]
              else [ConsultarCep(cep), ObterCoordenadasPorCep(cep),
                    BuscarHoteisProximos(obterCoordenadas(cep).value, limite, Some(5000))]
  {
  }

  /** A collaborator's exception is the method's exception, unchanged. */
  lemma ErrorsPropagateUnchanged(cep: Option<string>, limite: Option<int>,
                                 consultarCep: Option<string> -> Result<GuessrCepService.ConsultaCepResponse, Exc>,
                                 obterCoordenadas: Option<string> -> Result<Coordinates, Exc>,
                                 buscarHoteis: (Coordinates, Option<int>, Option<int>) -> Result<seq<GooglePlaces.HotelResponse>, Exc>)
    ensures var r := BuscarHoteisProximosPorCep(cep, limite, consultarCep, obterCoordenadas, buscarHoteis).result;
            && (consultarCep(cep).Err? ==> r == Err(consultarCep(cep).error))
            && (consultarCep(cep).Ok? && obterCoordenadas(cep).Err? ==> r == Err(obterCoordenadas(cep).error))
            && (consultarCep(cep).Ok? && obterCoordenadas(cep).Ok?
                && buscarHoteis(obterCoordenadas(cep).value, limite, Some(5000)).Err? ==>
                  r == Err(buscarHoteis(obterCoordenadas(cep).value, limite, Some(5000)).error))
  {
  }

  /** An empty search result is HotelNaoEncontrado naming the CEP. */
  lemma EmptySearchIsNotFound(cep: Option<string>, limite: Option<int>,
                              consultarCep: Option<string> -> Result<GuessrCepService.ConsultaCepResponse, Exc>,
                              obterCoordenadas: Option<string> -> Result<Coordinates, Exc>,
                              buscarHoteis: (Coordinates, Option<int>, Option<int>) -> Result<seq<GooglePlaces.HotelResponse>, Exc>)
    requires consultarCep(cep).Ok? && obterCoordenadas(cep).Ok?
    requires buscarHoteis(obterCoordenadas(cep).value, limite, Some(5000)) == Ok([])
    ensures BuscarHoteisProximosPorCep(cep, limite, consultarCep, obterCoordenadas, buscarHoteis).result ==
              Err(HotelNaoEncontrado("Nenhum hotel encontrado próximo ao CEP: " + JavaText(cep)))
  {
  }

  /**
   * It succeeds exactly when all three collaborators return and the search
   * finds something; then the hotels are the search's list as it is, the
   * total is its length and the header comes from the CEP lookup.
   */
  lemma ResponseAssembly(cep: Option<string>, limite: Option<int>,
                         consultarCep: Option<string> -> Result<GuessrCepService.ConsultaCepResponse, Exc>,
                         obterCoordenadas: Option<string> -> Result<Coordinates, Exc>,
                         buscarHoteis: (Coordinates, Option<int>, Option<int>) -> Result<seq<GooglePlaces.HotelResponse>, Exc>)
    ensures var r := BuscarHoteisProximosPorCep(cep, limite, consultarCep, obterCoordenadas, buscarHoteis).result;
            r.Ok? <==> consultarCep(cep).Ok? && obterCoordenadas(cep).Ok?
                       && buscarHoteis(obterCoordenadas(cep).value, limite, Some(5000)).Ok?
                       && buscarHoteis(obterCoordenadas(cep).value, limite, Some(5000)).value != []
    ensures var r := BuscarHoteisProximosPorCep(cep, limite, consultarCep, obterCoordenadas, buscarHoteis).result;
            r.Ok? ==>
              var endereco := consultarCep(cep).value;
              && r.value.hoteis == buscarHoteis(obterCoordenadas(cep).value, limite, Some(5000)).value
              && r.value.totalEncontrado == |r.value.hoteis|
              && r.value.cepConsultado == endereco.cep
              && r.value.enderecoConsultado == endereco.logradouro + ", " + endereco.bairro
              && r.value.cidade == endereco.localidade
              && r.value.uf == endereco.uf
  {
  }
}
