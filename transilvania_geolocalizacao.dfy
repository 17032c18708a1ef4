/**
 * com.hotel.transilvania.service.GeolocalizacaoService: no upstream call.
 * The state is guessed from the CEP's first two characters and its
 * coordinates come from a fixed table, Brasília's being the default.
 */
module TransilvaniaGeolocalizacao {
  import opened Wrappers
  import opened Domain

  /** COORDENADAS_POR_ESTADO. */
  const CoordenadasPorEstado: map<string, Coordinates> := map[
    "SP" := Coordinates(-23.5505, -46.6333),
    "RJ" := Coordinates(-22.9068, -43.1729),
    "MG" := Coordinates(-19.9167, -43.9345),
    "BA" := Coordinates(-12.9714, -38.5014),
    "PR" := Coordinates(-25.4284, -49.2733)
  ]

  /** The getOrDefault fallback, Brasília. */
  const Fallback := Coordinates(-15.7801, -47.9292)

  const DefaultUf := "DF"

  /** String.startsWith */
  predicate StartsWith(s: string, prefix: string) {
    |prefix| <= |s| && s[..|prefix|] == prefix
  }

  /** extrairUfDoCep: the if-else chain over two-character prefixes. */
  function ExtrairUf(cep: string): (uf: string)
    ensures uf in CoordenadasPorEstado || uf == DefaultUf
  {
    if StartsWith(cep, "01") || StartsWith(cep, "02") || StartsWith(cep, "03") then "SP"
    else if StartsWith(cep, "20") || StartsWith(cep, "21") then "RJ"
    else if StartsWith(cep, "30") || StartsWith(cep, "31") then "MG"
    else if StartsWith(cep, "40") || StartsWith(cep, "41") then "BA"
    else if StartsWith(cep, "80") || StartsWith(cep, "81") then "PR"
    else DefaultUf
  }

  /**
   * obterCoordenadasPorCep. The CEP arrives as the caller received it; a null
   * one makes startsWith throw NullPointerException, which nothing catches.
   */
  function ObterCoordenadasPorCep(cep: Option<string>): (r: Result<Coordinates, Exc>)
    ensures r.Err? <==> cep.None?
    ensures r.Err? ==> r.error == NullPointer
    ensures r.Ok? ==> r.value in CoordenadasPorEstado.Values || r.value == Fallback
  {
    match cep
    case None => Err(NullPointer)
    case Some(c) =>
      var uf := ExtrairUf(c);
      Ok(if uf in CoordenadasPorEstado then CoordenadasPorEstado[uf] else Fallback)
  }

  // ---------------------------------------------------------------------------
  // An independent statement of the prefix rule, as a table

  /** Which two-character prefix means which state. */
  const UfPorPrefixo: map<string, string> := map[
    "01" := "SP", "02" := "SP", "03" := "SP",
    "20" := "RJ", "21" := "RJ",
    "30" := "MG", "31" := "MG",
    "40" := "BA", "41" := "BA",
    "80" := "PR", "81" := "PR"
  ]

  /** A two-character prefix test only looks at the first two characters. */
  lemma StartsWithTwo(cep: string, q: string)
    requires |q| == 2
    ensures StartsWith(cep, q) <==> |cep| >= 2 && cep[..2] == q
  {
  }

  /** extrairUfDoCep looks up the first two characters in the prefix table, "DF" otherwise. */
  lemma ExtrairUfIsPrefixLookup(cep: string)
    ensures ExtrairUf(cep) ==
              if |cep| >= 2 && cep[..2] in UfPorPrefixo then UfPorPrefixo[cep[..2]] else DefaultUf
  {
    StartsWithTwo(cep, "01"); StartsWithTwo(cep, "02"); StartsWithTwo(cep, "03");
    StartsWithTwo(cep, "20"); StartsWithTwo(cep, "21");
    StartsWithTwo(cep, "30"); StartsWithTwo(cep, "31");
    StartsWithTwo(cep, "40"); StartsWithTwo(cep, "41");
    StartsWithTwo(cep, "80"); StartsWithTwo(cep, "81");
  }

  /** Only the first two characters matter. */
  lemma OnlyFirstTwoCharactersMatter(a: string, b: string)
    requires |a| >= 2 && |b| >= 2 && a[..2] == b[..2]
    ensures ExtrairUf(a) == ExtrairUf(b)
  {
    ExtrairUfIsPrefixLookup(a);
    ExtrairUfIsPrefixLookup(b);
  }

  /** The coordinate table covers exactly the five states the prefix rule can name, and not the default. */
  lemma TableCoversPrefixStates()
    ensures CoordenadasPorEstado.Keys == UfPorPrefixo.Values == {"SP", "RJ", "MG", "BA", "PR"}
    ensures DefaultUf !in CoordenadasPorEstado
  {
    assert UfPorPrefixo["01"] == "SP" && UfPorPrefixo["20"] == "RJ" && UfPorPrefixo["30"] == "MG";
    assert UfPorPrefixo["40"] == "BA" && UfPorPrefixo["80"] == "PR";
  }

  /** Every non-null CEP gets coordinates: those of its state, or Brasília's when the prefix is unknown. */
  lemma CoordinatesByPrefix(cep: string)
    ensures ObterCoordenadasPorCep(Some(cep)) ==
              Ok(if |cep| >= 2 && cep[..2] in UfPorPrefixo then CoordenadasPorEstado[UfPorPrefixo[cep[..2]]]
                 else Fallback)
  {
    ExtrairUfIsPrefixLookup(cep);
    TableCoversPrefixStates();
  }

  /** The examples: São Paulo, the default, and a raw CEP whose leading blank hides its prefix. */
  lemma CoordinateExamples()
    ensures ObterCoordenadasPorCep(Some("01310100")) == Ok(Coordinates(-23.5505, -46.6333))
    ensures ObterCoordenadasPorCep(Some("70040010")) == Ok(Fallback)
    ensures ObterCoordenadasPorCep(Some(" 01310100")) == Ok(Fallback)
  {
    assert "01310100"[..2] == "01";
    assert "70040010"[..2] == "70";
    assert " 01310100"[..2] == " 0";
  }
}
