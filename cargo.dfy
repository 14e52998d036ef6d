/**
 * get_cargo_info of the cargo assistant: the reply lines for an inquiry about
 * destinations, cargo types, prices and transit times, looked up in a
 * database that is passed in as a value (None when it could not be loaded).
 */
module DataRetriever {
  import opened Optional
  import opened Text
  import opened Seqs

  // ---------------------------------------------------------------------------
  // The database

  datatype Destination = Destination(nome: string, disponivel: bool)

  /** A base price; the amounts are shown as they are written in the database. */
  datatype BasePrice = BasePrice(porKg: string, porM3: string)

  /** A cargo type; an empty limitacoes stands for a missing or empty entry. */
  datatype CargoType = CargoType(nome: string, descricao: string, limitacoes: string)

  datatype TransitTime = TransitTime(destino: string, tipoCarga: string, tempoEstimadoDias: string)

  /**
   * The JSON database; a missing list is an empty one. A surcharge is kept as
   * the percentage text the reply shows for it.
   */
  datatype Database = Database(
    destinos: seq<Destination>,
    tiposCarga: seq<CargoType>,
    precosBase: map<string, BasePrice>,
    sobretaxas: map<string, string>,
    temposTransito: seq<TransitTime>)

  // ---------------------------------------------------------------------------
  // Keywords and fixed replies

  const PricingKeywords: seq<string> := ["preco", "custo", "quanto custa", "tarifas", "cotacao"]
  const TransitKeywords: seq<string> := ["tempo", "transito", "quanto tempo", "demora", "prazo"]
  const GeneralKeywords: seq<string> := ["servicos", "informacao", "ajuda"]

  const DatabaseUnavailable :=
    "Lamentamos, mas de momento não conseguimos aceder à nossa base de dados de serviços."
  const GeneralQuotation :=
    "Para cotações, por favor indique o destino e o tipo de carga. Os nossos preços base variam consoante o destino (ex: Lisboa 0.5€/kg, Madrid 1.2€/kg) e tipo de carga."
  const AskDestination := "Para que destino seria a cotação?"
  const AskCargoType := "Que tipo de carga pretende transportar para lhe darmos uma cotação?"
  const TransitTimesVary :=
    "Os nossos tempos de trânsito variam consoante o destino e o tipo de carga. Por exemplo, Lisboa para paletes demora 1-2 dias úteis. Pode especificar o seu pedido?"
  const GeneralServices :=
    "Oferecemos serviços de transporte de carga para vários destinos, incluindo paletes, contentores, carga refrigerada e mercadorias perigosas. Como podemos ajudar?"
  const NothingFound :=
    "Lamentamos, mas não encontrámos informação específica para o seu pedido. Poderia reformular a sua questão ou perguntar sobre destinos, tipos de carga, preços ou tempos de trânsito?"
  const EstimatePhrase := "tempo de trânsito estimado"

  // ---------------------------------------------------------------------------
  // Destinations

  /** The destination's normalised name occurs in the normalised inquiry. */
  predicate DestinationMentioned(inquiry: string, d: Destination) {
    Contains(inquiry, NormalizePy(d.nome))
  }

  /** The lines for a mentioned destination: served (with its base price, when known) or not served. */
  function DestinationLines(db: Database, d: Destination): seq<string> {
    if d.disponivel then
      ["Sim, fazemos transportes para " + d.nome + "."]
      + (if d.nome in db.precosBase then
           ["O preço base para " + d.nome + " é de " + db.precosBase[d.nome].porKg + "€/kg ou "
            + db.precosBase[d.nome].porM3 + "€/m³."]
         else [])
    else ["De momento, não temos serviço disponível para " + d.nome + "."]
  }

  /** The names of the mentioned destinations, in database order. */
  function FoundDestinations(ds: seq<Destination>, inquiry: string): seq<string> {
    if ds == [] then []
    else
      var d := ds[|ds| - 1];
      FoundDestinations(ds[..|ds| - 1], inquiry) + (if DestinationMentioned(inquiry, d) then [d.nome] else [])
  }

  /** The lines of the mentioned destinations, in database order. */
  function DestinationReplies(db: Database, ds: seq<Destination>, inquiry: string): seq<string> {
    if ds == [] then []
    else
      var d := ds[|ds| - 1];
      DestinationReplies(db, ds[..|ds| - 1], inquiry)
      + (if DestinationMentioned(inquiry, d) then DestinationLines(db, d) else [])
  }

  // ---------------------------------------------------------------------------
  // Cargo types

  /** The cargo type's normalised name, or `tipo de <name>` or `transporte de <name>`, occurs in the inquiry. */
  predicate CargoMentioned(inquiry: string, c: CargoType) {
    var name := NormalizePy(c.nome);
    Contains(inquiry, name) || Contains(inquiry, "tipo de " + name) || Contains(inquiry, "transporte de " + name)
  }

  /** The lines for a mentioned cargo type: its description, its limitations and its surcharge when it has them. */
  function CargoLines(db: Database, c: CargoType): seq<string> {
    ["Relativamente a " + c.nome + ": " + c.descricao]
    + (if c.limitacoes != "" then ["Limitações para " + c.nome + ": " + c.limitacoes] else [])
    + (if c.nome in db.sobretaxas then ["Existe uma sobretaxa de " + db.sobretaxas[c.nome] + "% para " + c.nome + "."] else [])
  }

  function FoundCargoTypes(cs: seq<CargoType>, inquiry: string): seq<string> {
    if cs == [] then []
    else
      var c := cs[|cs| - 1];
      FoundCargoTypes(cs[..|cs| - 1], inquiry) + (if CargoMentioned(inquiry, c) then [c.nome] else [])
  }

  function CargoReplies(db: Database, cs: seq<CargoType>, inquiry: string): seq<string> {
    if cs == [] then []
    else
      var c := cs[|cs| - 1];
      CargoReplies(db, cs[..|cs| - 1], inquiry) + (if CargoMentioned(inquiry, c) then CargoLines(db, c) else [])
  }

  // ---------------------------------------------------------------------------
  // Pricing

  /** The pricing guidance, given only when a price is asked for and nothing was found yet. */
  function PricingReply(inquiry: string, results: seq<string>, foundDestinations: seq<string>,
                        foundCargoTypes: seq<string>): seq<string> {
    if MentionsAny(inquiry, PricingKeywords) && results == [] then
      if foundDestinations == [] && foundCargoTypes == [] then [GeneralQuotation]
      else if foundDestinations == [] then [AskDestination]
      else if foundCargoTypes == [] then [AskCargoType]
      else []
    else []
  }

  // ---------------------------------------------------------------------------
  // Transit times

  function TransitLine(e: TransitTime): string {
    "O tempo de trânsito estimado para " + e.tipoCarga + " para " + e.destino + " é de " + e.tempoEstimadoDias + "."
  }

  /** Both the entry's destination and its cargo type occur in the inquiry. */
  predicate BothMentioned(inquiry: string, e: TransitTime) {
    Contains(inquiry, NormalizePy(e.destino)) && Contains(inquiry, NormalizePy(e.tipoCarga))
  }

  /** The normalised form of each name. */
  function NormalizedNames(names: seq<string>): (r: seq<string>)
    ensures |r| == |names| && forall i :: 0 <= i < |names| ==> r[i] == NormalizePy(names[i])
  {
    seq(|names|, i requires 0 <= i < |names| => NormalizePy(names[i]))
  }

  /** The entry is for a found destination or a found cargo type. */
  predicate RelatedToFound(e: TransitTime, foundDestinations: seq<string>, foundCargoTypes: seq<string>) {
    (foundDestinations != [] && NormalizePy(e.destino) in NormalizedNames(foundDestinations))
    || (foundCargoTypes != [] && NormalizePy(e.tipoCarga) in NormalizedNames(foundCargoTypes))
  }

  /** The state of the scan over the transit entries: the lines so far, whether one was found, whether it broke off. */
  datatype Scan = Scan(results: seq<string>, found: bool, stopped: bool)

  /**
   * One entry of the scan: an entry naming both the destination and the cargo
   * type adds its line and ends the scan; an entry for a found destination or
   * cargo type adds its line unless it is already there.
   */
  function TransitStep(s: Scan, e: TransitTime, inquiry: string,
                       foundDestinations: seq<string>, foundCargoTypes: seq<string>): Scan {
    if BothMentioned(inquiry, e) then Scan(s.results + [TransitLine(e)], true, true)
    else if RelatedToFound(e, foundDestinations, foundCargoTypes) then
      if TransitLine(e) !in s.results then Scan(s.results + [TransitLine(e)], true, false) else s
    else s
  }

  /** The scan over the entries, starting from the lines so far; entries after a break are not looked at. */
  function TransitScan(results: seq<string>, es: seq<TransitTime>, inquiry: string,
                       foundDestinations: seq<string>, foundCargoTypes: seq<string>): Scan {
    if es == [] then Scan(results, false, false)
    else
      var s := TransitScan(results, es[..|es| - 1], inquiry, foundDestinations, foundCargoTypes);
      if s.stopped then s else TransitStep(s, es[|es| - 1], inquiry, foundDestinations, foundCargoTypes)
  }

  /** Some line so far mentions an estimated transit time. */
  predicate MentionsEstimate(results: seq<string>) {
    exists i :: 0 <= i < |results| && Contains(results[i], EstimatePhrase)
  }

  /** The general transit-time reply, for when the scan gave none. */
  function TransitFallbackLine(foundDestinations: seq<string>, foundCargoTypes: seq<string>): string {
    if foundDestinations != [] && foundCargoTypes != [] then
      "Para obter o tempo de trânsito exato para " + Join(foundCargoTypes, ", ") + " para "
      + Join(foundDestinations, ", ") + ", por favor contacte-nos ou consulte a nossa tabela detalhada."
    else if foundDestinations != [] then
      "Os tempos de trânsito para " + Join(foundDestinations, ", ")
      + " variam. Por exemplo, para Lisboa é geralmente 1-2 dias úteis para paletes. Qual o tipo de carga?"
    else if foundCargoTypes != [] then
      "Os tempos de trânsito para " + Join(foundCargoTypes, ", ") + " variam consoante o destino. Para que destino seria?"
    else TransitTimesVary
  }

  /** The lines after the transit-time part: unchanged unless a transit time is asked for. */
  function TransitReplies(db: Database, inquiry: string, results: seq<string>,
                          foundDestinations: seq<string>, foundCargoTypes: seq<string>): seq<string> {
    if MentionsAny(inquiry, TransitKeywords) then
      var s := TransitScan(results, db.temposTransito, inquiry, foundDestinations, foundCargoTypes);
      if !s.found && !MentionsEstimate(s.results) then s.results + [TransitFallbackLine(foundDestinations, foundCargoTypes)]
      else s.results
    else results
  }

  // ---------------------------------------------------------------------------
  // The whole reply

  /** The lines of the mentioned destinations, then those of the mentioned cargo types. */
  function FoundReplies(db: Database, inquiry: string): seq<string> {
    DestinationReplies(db, db.destinos, inquiry) + CargoReplies(db, db.tiposCarga, inquiry)
  }

  /** The lines after the pricing and transit-time parts. */
  function TimedReplies(db: Database, inquiry: string): seq<string> {
    var foundDestinations := FoundDestinations(db.destinos, inquiry);
    var foundCargoTypes := FoundCargoTypes(db.tiposCarga, inquiry);
    var found := FoundReplies(db, inquiry);
    TransitReplies(db, inquiry, found + PricingReply(inquiry, found, foundDestinations, foundCargoTypes),
                   foundDestinations, foundCargoTypes)
  }

  /** The lines before duplicates are removed, for the normalised inquiry. */
  function RawReplies(db: Database, inquiry: string): seq<string> {
    var timed := TimedReplies(db, inquiry);
    var general := if MentionsAny(inquiry, GeneralKeywords) && timed == [] then [GeneralServices] else timed;
    if general == [] then [NothingFound] else general
  }

  /** get_cargo_info: the reply lines for an inquiry, without duplicates. */
  function CargoInfo(db: Option<Database>, userInquiry: string): seq<string> {
    match db
    case None => [DatabaseUnavailable]
    case Some(data) => Dedup(RawReplies(data, NormalizePy(userInquiry)))
  }

  /** Entries after the scan broke off change nothing. */
  lemma {:induction false} TransitScanStops(results: seq<string>, es: seq<TransitTime>, k: nat, inquiry: string,
                                            foundDestinations: seq<string>, foundCargoTypes: seq<string>)
    requires k <= |es|
    requires TransitScan(results, es[..k], inquiry, foundDestinations, foundCargoTypes).stopped
    ensures TransitScan(results, es, inquiry, foundDestinations, foundCargoTypes)
         == TransitScan(results, es[..k], inquiry, foundDestinations, foundCargoTypes)
  {
    if k < |es| {
      var init := es[..|es| - 1];
      assert init[..k] == es[..k];
      TransitScanStops(results, init, k, inquiry, foundDestinations, foundCargoTypes);
    } else {
      assert es[..k] == es;
    }
  }

  // ---------------------------------------------------------------------------
  // get_cargo_info

  /** The destination loop of get_cargo_info: the lines and names of the mentioned destinations. */
  method ScanDestinations(data: Database, normalizedInquiry: string)
    returns (results: seq<string>, foundDestinations: seq<string>)
    ensures results == DestinationReplies(data, data.destinos, normalizedInquiry)
    ensures foundDestinations == FoundDestinations(data.destinos, normalizedInquiry)
  {
    results := [];
    foundDestinations := [];
    for i := 0 to |data.destinos|
      invariant foundDestinations == FoundDestinations(data.destinos[..i], normalizedInquiry)
      invariant results == DestinationReplies(data, data.destinos[..i], normalizedInquiry)
    {
      var destData := data.destinos[i];
      assert data.destinos[..i + 1][..i] == data.destinos[..i];
      if Contains(normalizedInquiry, NormalizePy(destData.nome)) {
        foundDestinations := foundDestinations + [destData.nome];
        if destData.disponivel {
          var served := "Sim, fazemos transportes para " + destData.nome + ".";
          if destData.nome in data.precosBase {
            var preco := data.precosBase[destData.nome];
            var price := "O preço base para " + destData.nome + " é de " + preco.porKg + "€/kg ou " + preco.porM3 + "€/m³.";
            AppendAssoc(results, [served], [price]);
            results := results + [served];
            results := results + [price];
          } else {
            results := results + [served];
          }
        } else {
          results := results + ["De momento, não temos serviço disponível para " + destData.nome + "."];
        }
      }
    }
    assert data.destinos[..|data.destinos|] == data.destinos;
  }

  /** The cargo-type loop of get_cargo_info: appends the lines of the mentioned cargo types. */
  method ScanCargoTypes(data: Database, normalizedInquiry: string, start: seq<string>)
    returns (results: seq<string>, foundCargoTypes: seq<string>)
    ensures results == start + CargoReplies(data, data.tiposCarga, normalizedInquiry)
    ensures foundCargoTypes == FoundCargoTypes(data.tiposCarga, normalizedInquiry)
  {
    results := start;
    foundCargoTypes := [];
    for i := 0 to |data.tiposCarga|
      invariant foundCargoTypes == FoundCargoTypes(data.tiposCarga[..i], normalizedInquiry)
      invariant results == start + CargoReplies(data, data.tiposCarga[..i], normalizedInquiry)
    {
      var cargoData := data.tiposCarga[i];
      assert data.tiposCarga[..i + 1][..i] == data.tiposCarga[..i];
      var normCargoName := NormalizePy(cargoData.nome);
      if Contains(normalizedInquiry, normCargoName) || Contains(normalizedInquiry, "tipo de " + normCargoName)
         || Contains(normalizedInquiry, "transporte de " + normCargoName) {
        foundCargoTypes := foundCargoTypes + [cargoData.nome];
        ghost var before := results;
        results := results + ["Relativamente a " + cargoData.nome + ": " + cargoData.descricao];
        if cargoData.limitacoes != "" {
          results := results + ["Limitações para " + cargoData.nome + ": " + cargoData.limitacoes];
        }
        if cargoData.nome in data.sobretaxas {
          results := results + ["Existe uma sobretaxa de " + data.sobretaxas[cargoData.nome] + "% para " + cargoData.nome + "."];
        }
        CargoLinesAppended(before, results, data, cargoData);
        AppendAssoc(start, CargoReplies(data, data.tiposCarga[..i], normalizedInquiry), CargoLines(data, cargoData));
      }
    }
    assert data.tiposCarga[..|data.tiposCarga|] == data.tiposCarga;
  }

  /** The scan over the transit entries, up to the first entry naming both destination and cargo type. */
  method ScanTransitTimes(entries: seq<TransitTime>, normalizedInquiry: string, start: seq<string>,
                          foundDestinations: seq<string>, foundCargoTypes: seq<string>)
    returns (results: seq<string>, specificTransitFound: bool)
    ensures var s := TransitScan(start, entries, normalizedInquiry, foundDestinations, foundCargoTypes);
      results == s.results && specificTransitFound == s.found
  {
    results := start;
    specificTransitFound := false;
    for j := 0 to |entries|
      invariant TransitScan(start, entries[..j], normalizedInquiry, foundDestinations, foundCargoTypes)
             == Scan(results, specificTransitFound, false)
    {
      var ttEntry := entries[j];
      assert entries[..j + 1][..j] == entries[..j];
      if Contains(normalizedInquiry, NormalizePy(ttEntry.destino)) && Contains(normalizedInquiry, NormalizePy(ttEntry.tipoCarga)) {
        results := results + [TransitLine(ttEntry)];
        specificTransitFound := true;
        TransitScanStops(start, entries, j + 1, normalizedInquiry, foundDestinations, foundCargoTypes);
        return;
      } else if (foundDestinations != [] && NormalizePy(ttEntry.destino) in NormalizedNames(foundDestinations))
             || (foundCargoTypes != [] && NormalizePy(ttEntry.tipoCarga) in NormalizedNames(foundCargoTypes)) {
        if TransitLine(ttEntry) !in results {
          results := results + [TransitLine(ttEntry)];
          specificTransitFound := true;
        }
      }
    }
    assert entries[..|entries|] == entries;
  }

  /**
   * The transit-time part of get_cargo_info: when a transit time is asked
   * for, the scan over the entries, and the general transit-time line when
   * it found nothing and no line mentions an estimated transit time.
   */
  method TransitTimeReplies(data: Database, normalizedInquiry: string, start: seq<string>,
                            foundDestinations: seq<string>, foundCargoTypes: seq<string>)
    returns (results: seq<string>)
    ensures results == TransitReplies(data, normalizedInquiry, start, foundDestinations, foundCargoTypes)
  {
    results := start;
    if MentionsAny(normalizedInquiry, TransitKeywords) {
      var specificTransitFound;
      results, specificTransitFound :=
        ScanTransitTimes(data.temposTransito, normalizedInquiry, results, foundDestinations, foundCargoTypes);
      if !specificTransitFound && !MentionsEstimate(results) {
        results := results + [TransitFallbackLine(foundDestinations, foundCargoTypes)];
      }
    }
  }

  /**
   * get_cargo_info: the destinations, then the cargo types, then the pricing,
   * transit-time and general-service parts, each appending lines to results,
   * then the fallback line and the removal of duplicates.
   */
  method GetCargoInfo(db: Option<Database>, userInquiryPt: string) returns (replies: seq<string>)
    ensures replies == CargoInfo(db, userInquiryPt)
  {
    if db.None? {
      return [DatabaseUnavailable];
    }
    var data := db.value;
    var normalizedInquiry := NormalizePy(userInquiryPt);
    var results, foundDestinations := ScanDestinations(data, normalizedInquiry);
    var foundCargoTypes;
    results, foundCargoTypes := ScanCargoTypes(data, normalizedInquiry, results);
    ghost var found := results;
    assert found == FoundReplies(data, normalizedInquiry);

    if MentionsAny(normalizedInquiry, PricingKeywords) && results == [] {
      if foundDestinations == [] && foundCargoTypes == [] {
        results := results + [GeneralQuotation];
      } else if foundDestinations == [] {
        results := results + [AskDestination];
      } else if foundCargoTypes == [] {
        results := results + [AskCargoType];
      }
    }
    assert results == found + PricingReply(normalizedInquiry, found, foundDestinations, foundCargoTypes);
    ghost var priced := results;

    results := TransitTimeReplies(data, normalizedInquiry, results, foundDestinations, foundCargoTypes);
    assert results == TimedReplies(data, normalizedInquiry);

    if MentionsAny(normalizedInquiry, GeneralKeywords) && results == [] {
      results := results + [GeneralServices];
    }
    if results == [] {
      results := results + [NothingFound];
    }
    replies := Dedup(results);
  }

  /** The appends for one cargo type add exactly its lines. */
  lemma {:induction false} CargoLinesAppended(before: seq<string>, after: seq<string>, db: Database, c: CargoType)
    requires after == before + ["Relativamente a " + c.nome + ": " + c.descricao]
      + (if c.limitacoes != "" then ["Limitações para " + c.nome + ": " + c.limitacoes] else [])
      + (if c.nome in db.sobretaxas then ["Existe uma sobretaxa de " + db.sobretaxas[c.nome] + "% para " + c.nome + "."] else [])
    ensures after == before + CargoLines(db, c)
  {
  }

  // ---------------------------------------------------------------------------
  // Properties of the reply

  /** The reply is never empty; without a database it is the one unavailability line. */
  lemma {:induction false} CargoInfoNonEmpty(db: Option<Database>, userInquiry: string)
    ensures |CargoInfo(db, userInquiry)| > 0
    ensures db.None? ==> CargoInfo(db, userInquiry) == [DatabaseUnavailable]
  {
    if db.Some? {
      var raw := RawReplies(db.value, NormalizePy(userInquiry));
      assert raw[0] in raw;
      assert raw[0] in CargoInfo(db, userInquiry);
    }
  }

  /**
   * The reply has no duplicates, holds every line that was produced, and
   * keeps each line where it first occurred.
   */
  lemma {:induction false} CargoInfoDistinct(db: Database, userInquiry: string, i: nat, j: nat)
    ensures var r := CargoInfo(Some(db), userInquiry);
      var raw := RawReplies(db, NormalizePy(userInquiry));
      && NoDuplicates(r)
      && (forall line :: line in r <==> line in raw)
      && (i < j < |r| ==> FirstIndex(raw, r[i]) < FirstIndex(raw, r[j]))
  {
    var raw := RawReplies(db, NormalizePy(userInquiry));
    if i < j < |Dedup(raw)| {
      DedupOrder(raw, i, j);
    }
  }

  /** Each mentioned destination gives at least one line, so no line means none was mentioned. */
  lemma {:induction false} DestinationRepliesEmpty(db: Database, ds: seq<Destination>, inquiry: string)
    ensures DestinationReplies(db, ds, inquiry) == [] <==> FoundDestinations(ds, inquiry) == []
  {
    if ds != [] {
      DestinationRepliesEmpty(db, ds[..|ds| - 1], inquiry);
    }
  }

  lemma {:induction false} CargoRepliesEmpty(db: Database, cs: seq<CargoType>, inquiry: string)
    ensures CargoReplies(db, cs, inquiry) == [] <==> FoundCargoTypes(cs, inquiry) == []
  {
    if cs != [] {
      CargoRepliesEmpty(db, cs[..|cs| - 1], inquiry);
    }
  }

  /**
   * Pricing guidance is only ever the general quotation line: it is given
   * only when no line exists yet, and then no destination and no cargo type
   * was found, so the two narrower questions are never asked.
   */
  lemma {:induction false} PricingOnlyGeneral(db: Database, inquiry: string)
    ensures var found := DestinationReplies(db, db.destinos, inquiry) + CargoReplies(db, db.tiposCarga, inquiry);
      PricingReply(inquiry, found, FoundDestinations(db.destinos, inquiry), FoundCargoTypes(db.tiposCarga, inquiry))
      == if MentionsAny(inquiry, PricingKeywords) && found == [] then [GeneralQuotation] else []
  {
    DestinationRepliesEmpty(db, db.destinos, inquiry);
    CargoRepliesEmpty(db, db.tiposCarga, inquiry);
  }

  /**
   * The `tipo de` and `transporte de` forms add nothing: they occur only
   * where the cargo type's name itself occurs.
   */
  lemma {:induction false} CargoMentionedByName(inquiry: string, c: CargoType)
    ensures CargoMentioned(inquiry, c) <==> Contains(inquiry, NormalizePy(c.nome))
  {
    var name := NormalizePy(c.nome);
    if Contains(inquiry, "tipo de " + name) {
      assert "tipo de " + name == "tipo de " + name + "";
      ContainsInfix(inquiry, "tipo de ", name, "");
    }
    if Contains(inquiry, "transporte de " + name) {
      assert "transporte de " + name == "transporte de " + name + "";
      ContainsInfix(inquiry, "transporte de ", name, "");
    }
  }

  /** The scan only appends, and it reports a transit time found exactly when it appended one. */
  lemma {:induction false} TransitScanGrows(start: seq<string>, es: seq<TransitTime>, inquiry: string,
                                            foundDestinations: seq<string>, foundCargoTypes: seq<string>)
    ensures var s := TransitScan(start, es, inquiry, foundDestinations, foundCargoTypes);
      start <= s.results && (s.found <==> |s.results| > |start|)
      && (s.stopped ==> s.found)
  {
    if es != [] {
      TransitScanGrows(start, es[..|es| - 1], inquiry, foundDestinations, foundCargoTypes);
    }
  }

  /** The scan breaks off only at an entry naming both the destination and the cargo type. */
  lemma {:induction false} TransitScanStopsAtMatch(start: seq<string>, es: seq<TransitTime>, inquiry: string,
                                                   foundDestinations: seq<string>, foundCargoTypes: seq<string>)
    requires forall j :: 0 <= j < |es| ==> !BothMentioned(inquiry, es[j])
    ensures !TransitScan(start, es, inquiry, foundDestinations, foundCargoTypes).stopped
  {
    if es != [] {
      TransitScanStopsAtMatch(start, es[..|es| - 1], inquiry, foundDestinations, foundCargoTypes);
    }
  }

  /**
   * The scan stops at the first entry naming both the destination and the
   * cargo type: that entry's line is the last one added, and the entries
   * after it are not looked at.
   */
  lemma {:induction false} TransitScanFirstMatch(start: seq<string>, es: seq<TransitTime>, k: nat, inquiry: string,
                                                 foundDestinations: seq<string>, foundCargoTypes: seq<string>)
    requires k < |es| && BothMentioned(inquiry, es[k])
    requires forall j :: 0 <= j < k ==> !BothMentioned(inquiry, es[j])
    ensures TransitScan(start, es, inquiry, foundDestinations, foundCargoTypes)
         == Scan(TransitScan(start, es[..k], inquiry, foundDestinations, foundCargoTypes).results + [TransitLine(es[k])],
                 true, true)
  {
    TransitScanStopsAtMatch(start, es[..k], inquiry, foundDestinations, foundCargoTypes);
    assert es[..k + 1][..k] == es[..k];
    TransitScanStops(start, es, k + 1, inquiry, foundDestinations, foundCargoTypes);
  }

  /** Every line the scan appends is the line of one of the entries. */
  lemma {:induction false} TransitScanLines(start: seq<string>, es: seq<TransitTime>, inquiry: string,
                                            foundDestinations: seq<string>, foundCargoTypes: seq<string>)
    ensures var s := TransitScan(start, es, inquiry, foundDestinations, foundCargoTypes);
      start <= s.results
      && forall k :: |start| <= k < |s.results| ==> exists e :: e in es && s.results[k] == TransitLine(e)
  {
    if es != [] {
      var init := es[..|es| - 1];
      TransitScanLines(start, init, inquiry, foundDestinations, foundCargoTypes);
      var s0 := TransitScan(start, init, inquiry, foundDestinations, foundCargoTypes);
      var s := TransitScan(start, es, inquiry, foundDestinations, foundCargoTypes);
      forall k | |start| <= k < |s.results|
        ensures exists e :: e in es && s.results[k] == TransitLine(e)
      {
        if k < |s0.results| {
          var e :| e in init && s0.results[k] == TransitLine(e);
          assert e in es;
        } else {
          assert s.results[k] == TransitLine(es[|es| - 1]);
        }
      }
    }
  }

  /**
   * The transit-time part only appends, and only when a transit time is
   * asked for. When the scan found a transit time, every line it adds is an
   * entry's line, so no general transit-time line is added; otherwise the
   * general line is added unless a line already mentions an estimate.
   */
  lemma {:induction false} TransitRepliesShape(db: Database, inquiry: string, start: seq<string>,
                                               foundDestinations: seq<string>, foundCargoTypes: seq<string>)
    ensures var r := TransitReplies(db, inquiry, start, foundDestinations, foundCargoTypes);
      var s := TransitScan(start, db.temposTransito, inquiry, foundDestinations, foundCargoTypes);
      && start <= r
      && (!MentionsAny(inquiry, TransitKeywords) ==> r == start)
      && (MentionsAny(inquiry, TransitKeywords) && s.found ==>
            forall k :: |start| <= k < |r| ==> exists e :: e in db.temposTransito && r[k] == TransitLine(e))
      && (MentionsAny(inquiry, TransitKeywords) && !s.found ==>
            r == start + (if MentionsEstimate(start) then [] else [TransitFallbackLine(foundDestinations, foundCargoTypes)]))
  {
    TransitScanGrows(start, db.temposTransito, inquiry, foundDestinations, foundCargoTypes);
    TransitScanLines(start, db.temposTransito, inquiry, foundDestinations, foundCargoTypes);
    var s := TransitScan(start, db.temposTransito, inquiry, foundDestinations, foundCargoTypes);
    if MentionsAny(inquiry, TransitKeywords) && !s.found {
      assert s.results == start;
    }
  }

  /** Every line of a mentioned destination is among the destination lines. */
  lemma {:induction false} DestinationRepliesHold(db: Database, ds: seq<Destination>, inquiry: string, d: Destination)
    requires d in ds && DestinationMentioned(inquiry, d)
    ensures forall line :: line in DestinationLines(db, d) ==> line in DestinationReplies(db, ds, inquiry)
  {
    var init := ds[..|ds| - 1];
    if d != ds[|ds| - 1] {
      assert ds == init + [ds[|ds| - 1]];
      assert d in init;
      DestinationRepliesHold(db, init, inquiry, d);
    }
  }

  /**
   * Nothing is replied before the general-services part exactly when no
   * destination or cargo type is found and neither a price nor a transit
   * time is asked for; the lines of what was found stay at the head.
   */
  lemma {:induction false} TimedRepliesShape(db: Database, inquiry: string)
    ensures FoundReplies(db, inquiry) <= TimedReplies(db, inquiry)
    ensures TimedReplies(db, inquiry) == [] <==>
      FoundDestinations(db.destinos, inquiry) == [] && FoundCargoTypes(db.tiposCarga, inquiry) == []
      && !MentionsAny(inquiry, PricingKeywords) && !MentionsAny(inquiry, TransitKeywords)
  {
    var fD := FoundDestinations(db.destinos, inquiry);
    var fC := FoundCargoTypes(db.tiposCarga, inquiry);
    var found := FoundReplies(db, inquiry);
    var priced := found + PricingReply(inquiry, found, fD, fC);
    var timed := TimedReplies(db, inquiry);
    DestinationRepliesEmpty(db, db.destinos, inquiry);
    CargoRepliesEmpty(db, db.tiposCarga, inquiry);
    assert found == [] <==> fD == [] && fC == [];
    TransitRepliesShape(db, inquiry, priced, fD, fC);
    TransitScanGrows(priced, db.temposTransito, inquiry, fD, fC);
    assert found <= priced && priced <= timed;
    if found == [] && MentionsAny(inquiry, PricingKeywords) {
      assert priced == [GeneralQuotation];
    }
    if priced == [] && MentionsAny(inquiry, TransitKeywords) {
      assert !MentionsEstimate(priced);
      assert timed != [];
    }
  }

  /**
   * The general-services line is the whole reply when nothing else was
   * replied and services are asked about; the nothing-found line when
   * nothing else was replied and they are not; otherwise neither is added.
   */
  lemma {:induction false} RawRepliesShape(db: Database, inquiry: string)
    ensures TimedReplies(db, inquiry) == [] && MentionsAny(inquiry, GeneralKeywords) ==>
      RawReplies(db, inquiry) == [GeneralServices]
    ensures TimedReplies(db, inquiry) == [] && !MentionsAny(inquiry, GeneralKeywords) ==>
      RawReplies(db, inquiry) == [NothingFound]
    ensures TimedReplies(db, inquiry) != [] ==> RawReplies(db, inquiry) == TimedReplies(db, inquiry)
    ensures FoundReplies(db, inquiry) <= RawReplies(db, inquiry)
  {
    TimedRepliesShape(db, inquiry);
  }

  /**
   * Each destination the inquiry names is answered: served with its base
   * price when one is known, or not served.
   */
  lemma {:induction false} DestinationLinesShown(db: Database, userInquiry: string, d: Destination)
    requires d in db.destinos && DestinationMentioned(NormalizePy(userInquiry), d)
    ensures forall line :: line in DestinationLines(db, d) ==> line in CargoInfo(Some(db), userInquiry)
  {
    var inquiry := NormalizePy(userInquiry);
    DestinationRepliesHold(db, db.destinos, inquiry, d);
    RawRepliesShape(db, inquiry);
    var found := FoundReplies(db, inquiry);
    forall line | line in DestinationLines(db, d)
      ensures line in CargoInfo(Some(db), userInquiry)
    {
      var k :| 0 <= k < |DestinationReplies(db, db.destinos, inquiry)| && DestinationReplies(db, db.destinos, inquiry)[k] == line;
      assert found[k] == line;
      assert RawReplies(db, inquiry)[k] == line;
    }
  }
}
