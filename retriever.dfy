/**
 * The document retriever of the chatbot: it reads a client number and a
 * document type out of a Portuguese query, looks the client's documents up
 * in the simulated store and classifies the outcome.
 *
 * The constructor's two fields (the synonym table and the base path) are
 * never changed after construction, so they are module constants here.
 */
module DocumentRetriever {
  import opened Optional
  import opened Text
  import opened Seqs

  // ---------------------------------------------------------------------------
  // Documents and the simulated store

  datatype DocType = Fatura | GuiaTransporte

  /** The string a document carries in its `type` field. */
  function TypeKey(t: DocType): string {
    match t
    case Fatura => "fatura"
    case GuiaTransporte => "guia_transporte"
  }

  datatype Doc = Doc(path: string, name: string, docType: DocType, date: string)

  const InvoiceSynonyms: seq<string> :=
    ["fatura", "faturas", "factura", "facturas", "invoice", "invoices"]
  const GuideSynonyms: seq<string> :=
    ["guia", "guias", "crm", "guia de transporte", "guias de transporte", "transport guide", "transport guides"]

  /** The synonym table, in declaration order: invoices are tried first. */
  const DocumentTypes: seq<(DocType, seq<string>)> :=
    [(Fatura, InvoiceSynonyms), (GuiaTransporte, GuideSynonyms)]

  const DocumentsDir := "documents"
  const DocumentsBasePath := DocumentsDir + "/"

  /** A file listed for a client in the simulated store. */
  datatype StoredFile = StoredFile(file: string, name: string, docType: DocType, date: string)

  /** The document for a client's file: its path is `documents/<client>/<file>`. */
  function StoredDoc(client: string, f: StoredFile): Doc {
    Doc(DocumentsBasePath + client + "/" + f.file, f.name, f.docType, f.date)
  }

  /** The simulated listing, client by client, in stored order. */
  const SimulatedFiles: map<string, seq<StoredFile>> := map[
    "C001" := [
      StoredFile("fatura_C001_2023-01.pdf", "Fatura Janeiro 2023", Fatura, "2023-01-15"),
      StoredFile("fatura_C001_2023-02.pdf", "Fatura Fevereiro 2023", Fatura, "2023-02-15"),
      StoredFile("guia_transporte_C001_123.pdf", "Guia de Transporte #123", GuiaTransporte, "2023-02-20")
    ],
    "C002" := [
      StoredFile("fatura_C002_2023-01.pdf", "Fatura Janeiro 2023", Fatura, "2023-01-20"),
      StoredFile("guia_transporte_C002_456.pdf", "Guia de Transporte #456", GuiaTransporte, "2023-01-25")
    ],
    "C003" := [
      StoredFile("fatura_C003_2023-01.pdf", "Fatura Janeiro 2023", Fatura, "2023-01-10"),
      StoredFile("fatura_C003_2023-02.pdf", "Fatura Fevereiro 2023", Fatura, "2023-02-10"),
      StoredFile("fatura_C003_2023-03.pdf", "Fatura Março 2023", Fatura, "2023-03-10"),
      StoredFile("guia_transporte_C003_789.pdf", "Guia de Transporte #789", GuiaTransporte, "2023-03-15")
    ],
    "C004" := [
      StoredFile("fatura_C004_2023-01.pdf", "Fatura Janeiro 2023", Fatura, "2023-01-05"),
      StoredFile("guia_transporte_C004_101.pdf", "Guia de Transporte #101", GuiaTransporte, "2023-01-12"),
      StoredFile("guia_transporte_C004_102.pdf", "Guia de Transporte #102", GuiaTransporte, "2023-02-18")
    ]
  ]

  /** The documents of a client's listed files, in listed order. */
  function FiledUnder(client: string, files: seq<StoredFile>): seq<Doc> {
    seq(|files|, i requires 0 <= i < |files| => StoredDoc(client, files[i]))
  }

  // ---------------------------------------------------------------------------
  // Paths: `path.split('/')[k]`

  /** Index of the first '/' (or the length when there is none). */
  function SlashIndex(s: string): (n: nat)
    ensures n <= |s| && '/' !in s[..n] && (n < |s| ==> s[n] == '/')
  {
    if s == [] || s[0] == '/' then 0
    else
      var n := 1 + SlashIndex(s[1..]);
      assert s[..n] == [s[0]] + s[1..][..n - 1];
      n
  }

  /** The k-th '/'-separated segment of s, None where JavaScript reads undefined. */
  function Segment(s: string, k: nat): Option<string> {
    var n := SlashIndex(s);
    if k == 0 then Some(s[..n])
    else if n == |s| then None
    else Segment(s[n + 1..], k - 1)
  }

  /** The client a document is filed under: `doc.path.split('/')[1]`. */
  function ClientOf(d: Doc): string {
    match Segment(d.path, 1)
    case Some(c) => c
    case None => "undefined"
  }

  lemma {:induction false} SlashIndexOf(a: string, rest: string)
    requires '/' !in a
    ensures SlashIndex(a + "/" + rest) == |a|
  {
    if a != [] {
      assert (a + "/" + rest)[1..] == a[1..] + "/" + rest;
      SlashIndexOf(a[1..], rest);
    }
  }

  lemma {:induction false} SecondSegment(a: string, b: string, rest: string)
    requires '/' !in a && '/' !in b
    ensures Segment(a + "/" + b + "/" + rest, 1) == Some(b)
  {
    var s := a + "/" + b + "/" + rest;
    assert s == a + "/" + (b + "/" + rest);
    SlashIndexOf(a, b + "/" + rest);
    assert s[|a| + 1..] == b + "/" + rest;
    SlashIndexOf(b, rest);
    assert (b + "/" + rest)[..|b|] == b;
  }

  /** Every stored document is filed under the client whose list holds it. */
  lemma {:induction false} StoredDocClient(client: string, f: StoredFile)
    requires '/' !in client
    ensures ClientOf(StoredDoc(client, f)) == client
  {
    assert '/' !in DocumentsDir;
    assert DocumentsBasePath + client + "/" + f.file == DocumentsDir + "/" + client + "/" + f.file;
    SecondSegment(DocumentsDir, client, f.file);
  }

  // ---------------------------------------------------------------------------
  // Client numbers

  /** The strict format `^C\d{3,}$`. */
  predicate IsValidClientId(s: string) {
    |s| >= 4 && s[0] == 'C' && forall i :: 1 <= i < |s| ==> IsDigit(s[i])
  }

  /** The regular expression `c(\d{3,})` can match at position i. */
  predicate ClientAt(s: string, i: int) {
    0 <= i && i + 3 < |s| && s[i] == 'c' && IsDigit(s[i + 1]) && IsDigit(s[i + 2]) && IsDigit(s[i + 3])
  }

  /** Length of the maximal run of digits starting at j (the greedy `\d{3,}`). */
  function DigitRun(s: string, j: nat): (n: nat)
    requires j <= |s|
    ensures j + n <= |s|
    ensures forall k :: j <= k < j + n ==> IsDigit(s[k])
    ensures j + n == |s| || !IsDigit(s[j + n])
    decreases |s| - j
  {
    if j < |s| && IsDigit(s[j]) then 1 + DigitRun(s, j + 1) else 0
  }

  /** A run of m digits at j makes the maximal run at least m long. */
  lemma {:induction false} DigitRunCovers(s: string, j: nat, m: nat)
    requires j + m <= |s| && forall k :: j <= k < j + m ==> IsDigit(s[k])
    ensures DigitRun(s, j) >= m
    decreases m
  {
    if m > 0 {
      DigitRunCovers(s, j + 1, m - 1);
    }
  }

  /** Leftmost match position at or after `from`. */
  function LeftmostClient(s: string, from: nat): (r: Option<nat>)
    requires from <= |s|
    ensures r.None? ==> forall i :: from <= i < |s| ==> !ClientAt(s, i)
    ensures r.Some? ==> from <= r.value < |s| && ClientAt(s, r.value)
    ensures r.Some? ==> forall i :: from <= i < r.value ==> !ClientAt(s, i)
    decreases |s| - from
  {
    if from == |s| then None
    else if ClientAt(s, from) then Some(from)
    else LeftmostClient(s, from + 1)
  }

  /** The leftmost position where `c(\d{3,})` matches. */
  predicate FirstMatchAt(nq: string, i: int) {
    ClientAt(nq, i) && forall j :: 0 <= j < i ==> !ClientAt(nq, j)
  }

  /** The client number a match at i reads: "C" and the greedy run of digits after the `c`. */
  function NumberAt(nq: string, i: int): string
    requires ClientAt(nq, i)
  {
    "C" + nq[i + 1..i + 1 + DigitRun(nq, i + 1)]
  }

  /**
   * The first match of `c(\d{3,})` in a text, with its leading `c` made upper
   * case; None when there is none.
   */
  function FirstClientNumber(nq: string): (r: Option<string>)
    ensures r.None? <==> forall i :: 0 <= i < |nq| ==> !ClientAt(nq, i)
    ensures r.Some? ==> IsValidClientId(r.value)
    ensures r.Some? ==> exists i :: FirstMatchAt(nq, i) && r.value == NumberAt(nq, i)
  {
    match LeftmostClient(nq, 0)
    case None => None
    case Some(i) =>
      var n := DigitRun(nq, i + 1);
      DigitRunCovers(nq, i + 1, 3);
      var id := "C" + nq[i + 1..i + 1 + n];
      assert forall k :: 1 <= k < |id| ==> id[k] == nq[i + k];
      assert FirstMatchAt(nq, i) && id == NumberAt(nq, i);
      Some(id)
  }

  /** extractClientNumber: the first client number in the normalised query. */
  function ExtractClientNumber(query: string): (r: Option<string>)
    ensures r.None? <==> forall i :: 0 <= i < |Normalize(query)| ==> !ClientAt(Normalize(query), i)
    ensures r.Some? ==> IsValidClientId(r.value)
    ensures r.Some? ==> exists i :: FirstMatchAt(Normalize(query), i) && r.value == NumberAt(Normalize(query), i)
  {
    FirstClientNumber(Normalize(query))
  }

  // ---------------------------------------------------------------------------
  // Document types

  /** Some synonym, normalised, occurs in the normalised query. */
  predicate Mentions(nq: string, variations: seq<string>) {
    exists j :: 0 <= j < |variations| && Contains(nq, Normalize(variations[j]))
  }

  /** The type of the first table entry (in table order) that the query mentions. */
  function FirstMentioned(table: seq<(DocType, seq<string>)>, nq: string): (r: Option<DocType>)
    ensures r.None? <==> forall k :: 0 <= k < |table| ==> !Mentions(nq, table[k].1)
  {
    if table == [] then None
    else if Mentions(nq, table[0].1) then Some(table[0].0)
    else
      var r := FirstMentioned(table[1..], nq);
      assert forall k :: 1 <= k < |table| ==> table[k] == table[1..][k - 1];
      r
  }

  lemma {:induction false} FirstMentionedAt(table: seq<(DocType, seq<string>)>, nq: string, i: nat)
    requires i < |table| && Mentions(nq, table[i].1)
    requires forall k :: 0 <= k < i ==> !Mentions(nq, table[k].1)
    ensures FirstMentioned(table, nq) == Some(table[i].0)
  {
    if i > 0 {
      assert !Mentions(nq, table[0].1);
      FirstMentionedAt(table[1..], nq, i - 1);
    }
  }

  /** The two-entry table decides invoices first, then guides. */
  lemma {:induction false} TableOrder(nq: string)
    ensures FirstMentioned(DocumentTypes, nq) == Some(Fatura) <==> Mentions(nq, InvoiceSynonyms)
    ensures FirstMentioned(DocumentTypes, nq) == Some(GuiaTransporte) <==>
      !Mentions(nq, InvoiceSynonyms) && Mentions(nq, GuideSynonyms)
  {
    assert DocumentTypes[0] == (Fatura, InvoiceSynonyms) && DocumentTypes[1] == (GuiaTransporte, GuideSynonyms);
    if Mentions(nq, InvoiceSynonyms) {
      FirstMentionedAt(DocumentTypes, nq, 0);
    } else if Mentions(nq, GuideSynonyms) {
      FirstMentionedAt(DocumentTypes, nq, 1);
    }
  }

  /**
   * The type identifyDocumentType returns: "fatura" when an invoice synonym
   * occurs, otherwise "guia_transporte" when a guide synonym occurs.
   */
  function DocumentTypeOf(query: string): (r: Option<DocType>)
    ensures r == Some(Fatura) <==> Mentions(Normalize(query), InvoiceSynonyms)
    ensures r == Some(GuiaTransporte) <==>
      !Mentions(Normalize(query), InvoiceSynonyms) && Mentions(Normalize(query), GuideSynonyms)
    ensures r.None? <==>
      !Mentions(Normalize(query), InvoiceSynonyms) && !Mentions(Normalize(query), GuideSynonyms)
  {
    var nq := Normalize(query);
    TableOrder(nq);
    FirstMentioned(DocumentTypes, nq)
  }

  /**
   * identifyDocumentType: two nested loops over the retriever's synonym table
   * (DocumentTypes for the retriever the chatbot builds) with an early return.
   */
  method IdentifyDocumentType(documentTypes: seq<(DocType, seq<string>)>, query: string) returns (t: Option<DocType>)
    ensures t == FirstMentioned(documentTypes, Normalize(query))
  {
    var nq := Normalize(query);
    for i := 0 to |documentTypes|
      invariant forall k :: 0 <= k < i ==> !Mentions(nq, documentTypes[k].1)
    {
      var (docType, variations) := documentTypes[i];
      for j := 0 to |variations|
        invariant forall k :: 0 <= k < j ==> !Contains(nq, Normalize(variations[k]))
      {
        if Contains(nq, Normalize(variations[j])) {
          FirstMentionedAt(documentTypes, nq, i);
          return Some(docType);
        }
      }
    }
    return None;
  }

  // ---------------------------------------------------------------------------
  // Lookup

  /** getSimulatedDocuments: the client's list, or [] for an unknown client. */
  function GetSimulatedDocuments(clientNumber: string): (docs: seq<Doc>)
    ensures clientNumber !in SimulatedFiles ==> docs == []
    ensures forall d :: d in docs ==> ClientOf(d) == clientNumber
  {
    if clientNumber in SimulatedFiles then
      StoreKeys(clientNumber);
      FiledUnderClient(clientNumber, SimulatedFiles[clientNumber]);
      FiledUnder(clientNumber, SimulatedFiles[clientNumber])
    else []
  }

  /** The store's keys are well-formed client numbers. */
  lemma {:induction false} StoreKeys(k: string)
    requires k in SimulatedFiles
    ensures IsValidClientId(k) && '/' !in k
  {
    assert k == "C001" || k == "C002" || k == "C003" || k == "C004";
  }

  lemma {:induction false} FiledUnderClient(client: string, files: seq<StoredFile>)
    requires '/' !in client
    ensures forall d :: d in FiledUnder(client, files) ==> ClientOf(d) == client
  {
    forall f: StoredFile ensures ClientOf(StoredDoc(client, f)) == client {
      StoredDocClient(client, f);
    }
  }

  predicate HasType(t: DocType, d: Doc) { d.docType == t }

  /** `filter(doc => doc.type === documentType)` when a type was given. */
  function OfType(t: Option<DocType>, docs: seq<Doc>): seq<Doc> {
    match t
    case None => docs
    case Some(ty) => Filter(d => HasType(ty, d), docs)
  }

  lemma {:induction false} OfTypeConcat(t: Option<DocType>, a: seq<Doc>, b: seq<Doc>)
    ensures OfType(t, a + b) == OfType(t, a) + OfType(t, b)
  {
    if t.Some? {
      FilterConcat(d => HasType(t.value, d), a, b);
    }
  }

  /**
   * getDocumentsForClient without its discarded fetch: the client's stored
   * documents, restricted to the requested type, in stored order.
   */
  function GetDocumentsForClient(clientNumber: string, documentType: Option<DocType>): (docs: seq<Doc>)
    ensures documentType.None? ==> docs == GetSimulatedDocuments(clientNumber)
    ensures forall d :: d in docs <==>
      d in GetSimulatedDocuments(clientNumber) && (documentType.None? || d.docType == documentType.value)
    ensures SubsequenceOf(docs, GetSimulatedDocuments(clientNumber))
    ensures forall d :: d in docs ==> ClientOf(d) == clientNumber
    ensures clientNumber !in SimulatedFiles ==> docs == []
  {
    SubsequenceOfSelf(GetSimulatedDocuments(clientNumber));
    OfType(documentType, GetSimulatedDocuments(clientNumber))
  }

  datatype ErrorCode = FormatoClienteInvalido | DocumentosNaoEncontrados | ErroInterno

  /** `{success: true, documents, count}` or `{success: false, error, message}`. */
  datatype QueryResult = Found(documents: seq<Doc>, count: nat) | Failed(error: ErrorCode, message: string)

  const InvalidFormatMessage :=
    "Formato do número de cliente incorreto. Por favor, use o formato CXXX (ex: C001)."
  const NoMatchingDocumentsMessage :=
    "Não foram encontrados documentos com os critérios especificados."

  function ReadableDocType(t: DocType): string {
    if t == Fatura then "faturas" else "guias de transporte"
  }

  function NotFoundMessage(clientNumber: string, t: Option<DocType>): string {
    "Não foram encontrados documentos para o cliente " + clientNumber
    + (if t.Some? then " do tipo " + ReadableDocType(t.value) else "") + "."
  }

  /** The not-found message names the client and, when one was asked for, the type. */
  lemma {:induction false} NotFoundMessageMentions(clientNumber: string, t: Option<DocType>)
    ensures Contains(NotFoundMessage(clientNumber, t), clientNumber)
    ensures t.Some? ==> Contains(NotFoundMessage(clientNumber, t), ReadableDocType(t.value))
  {
    var head := "Não foram encontrados documentos para o cliente ";
    var tail := (if t.Some? then " do tipo " + ReadableDocType(t.value) else "") + ".";
    assert NotFoundMessage(clientNumber, t) == head + clientNumber + tail;
    ContainsPart(head, clientNumber, tail);
    if t.Some? {
      assert head + clientNumber + tail == head + clientNumber + " do tipo " + ReadableDocType(t.value) + ".";
      ContainsPart(head + clientNumber + " do tipo ", ReadableDocType(t.value), ".");
    }
  }

  /**
   * searchDocuments: reject a missing or malformed client number, report an
   * empty lookup, or return the documents with their count.
   */
  function SearchDocuments(clientNumber: Option<string>, documentType: Option<DocType>): (r: QueryResult)
    ensures r == Failed(FormatoClienteInvalido, InvalidFormatMessage) <==>
      clientNumber.None? || !IsValidClientId(clientNumber.value)
    ensures r.Failed? && r.error == DocumentosNaoEncontrados <==>
      clientNumber.Some? && IsValidClientId(clientNumber.value)
      && GetDocumentsForClient(clientNumber.value, documentType) == []
    ensures r.Failed? && r.error == DocumentosNaoEncontrados ==>
      Contains(r.message, clientNumber.value)
      && (documentType.Some? ==> Contains(r.message, ReadableDocType(documentType.value)))
    ensures r.Found? ==>
      r.documents == GetDocumentsForClient(clientNumber.value, documentType) && r.count == |r.documents| > 0
    ensures r.Failed? ==> r.error != ErroInterno
  {
    if clientNumber.None? || !IsValidClientId(clientNumber.value) then
      Failed(FormatoClienteInvalido, InvalidFormatMessage)
    else
      var documents := GetDocumentsForClient(clientNumber.value, documentType);
      if |documents| == 0 then
        NotFoundMessageMentions(clientNumber.value, documentType);
        Failed(DocumentosNaoEncontrados, NotFoundMessage(clientNumber.value, documentType))
      else
        Found(documents, |documents|)
  }

  /** The clients a query without a client number is answered from; C004 is not one. */
  const DefaultClients: seq<string> := ["C001", "C002", "C003"]

  /** The documents of ids, client after client, as the loop of processQuery pushes them. */
  function ClientsDocuments(ids: seq<string>, t: Option<DocType>): seq<Doc> {
    if ids == [] then []
    else ClientsDocuments(ids[..|ids| - 1], t) + GetDocumentsForClient(ids[|ids| - 1], t)
  }

  /** One more client appends its documents. */
  lemma {:induction false} ClientsDocumentsSnoc(ids: seq<string>, i: nat, t: Option<DocType>)
    requires i < |ids|
    ensures ClientsDocuments(ids[..i + 1], t) == ClientsDocuments(ids[..i], t) + GetDocumentsForClient(ids[i], t)
  {
    assert ids[..i + 1][..i] == ids[..i];
  }

  lemma {:induction false} ClientsDocumentsAll(ids: seq<string>, t: Option<DocType>)
    ensures ClientsDocuments(ids[..|ids|], t) == ClientsDocuments(ids, t)
  {
    assert ids[..|ids|] == ids;
  }

  /** The stored lists of ids, concatenated in the order of ids. */
  function StoredDocuments(ids: seq<string>): seq<Doc> {
    if ids == [] then []
    else StoredDocuments(ids[..|ids| - 1]) + GetSimulatedDocuments(ids[|ids| - 1])
  }

  /**
   * Collecting client after client is filtering the concatenated stored lists
   * once: the answer keeps the clients' order and each client's stored order,
   * holds only documents of the requested type, and no document filed under a
   * client outside ids.
   */
  lemma {:induction false} ClientsDocumentsOfType(ids: seq<string>, t: Option<DocType>)
    ensures ClientsDocuments(ids, t) == OfType(t, StoredDocuments(ids))
    ensures forall d :: d in ClientsDocuments(ids, t) ==> ClientOf(d) in ids
    ensures forall d :: d in ClientsDocuments(ids, t) && t.Some? ==> d.docType == t.value
  {
    if ids != [] {
      var init, last := ids[..|ids| - 1], ids[|ids| - 1];
      ClientsDocumentsOfType(init, t);
      OfTypeConcat(t, StoredDocuments(init), GetSimulatedDocuments(last));
      forall d | d in ClientsDocuments(ids, t) ensures ClientOf(d) in ids {
        if d in ClientsDocuments(init, t) {
          assert ClientOf(d) in init;
        } else {
          assert ClientOf(d) == last;
        }
      }
    }
  }

  /**
   * What processQuery answers for the client number and type it read: all
   * default clients' documents when there is no client number, otherwise
   * searchDocuments for that number.
   */
  function Answer(clientNumber: Option<string>, documentType: Option<DocType>): QueryResult {
    if clientNumber.None? then
      var all := ClientsDocuments(DefaultClients, documentType);
      if |all| == 0 then Failed(DocumentosNaoEncontrados, NoMatchingDocumentsMessage)
      else Found(all, |all|)
    else
      SearchDocuments(clientNumber, documentType)
  }

  /** What processQuery answers for a query. */
  function Resolve(query: string): QueryResult {
    Answer(ExtractClientNumber(query), DocumentTypeOf(query))
  }

  /**
   * processQuery never reports a malformed client number (an extracted number
   * is always well formed); a found answer counts its documents, holds only
   * the requested type, only the named client's documents, and without a
   * client number only documents of the default clients, in their stored order.
   */
  lemma {:induction false} ResolveAnswers(query: string)
    ensures Resolve(query).Failed? ==> Resolve(query).error == DocumentosNaoEncontrados
    ensures Resolve(query).Found? ==> Resolve(query).count == |Resolve(query).documents| > 0
    ensures Resolve(query).Found? && DocumentTypeOf(query).Some? ==>
      forall d :: d in Resolve(query).documents ==> d.docType == DocumentTypeOf(query).value
    ensures Resolve(query).Found? && ExtractClientNumber(query).Some? ==>
      forall d :: d in Resolve(query).documents ==> ClientOf(d) == ExtractClientNumber(query).value
    ensures Resolve(query).Found? && ExtractClientNumber(query).None? ==>
      Resolve(query).documents == OfType(DocumentTypeOf(query), StoredDocuments(DefaultClients))
      && forall d :: d in Resolve(query).documents ==> ClientOf(d) in DefaultClients
    ensures ExtractClientNumber(query).None? ==>
      (Resolve(query).Failed? <==> OfType(DocumentTypeOf(query), StoredDocuments(DefaultClients)) == [])
  {
    var documentType := DocumentTypeOf(query);
    if ExtractClientNumber(query).None? {
      ClientsDocumentsOfType(DefaultClients, documentType);
    }
  }

  /** processQuery: the loop that pushes each default client's documents. */
  method ProcessQuery(query: string) returns (r: QueryResult)
    ensures r == Resolve(query)
  {
    var clientNumber := ExtractClientNumber(query);
    var documentType := IdentifyDocumentType(DocumentTypes, query);
    if clientNumber.None? {
      assert Resolve(query) == Answer(None, documentType);
      var allDocuments: seq<Doc> := [];
      for i := 0 to |DefaultClients|
        invariant allDocuments == ClientsDocuments(DefaultClients[..i], documentType)
      {
        var clientDocs := GetDocumentsForClient(DefaultClients[i], documentType);
        ClientsDocumentsSnoc(DefaultClients, i, documentType);
        allDocuments := allDocuments + clientDocs;
      }
      ClientsDocumentsAll(DefaultClients, documentType);
      if |allDocuments| == 0 {
        return Failed(DocumentosNaoEncontrados, NoMatchingDocumentsMessage);
      }
      return Found(allDocuments, |allDocuments|);
    }
    assert Resolve(query) == Answer(clientNumber, documentType);
    r := SearchDocuments(clientNumber, documentType);
  }

  // formatDocumentList: the HTML list a found set of documents is shown as.

  const ListOpen := "<div class='document-list'>"
  const ListClose := "</div>"

  /** The document-item of one document: a link to its path showing its name and date. */
  function DocumentItemHtml(d: Doc): string {
    "<div class='document-item'><a href='" + d.path + "' target='_blank' class='document-link'>"
    + "<span class='document-name'>" + d.name + "</span>"
    + "<span class='document-date'>" + d.date + "</span></a></div>"
  }

  /** One document-item per document, in order, inside the wrapper; nothing for no documents. */
  function DocumentListHtml(docs: seq<Doc>): string {
    if docs == [] then "" else ListOpen + ConcatMap(DocumentItemHtml, docs) + ListClose
  }

  /**
   * The list is empty exactly for no documents, and otherwise opens with the
   * wrapper and holds every document's item.
   */
  lemma {:induction false} DocumentListShape(docs: seq<Doc>)
    ensures DocumentListHtml(docs) == "" <==> docs == []
    ensures docs != [] ==>
      DocumentListHtml(docs)[..|ListOpen|] == ListOpen
      && forall d :: d in docs ==> Contains(DocumentListHtml(docs), DocumentItemHtml(d))
  {
    if docs != [] {
      var html := DocumentListHtml(docs);
      forall d | d in docs ensures Contains(html, DocumentItemHtml(d)) {
        var k :| 0 <= k < |docs| && docs[k] == d;
        var before := ConcatMap(DocumentItemHtml, docs[..k]);
        var after := ConcatMap(DocumentItemHtml, docs[k + 1..]);
        ConcatMapAt(DocumentItemHtml, docs, k);
        ContainsPart(before, DocumentItemHtml(d), after);
        ContainsWithin(ConcatMap(DocumentItemHtml, docs), DocumentItemHtml(d), ListOpen, ListClose);
      }
    }
  }

  /** formatDocumentList: appends one item per document to the wrapper. */
  method FormatDocumentList(documents: seq<Doc>) returns (html: string)
    ensures html == DocumentListHtml(documents)
  {
    if |documents| == 0 {
      return "";
    }
    html := ListOpen;
    ghost var items: string := [];
    for i := 0 to |documents|
      invariant items == ConcatMap(DocumentItemHtml, documents[..i])
      invariant html == ListOpen + items
    {
      var item := DocumentItemHtml(documents[i]);
      assert documents[..i + 1][..i] == documents[..i];
      AppendAssoc(ListOpen, items, item);
      html := html + item;
      items := items + item;
    }
    assert documents[..|documents|] == documents;
    html := html + ListClose;
  }
}
