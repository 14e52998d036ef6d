/**
 * The chatbot's page script with its DOM handling lifted out: the month and
 * client a message asks for, the month filter, the grouping of the found
 * documents by client and type, the summary phrases, and the order in which
 * a message is taken as a greeting, a thank-you or a document request.
 */
module ChatScript {
  import opened Optional
  import opened Text
  import opened Seqs
  import opened DocumentRetriever

  // ---------------------------------------------------------------------------
  // Months

  /** A month number. */
  type MonthNumber = m: int | 1 <= m <= 12 witness 1

  /** The month keys of getMonthFromText, in the order Object.entries lists them. */
  const MonthKeys: seq<(string, MonthNumber)> := [
    ("janeiro", 1), ("fevereiro", 2), ("março", 3), ("marco", 3),
    ("abril", 4), ("maio", 5), ("junho", 6), ("julho", 7),
    ("agosto", 8), ("setembro", 9), ("outubro", 10),
    ("novembro", 11), ("dezembro", 12)
  ]

  /** The month names of getMonthName, January first. */
  const MonthNames: seq<string> := [
    "Janeiro", "Fevereiro", "Março", "Abril", "Maio", "Junho",
    "Julho", "Agosto", "Setembro", "Outubro", "Novembro", "Dezembro"
  ]

  /** The number of the first key (in table order) that occurs in the text. */
  function FirstKeyIn(table: seq<(string, MonthNumber)>, text: string): (r: Option<MonthNumber>)
    ensures r.None? <==> forall k :: 0 <= k < |table| ==> !Contains(text, table[k].0)
  {
    if table == [] then None
    else if Contains(text, table[0].0) then Some(table[0].1)
    else
      var r := FirstKeyIn(table[1..], text);
      assert forall k :: 1 <= k < |table| ==> table[k] == table[1..][k - 1];
      r
  }

  /** FirstKeyIn answers with the number of the first key found. */
  lemma {:induction false} FirstKeyInAt(table: seq<(string, MonthNumber)>, text: string, i: nat)
    requires i < |table| && Contains(text, table[i].0)
    requires forall k :: 0 <= k < i ==> !Contains(text, table[k].0)
    ensures FirstKeyIn(table, text) == Some(table[i].1)
  {
    if i > 0 {
      FirstKeyInAt(table[1..], text, i - 1);
    }
  }

  /** FirstKeyIn answers with some number of the table. */
  lemma {:induction false} FirstKeyInValue(table: seq<(string, MonthNumber)>, text: string) returns (i: nat)
    requires FirstKeyIn(table, text).Some?
    ensures i < |table| && FirstKeyIn(table, text) == Some(table[i].1)
  {
    if Contains(text, table[0].0) {
      i := 0;
    } else {
      var j := FirstKeyInValue(table[1..], text);
      i := j + 1;
    }
  }

  /** A key that cannot occur can be struck from the table without changing the answer. */
  lemma {:induction false} FirstKeyInSkip(table: seq<(string, MonthNumber)>, text: string, i: nat)
    requires i < |table| && !Contains(text, table[i].0)
    ensures FirstKeyIn(table, text) == FirstKeyIn(table[..i] + table[i + 1..], text)
  {
    if i > 0 {
      assert (table[..i] + table[i + 1..])[1..] == table[1..][..i - 1] + table[1..][i..];
      FirstKeyInSkip(table[1..], text, i - 1);
    } else {
      assert table[..i] + table[i + 1..] == table[1..];
    }
  }

  /** The month getMonthFromText reads from a text, or None. */
  function MonthOf(text: string): Option<MonthNumber> {
    FirstKeyIn(MonthKeys, Normalize(text))
  }

  /** getMonthFromText: a loop over the month keys with an early return. */
  method GetMonthFromText(text: string) returns (month: Option<MonthNumber>)
    ensures month == MonthOf(text)
  {
    var normalizedText := Normalize(text);
    for i := 0 to |MonthKeys|
      invariant forall k :: 0 <= k < i ==> !Contains(normalizedText, MonthKeys[k].0)
    {
      var (key, number) := MonthKeys[i];
      if Contains(normalizedText, key) {
        FirstKeyInAt(MonthKeys, normalizedText, i);
        return Some(number);
      }
    }
    return None;
  }

  /**
   * The key "março" never matches, because the text it is looked for in has
   * lost its accents: March is read only through "marco".
   */
  lemma {:induction false} AccentedMarchKeyIsDead(text: string)
    ensures !Contains(Normalize(text), MonthKeys[2].0)
    ensures MonthOf(text) == FirstKeyIn(MonthKeys[..2] + MonthKeys[3..], Normalize(text))
  {
    assert 'ç' in MonthKeys[2].0 by {
      assert MonthKeys[2].0[3] == 'ç';
    }
    AccentedKeyIsDead(MonthKeys, text, 2);
  }

  /** A key holding a `ç` never occurs in a normalised text and can be struck from the table. */
  lemma {:induction false} AccentedKeyIsDead(table: seq<(string, MonthNumber)>, text: string, i: nat)
    requires i < |table| && 'ç' in table[i].0
    ensures !Contains(Normalize(text), table[i].0)
    ensures FirstKeyIn(table, Normalize(text)) == FirstKeyIn(table[..i] + table[i + 1..], Normalize(text))
  {
    var nt := Normalize(text);
    NormalizeShape(text);
    assert 'ç' !in nt by {
      assert BaseLetter('ç') != 'ç';
    }
    MissingChar(nt, table[i].0, 'ç');
    FirstKeyInSkip(table, nt, i);
  }

  /** getMonthName: months[n - 1], undefined (None) outside 1..12. */
  function GetMonthName(monthNumber: int): (name: Option<string>)
    ensures name.Some? <==> 1 <= monthNumber <= 12
    ensures name.Some? ==> name.value == MonthNames[monthNumber - 1]
  {
    if 1 <= monthNumber <= |MonthNames| then Some(MonthNames[monthNumber - 1]) else None
  }

  // ---------------------------------------------------------------------------
  // The month filter

  /**
   * The month of an ISO date `YYYY-MM-DD`: its MM field, read as a number;
   * None for a date of another shape, whose month matches no month number.
   */
  function DateMonth(date: string): Option<int> {
    if |date| >= 7 && date[4] == '-' && IsDigit(date[5]) && IsDigit(date[6])
    then Some(10 * DigitValue(date[5]) + DigitValue(date[6]))
    else None
  }

  /** The date of d falls in the given month. */
  predicate InMonth(month: int, d: Doc) {
    DateMonth(d.date) == Some(month)
  }

  /** `result.documents.filter(...)` when a month was read; the documents unchanged otherwise. */
  function FilterByMonth(docs: seq<Doc>, month: Option<MonthNumber>): seq<Doc> {
    match month
    case None => docs
    case Some(m) => Filter(d => InMonth(m, d), docs)
  }

  /**
   * The month filter keeps exactly the documents of that month, in their
   * order, and keeps everything when no month was read.
   */
  lemma {:induction false} FilterByMonthKeeps(docs: seq<Doc>, month: Option<MonthNumber>, more: seq<Doc>)
    ensures month.None? ==> FilterByMonth(docs, month) == docs
    ensures forall d :: d in FilterByMonth(docs, month) <==>
      d in docs && (month.None? || DateMonth(d.date) == Some(month.value as int))
    ensures FilterByMonth(docs + more, month) == FilterByMonth(docs, month) + FilterByMonth(more, month)
  {
    if month.Some? {
      FilterConcat(d => InMonth(month.value, d), docs, more);
    }
  }

  /** The filter reads only the month: the year (and the day) do not matter. */
  lemma {:induction false} DateMonthIgnoresYear(year1: string, year2: string, mm: string, rest1: string, rest2: string)
    requires |year1| == |year2| == 4 && |mm| == 2
    ensures DateMonth(year1 + "-" + mm + rest1) == DateMonth(year2 + "-" + mm + rest2)
  {
    var a := year1 + "-" + mm + rest1;
    var b := year2 + "-" + mm + rest2;
    assert a[4] == b[4] == '-' && a[5] == b[5] == mm[0] && a[6] == b[6] == mm[1];
  }

  // ---------------------------------------------------------------------------
  // Grouping by client and type

  /** The per-client entry of the grouping: `{fatura: [...], guia_transporte: [...]}`. */
  datatype Buckets = Buckets(faturas: seq<Doc>, guias: seq<Doc>)

  /** The documents filed under a client and of a type. */
  predicate OfClientAndType(client: string, t: DocType, d: Doc) {
    ClientOf(d) == client && d.docType == t
  }

  /** The entry of one client: its documents of each type, in their order. */
  function BucketsOf(docs: seq<Doc>, client: string): Buckets {
    Buckets(Filter(d => OfClientAndType(client, Fatura, d), docs), Filter(d => OfClientAndType(client, GuiaTransporte, d), docs))
  }

  /** The client of each document, in order. */
  function Clients(docs: seq<Doc>): (r: seq<string>)
    ensures |r| == |docs| && forall i :: 0 <= i < |docs| ==> r[i] == ClientOf(docs[i])
  {
    seq(|docs|, i requires 0 <= i < |docs| => ClientOf(docs[i]))
  }

  /** The keys of the grouping, in the order clients are first met. */
  function ClientKeys(docs: seq<Doc>): seq<string> {
    Dedup(Clients(docs))
  }

  /** `acc[clientId][doc.type].push(doc)`: the document joins the list of its type. */
  function AddDoc(b: Buckets, d: Doc): Buckets {
    if d.docType == Fatura then b.(faturas := b.faturas + [d]) else b.(guias := b.guias + [d])
  }

  /** Nothing passes a filter that no element satisfies. */
  lemma {:induction false} FilterNone(p: Doc -> bool, s: seq<Doc>)
    requires forall x :: x in s ==> !p(x)
    ensures Filter(p, s) == []
  {
    if Filter(p, s) != [] {
      assert Filter(p, s)[0] in Filter(p, s);
    }
  }

  /** A client never met has an empty entry. */
  lemma {:induction false} BucketsOfAbsent(docs: seq<Doc>, c: string)
    requires c !in Clients(docs)
    ensures BucketsOf(docs, c) == Buckets([], [])
  {
    forall x | x in docs
      ensures ClientOf(x) != c
    {
      var i :| 0 <= i < |docs| && docs[i] == x;
      assert Clients(docs)[i] == ClientOf(x);
    }
    FilterNone(x => OfClientAndType(c, Fatura, x), docs);
    FilterNone(x => OfClientAndType(c, GuiaTransporte, x), docs);
  }

  /** One more document changes only its client's entry, by that document. */
  lemma {:induction false} BucketsOfSnoc(docs: seq<Doc>, d: Doc, c: string)
    ensures BucketsOf(docs + [d], c) == if c == ClientOf(d) then AddDoc(BucketsOf(docs, c), d) else BucketsOf(docs, c)
  {
    FilterSnoc(x => OfClientAndType(c, Fatura, x), docs, d);
    FilterSnoc(x => OfClientAndType(c, GuiaTransporte, x), docs, d);
  }

  lemma {:induction false} ClientsSnoc(docs: seq<Doc>, d: Doc)
    ensures Clients(docs + [d]) == Clients(docs) + [ClientOf(d)]
  {
  }

  /** The keys of the grouping grow by a client the first time it is met. */
  lemma {:induction false} ClientKeysSnoc(docs: seq<Doc>, d: Doc)
    ensures ClientKeys(docs + [d]) ==
      if ClientOf(d) in Clients(docs) then ClientKeys(docs) else ClientKeys(docs) + [ClientOf(d)]
  {
    ClientsSnoc(docs, d);
    var s := Clients(docs + [d]);
    assert s[..|s| - 1] == Clients(docs);
  }

  /**
   * acc and keys are the grouping of docs: keys lists the clients in the
   * order they are first met, acc has an entry exactly for those, and each
   * entry holds that client's documents of each type in their order.
   */
  ghost predicate Grouped(acc: map<string, Buckets>, keys: seq<string>, docs: seq<Doc>) {
    && keys == ClientKeys(docs)
    && (forall c :: c in acc <==> c in keys)
    && (forall c :: c in acc ==> acc[c] == BucketsOf(docs, c))
  }

  /** Adding d to its client's entry, created empty when missing, keeps every entry exact. */
  lemma {:induction false} EntriesSnoc(acc: map<string, Buckets>, docs: seq<Doc>, d: Doc, created: map<string, Buckets>)
    requires forall k :: k in acc ==> acc[k] == BucketsOf(docs, k)
    requires ClientOf(d) in acc ==> created == acc
    requires ClientOf(d) !in acc ==> ClientOf(d) !in Clients(docs) && created == acc[ClientOf(d) := Buckets([], [])]
    ensures ClientOf(d) in created
    ensures var acc' := created[ClientOf(d) := AddDoc(created[ClientOf(d)], d)];
      forall k :: k in acc' ==> acc'[k] == BucketsOf(docs + [d], k)
  {
    var c := ClientOf(d);
    var acc' := created[c := AddDoc(created[c], d)];
    forall k | k in acc'
      ensures acc'[k] == BucketsOf(docs + [d], k)
    {
      BucketsOfSnoc(docs, d, k);
      if k == c && c !in acc {
        BucketsOfAbsent(docs, c);
      }
    }
  }

  /** Creating the entry of a client met for the first time keeps the keys and the entries in step. */
  lemma {:induction false} KeysSnoc(acc: map<string, Buckets>, keys: seq<string>, docs: seq<Doc>, d: Doc,
                                    created: map<string, Buckets>, keys1: seq<string>)
    requires keys == ClientKeys(docs) && forall c :: c in acc <==> c in keys
    requires ClientOf(d) in acc ==> created == acc && keys1 == keys
    requires ClientOf(d) !in acc ==> created == acc[ClientOf(d) := Buckets([], [])] && keys1 == keys + [ClientOf(d)]
    ensures keys1 == ClientKeys(docs + [d])
    ensures ClientOf(d) in created && forall c :: c in created <==> c in keys1
  {
    ClientKeysSnoc(docs, d);
    assert ClientOf(d) in acc <==> ClientOf(d) in Clients(docs) by {
      assert ClientOf(d) in acc <==> ClientOf(d) in keys;
    }
  }

  /**
   * One step of the reduce keeps the grouping up to date: created and keys1
   * are acc and keys after the entry of the document's client is created
   * (when missing), and the document then joins that entry.
   */
  lemma {:induction false} GroupedSnoc(acc: map<string, Buckets>, keys: seq<string>, docs: seq<Doc>, d: Doc,
                                       created: map<string, Buckets>, keys1: seq<string>)
    requires Grouped(acc, keys, docs)
    requires ClientOf(d) in acc ==> created == acc && keys1 == keys
    requires ClientOf(d) !in acc ==> created == acc[ClientOf(d) := Buckets([], [])] && keys1 == keys + [ClientOf(d)]
    ensures ClientOf(d) in created
    ensures Grouped(created[ClientOf(d) := AddDoc(created[ClientOf(d)], d)], keys1, docs + [d])
  {
    KeysSnoc(acc, keys, docs, d, created, keys1);
    EntriesSnoc(acc, docs, d, created);
  }

  /**
   * The reduce of processUserMessage: one pass over the documents that adds
   * each to its client's entry, creating the entry (both lists empty) the
   * first time the client is met; keys records the order entries are created.
   */
  method GroupDocuments(docs: seq<Doc>) returns (keys: seq<string>, acc: map<string, Buckets>)
    ensures Grouped(acc, keys, docs)
  {
    keys := [];
    acc := map[];
    assert docs[..0] == [];
    for i := 0 to |docs|
      invariant Grouped(acc, keys, docs[..i])
    {
      var d := docs[i];
      var clientId := ClientOf(d);
      ghost var before, keysBefore := acc, keys;
      if clientId !in acc {
        acc := acc[clientId := Buckets([], [])];
        keys := keys + [clientId];
      }
      // the source's `if (!acc[clientId][doc.type])` never fires: both lists exist from creation
      GroupedSnoc(before, keysBefore, docs[..i], d, acc, keys);
      acc := acc[clientId := AddDoc(acc[clientId], d)];
      assert docs[..i + 1] == docs[..i] + [d];
    }
    assert docs[..|docs|] == docs;
  }

  // ---------------------------------------------------------------------------
  // Every document lands in exactly one entry

  /** The number of documents in an entry. */
  function Size(b: Buckets): nat {
    |b.faturas| + |b.guias|
  }

  /** The sizes of the entries of the given clients, added up. */
  function EntrySizes(docs: seq<Doc>, keys: seq<string>): nat {
    if keys == [] then 0 else Size(BucketsOf(docs, keys[0])) + EntrySizes(docs, keys[1..])
  }

  /** How many times c occurs in keys. */
  function Occurrences(keys: seq<string>, c: string): nat {
    if keys == [] then 0 else (if keys[0] == c then 1 else 0) + Occurrences(keys[1..], c)
  }

  lemma {:induction false} BucketsOfCons(x: Doc, rest: seq<Doc>, c: string)
    ensures Size(BucketsOf([x] + rest, c)) == Size(BucketsOf(rest, c)) + (if ClientOf(x) == c then 1 else 0)
  {
    var s := [x] + rest;
    assert s[0] == x && s[1..] == rest;
  }

  lemma {:induction false} EntrySizesCons(x: Doc, rest: seq<Doc>, keys: seq<string>)
    ensures EntrySizes([x] + rest, keys) == EntrySizes(rest, keys) + Occurrences(keys, ClientOf(x))
  {
    if keys != [] {
      BucketsOfCons(x, rest, keys[0]);
      EntrySizesCons(x, rest, keys[1..]);
    }
  }

  lemma {:induction false} OccursNot(keys: seq<string>, c: string)
    requires c !in keys
    ensures Occurrences(keys, c) == 0
  {
    if keys != [] {
      assert keys[0] != c;
      OccursNot(keys[1..], c);
    }
  }

  lemma {:induction false} OccursOnce(keys: seq<string>, c: string)
    requires NoDuplicates(keys) && c in keys
    ensures Occurrences(keys, c) == 1
  {
    var tail := keys[1..];
    assert NoDuplicates(tail) by {
      forall i, j | 0 <= i < j < |tail| ensures tail[i] != tail[j] {
        assert tail[i] == keys[i + 1] && tail[j] == keys[j + 1];
      }
    }
    if keys[0] == c {
      assert c !in tail by {
        forall j | 0 <= j < |tail| ensures tail[j] != c {
          assert tail[j] == keys[j + 1];
        }
      }
      OccursNot(tail, c);
    } else {
      assert c in tail by {
        var j :| 0 <= j < |keys| && keys[j] == c;
        assert tail[j - 1] == c;
      }
      OccursOnce(tail, c);
    }
  }

  lemma {:induction false} EntrySizesNone(keys: seq<string>)
    ensures EntrySizes([], keys) == 0
  {
    if keys != [] {
      EntrySizesNone(keys[1..]);
    }
  }

  /** Distinct keys covering every document's client have entries that add up to all the documents. */
  lemma {:induction false} EntrySizesCover(docs: seq<Doc>, keys: seq<string>)
    requires NoDuplicates(keys)
    requires forall d :: d in docs ==> ClientOf(d) in keys
    ensures EntrySizes(docs, keys) == |docs|
  {
    if docs != [] {
      var x, rest := docs[0], docs[1..];
      assert docs == [x] + rest;
      assert x in docs;
      EntrySizesCover(rest, keys);
      EntrySizesCons(x, rest, keys);
      OccursOnce(keys, ClientOf(x));
    } else {
      EntrySizesNone(keys);
    }
  }

  /** A document's client is among the keys of the grouping. */
  lemma {:induction false} ClientOfInKeys(docs: seq<Doc>, d: Doc)
    requires d in docs
    ensures ClientOf(d) in Clients(docs) && ClientOf(d) in ClientKeys(docs)
  {
    var i :| 0 <= i < |docs| && docs[i] == d;
    assert Clients(docs)[i] == ClientOf(d);
  }

  /**
   * Grouping loses and duplicates nothing: the entries of the grouping's
   * keys add up to the number of documents grouped.
   */
  lemma {:induction false} GroupingCountsAll(docs: seq<Doc>)
    ensures EntrySizes(docs, ClientKeys(docs)) == |docs|
  {
    forall d | d in docs
      ensures ClientOf(d) in ClientKeys(docs)
    {
      ClientOfInKeys(docs, d);
    }
    EntrySizesCover(docs, ClientKeys(docs));
  }

  /** Every key of the grouping has a nonempty entry, and any other client an empty one. */
  lemma {:induction false} EntryNonEmpty(docs: seq<Doc>, c: string)
    ensures Size(BucketsOf(docs, c)) > 0 <==> c in ClientKeys(docs)
  {
    if c in Clients(docs) {
      var i :| 0 <= i < |docs| && Clients(docs)[i] == c;
      var b := BucketsOf(docs, c);
      if docs[i].docType == Fatura {
        assert docs[i] in b.faturas;
      } else {
        assert docs[i] in b.guias;
      }
    } else {
      BucketsOfAbsent(docs, c);
    }
  }

  /** The keys of the grouping follow the order in which their clients first appear. */
  lemma {:induction false} ClientKeysInOrder(docs: seq<Doc>, i: nat, j: nat)
    requires i < j < |ClientKeys(docs)|
    ensures FirstIndex(Clients(docs), ClientKeys(docs)[i]) < FirstIndex(Clients(docs), ClientKeys(docs)[j])
  {
    DedupOrder(Clients(docs), i, j);
  }

  // ---------------------------------------------------------------------------
  // Summary phrases

  /** `${n} ${n === 1 ? singular : plural}`. */
  function CountPhrase(n: nat, singular: string, plural: string): string {
    NatToString(n) + " " + (if n == 1 then singular else plural)
  }

  /**
   * A count phrase opens with the count in decimal, which reads back as n,
   * followed by a space and the singular noun exactly when n is 1.
   */
  lemma {:induction false} CountPhraseReadsBack(n: nat, singular: string, plural: string)
    requires singular != plural
    ensures var r := CountPhrase(n, singular, plural);
      var w := |NatToString(n)|;
      && (forall i :: 0 <= i < w ==> IsDigit(r[i]))
      && ParseDigits(r[..w]) == n
      && r[w] == ' '
      && (r[w + 1..] == singular <==> n == 1)
  {
    var r := CountPhrase(n, singular, plural);
    var w := |NatToString(n)|;
    assert r[..w] == NatToString(n);
    assert r[w + 1..] == if n == 1 then singular else plural;
    NatToStringRoundTrip(n);
  }

  /** The invoice phrase and the guide (CMR) phrase. */
  function InvoicePhrase(n: nat): string {
    CountPhrase(n, "fatura", "faturas")
  }

  function GuidePhrase(n: nat): string {
    CountPhrase(n, "CMR", "CMRs")
  }

  /** The messageParts of a client line in the all-clients summary: only the types it has. */
  function ClientParts(b: Buckets): seq<string> {
    (if |b.faturas| > 0 then [InvoicePhrase(|b.faturas|)] else [])
    + (if |b.guias| > 0 then [GuidePhrase(|b.guias|)] else [])
  }

  /**
   * A client line names exactly the types with documents, invoices first:
   * it has a part exactly when the entry is nonempty, never a zero count.
   */
  lemma {:induction false} ClientPartsShape(b: Buckets)
    ensures |ClientParts(b)| == (if |b.faturas| > 0 then 1 else 0) + (if |b.guias| > 0 then 1 else 0)
    ensures ClientParts(b) != [] <==> Size(b) > 0
    ensures |b.faturas| > 0 ==> ClientParts(b)[0] == InvoicePhrase(|b.faturas|)
    ensures |b.guias| > 0 ==> ClientParts(b)[|ClientParts(b)| - 1] == GuidePhrase(|b.guias|)
  {
  }

  // ---------------------------------------------------------------------------
  // The replies to a document request

  /** A message the bot adds to the chat: plain text, or HTML (a document item). */
  datatype ChatMessage = Plain(text: string) | Html(html: string)

  const ProcessingErrorMessage :=
    "Desculpe, ocorreu um erro ao processar a sua mensagem. Por favor, tente novamente."

  /** One document-item message per document, in order. */
  function ItemMessages(docs: seq<Doc>): (r: seq<ChatMessage>)
    ensures |r| == |docs| && forall i :: 0 <= i < |docs| ==> r[i] == Html(DocumentItemHtml(docs[i]))
  {
    if docs == [] then [] else [Html(DocumentItemHtml(docs[0]))] + ItemMessages(docs[1..])
  }

  /** The document messages of an entry: its invoices, then its guides. */
  function EntryItems(b: Buckets): seq<ChatMessage> {
    ItemMessages(b.faturas + b.guias)
  }

  /** ` de <month name>` when a month was read; getMonthName's undefined shows as "undefined". */
  function MonthSuffix(month: Option<MonthNumber>): string {
    match month
    case None => ""
    case Some(m) => " de " + (match GetMonthName(m) case Some(name) => name case None => "undefined")
  }

  /** The reply when the month filter leaves nothing. */
  function NothingFoundMessage(month: Option<MonthNumber>, client: Option<string>): string {
    var monthName := if month.Some? then GetMonthName(month.value) else None;
    "Não encontrei documentos" + (if monthName.Some? then " de " + monthName.value else "")
    + (if client.Some? then " para o cliente " + client.value else "") + "."
  }

  /** The line of one client in the all-clients summary and its documents; nothing for an empty entry. */
  function ClientBlock(client: string, b: Buckets): seq<ChatMessage> {
    var parts := ClientParts(b);
    if parts == [] then [] else [Plain("Cliente " + client + ": " + Join(parts, " e "))] + EntryItems(b)
  }

  /** The client blocks of the given keys, in their order. */
  function ClientBlocks(docs: seq<Doc>, keys: seq<string>): seq<ChatMessage> {
    if keys == [] then [] else ClientBlock(keys[0], BucketsOf(docs, keys[0])) + ClientBlocks(docs, keys[1..])
  }

  /** The summary without a client number: a header, then each client's line and documents. */
  function AllClientsSummary(docs: seq<Doc>, month: Option<MonthNumber>): seq<ChatMessage> {
    [Plain("Encontrei os seguintes documentos" + MonthSuffix(month) + ":")] + ClientBlocks(docs, ClientKeys(docs))
  }

  /**
   * The summary for one client: both phrases always, since the entry is
   * created with both lists, then the client's invoices and guides.
   */
  function ClientSummary(b: Buckets, month: Option<MonthNumber>, client: string): seq<ChatMessage> {
    [Plain("Encontrei " + (Join([InvoicePhrase(|b.faturas|), GuidePhrase(|b.guias|)], " e ")
                          + (MonthSuffix(month) + " para o cliente " + client + ".")))]
    + EntryItems(b)
  }

  /**
   * What is shown for the documents left after the month filter: the
   * nothing-found line, the all-clients summary, or the one-client summary;
   * looking up a client with no entry throws, and the catch shows the apology.
   */
  function Present(filtered: seq<Doc>, month: Option<MonthNumber>, client: Option<string>): seq<ChatMessage> {
    if filtered == [] then [Plain(NothingFoundMessage(month, client))]
    else if client.None? then AllClientsSummary(filtered, month)
    else if client.value in Clients(filtered) then ClientSummary(BucketsOf(filtered, client.value), month, client.value)
    else [Plain(ProcessingErrorMessage)]
  }

  /** The replies to a message that is neither a greeting nor a thank-you. */
  function LookupReply(message: string): seq<ChatMessage> {
    var month := MonthOf(message);
    var client := ExtractClientNumber(message);
    match Resolve(message)
    case Failed(_, text) => [Plain(text)]
    case Found(docs, _) => Present(FilterByMonth(docs, month), month, client)
  }

  /** Each client block is its line plus one message per document of the entry, for keys with entries. */
  lemma {:induction false} ClientBlocksCount(docs: seq<Doc>, keys: seq<string>)
    requires forall k :: k in keys ==> k in ClientKeys(docs)
    ensures |ClientBlocks(docs, keys)| == |keys| + EntrySizes(docs, keys)
  {
    if keys != [] {
      var b := BucketsOf(docs, keys[0]);
      EntryNonEmpty(docs, keys[0]);
      ClientPartsShape(b);
      assert |ClientBlock(keys[0], b)| == 1 + Size(b);
      ClientBlocksCount(docs, keys[1..]);
    }
  }

  /**
   * The all-clients summary has its header, one line per client met and one
   * message per document: no client is skipped and no document lost.
   */
  lemma {:induction false} AllClientsSummaryCount(docs: seq<Doc>, month: Option<MonthNumber>)
    ensures |AllClientsSummary(docs, month)| == 1 + |ClientKeys(docs)| + |docs|
  {
    ClientBlocksCount(docs, ClientKeys(docs));
    GroupingCountsAll(docs);
  }

  lemma {:induction false} JoinTwo(f: string, g: string, sep: string)
    ensures Join([f, g], sep) == f + sep + g
  {
    assert [f, g][1..] == [g];
  }

  /** The one-client line holds both phrases. */
  lemma {:induction false} SummaryLineHolds(head: string, f: string, g: string, tail: string)
    ensures Contains(head + (Join([f, g], " e ") + tail), f)
    ensures Contains(head + (Join([f, g], " e ") + tail), g)
  {
    JoinTwo(f, g, " e ");
    var line := head + (Join([f, g], " e ") + tail);
    assert line == head + f + (" e " + g + tail);
    ContainsPart(head, f, " e " + g + tail);
    assert line == (head + f + " e ") + g + tail;
    ContainsPart(head + f + " e ", g, tail);
  }

  lemma {:induction false} NoInvoicePhrase()
    ensures InvoicePhrase(0) == "0 faturas"
  {
    assert NatToString(0) == "0";
  }

  lemma {:induction false} NoGuidePhrase()
    ensures GuidePhrase(0) == "0 CMRs"
  {
    assert NatToString(0) == "0";
  }

  /**
   * The one-client summary always names both types, with a zero count when
   * the client has none of one type, and then shows every document of the entry.
   */
  lemma {:induction false} ClientSummaryShape(b: Buckets, month: Option<MonthNumber>, client: string)
    ensures var line := ClientSummary(b, month, client)[0].text;
      Contains(line, InvoicePhrase(|b.faturas|)) && Contains(line, GuidePhrase(|b.guias|))
    ensures |ClientSummary(b, month, client)| == 1 + Size(b)
    ensures |b.faturas| == 0 ==> Contains(ClientSummary(b, month, client)[0].text, "0 faturas")
    ensures |b.guias| == 0 ==> Contains(ClientSummary(b, month, client)[0].text, "0 CMRs")
  {
    SummaryLineHolds("Encontrei ", InvoicePhrase(|b.faturas|), GuidePhrase(|b.guias|),
                     MonthSuffix(month) + " para o cliente " + client + ".");
    NoInvoicePhrase();
    NoGuidePhrase();
  }

  /**
   * What is shown for the filtered documents: with a client number whose
   * documents they all are, the client always has an entry, so the apology
   * of the catch is never shown and the one-client summary lists them all;
   * without a client number the all-clients summary does.
   */
  lemma {:induction false} PresentShape(filtered: seq<Doc>, month: Option<MonthNumber>, client: Option<string>)
    requires client.Some? ==> forall d :: d in filtered ==> ClientOf(d) == client.value
    ensures filtered == [] ==> Present(filtered, month, client) == [Plain(NothingFoundMessage(month, client))]
    ensures filtered != [] && client.Some? ==>
      Present(filtered, month, client) == ClientSummary(BucketsOf(filtered, client.value), month, client.value)
      && |Present(filtered, month, client)| == 1 + |filtered|
    ensures filtered != [] && client.None? ==>
      |Present(filtered, month, client)| == 1 + |ClientKeys(filtered)| + |filtered|
  {
    if filtered != [] {
      if client.Some? {
        var c := client.value;
        ClientOfInKeys(filtered, filtered[0]);
        EntrySizesCover(filtered, [c]);
        EntrySizesNone([]);
        ClientSummaryShape(BucketsOf(filtered, c), month, c);
      } else {
        AllClientsSummaryCount(filtered, month);
      }
    }
  }

  /**
   * The lookup part of processUserMessage: an error answer is shown as is,
   * and found documents, once filtered by month, as Present shows them; with
   * a client number they are all that client's.
   */
  lemma {:induction false} LookupReplyShape(message: string)
    ensures Resolve(message).Failed? ==> LookupReply(message) == [Plain(Resolve(message).message)]
    ensures Resolve(message).Found? ==>
      var filtered := FilterByMonth(Resolve(message).documents, MonthOf(message));
      && LookupReply(message) == Present(filtered, MonthOf(message), ExtractClientNumber(message))
      && (ExtractClientNumber(message).Some? ==>
            forall d :: d in filtered ==> ClientOf(d) == ExtractClientNumber(message).value)
  {
    var r := Resolve(message);
    if r.Found? {
      ResolveAnswers(message);
      FilterByMonthKeeps(r.documents, MonthOf(message), []);
    }
  }

  /**
   * processUserMessage never reaches its catch: a document request is
   * answered by the error text, the nothing-found line, or a summary that
   * shows every filtered document.
   */
  lemma {:induction false} LookupNeverThrows(message: string)
    ensures Resolve(message).Found? && ExtractClientNumber(message).Some? ==>
      var filtered := FilterByMonth(Resolve(message).documents, MonthOf(message));
      filtered != [] ==>
        (|LookupReply(message)| == 1 + |filtered|
         && LookupReply(message) == ClientSummary(BucketsOf(filtered, ExtractClientNumber(message).value),
                                                  MonthOf(message), ExtractClientNumber(message).value))
  {
    var r := Resolve(message);
    if r.Found? && ExtractClientNumber(message).Some? {
      LookupReplyShape(message);
      PresentShape(FilterByMonth(r.documents, MonthOf(message)), MonthOf(message), ExtractClientNumber(message));
    }
  }

  // ---------------------------------------------------------------------------
  // Greetings, thanks and the dispatch of a message

  const Greetings: seq<string> := ["ola", "oi", "bom dia", "boa tarde", "boa noite", "hello", "hi"]
  const ThanksWords: seq<string> := ["obrigado", "obrigada", "agradecido", "agradecida", "valeu", "thanks"]

  /** isGreeting, on an already normalised message. */
  predicate IsGreeting(normalizedMessage: string) {
    MentionsAny(normalizedMessage, Greetings)
  }

  /** isThanks, on an already normalised message. */
  predicate IsThanks(normalizedMessage: string) {
    MentionsAny(normalizedMessage, ThanksWords)
  }

  /**
   * The words are matched anywhere, not as whole words: any text with a
   * greeting inside it, such as "oi" inside "depois", is a greeting.
   */
  lemma {:induction false} GreetingInside(before: string, i: nat, after: string)
    requires i < |Greetings|
    ensures IsGreeting(before + Greetings[i] + after)
  {
    ContainsPart(before, Greetings[i], after);
  }

  lemma {:induction false} ThanksInside(before: string, i: nat, after: string)
    requires i < |ThanksWords|
    ensures IsThanks(before + ThanksWords[i] + after)
  {
    ContainsPart(before, ThanksWords[i], after);
  }

  /** What processUserMessage does with a message. */
  datatype Reply = GreetingReply | ThanksReply | Lookup(messages: seq<ChatMessage>)

  /**
   * processUserMessage: a greeting first, then a thank-you, and only then a
   * document request; the canned greeting and thank-you replies are picked
   * at random and are not part of this model.
   */
  function ProcessUserMessage(message: string): Reply {
    var normalizedMessage := Normalize(message);
    if IsGreeting(normalizedMessage) then GreetingReply
    else if IsThanks(normalizedMessage) then ThanksReply
    else Lookup(LookupReply(message))
  }

  /**
   * The dispatch order: a message with a greeting in it is answered as one
   * even when it also thanks or asks for documents; a thank-you wins over a
   * document request; and a request is looked up only when neither occurs.
   */
  lemma {:induction false} DispatchOrder(message: string)
    ensures IsGreeting(Normalize(message)) ==> ProcessUserMessage(message) == GreetingReply
    ensures IsThanks(Normalize(message)) && !IsGreeting(Normalize(message)) ==>
      ProcessUserMessage(message) == ThanksReply
    ensures ProcessUserMessage(message).Lookup? <==>
      !IsGreeting(Normalize(message)) && !IsThanks(Normalize(message))
    ensures ProcessUserMessage(message).Lookup? ==> ProcessUserMessage(message).messages == LookupReply(message)
  {
  }

  /** The label of a document type key, as getDocumentTypeLabel gives it. */
  function GetDocumentTypeLabel(typeKey: string): (shown: string)
    ensures shown == "fatura(s)" <==> typeKey == TypeKey(Fatura)
    ensures shown == "guia(s) de transporte" <==> typeKey == TypeKey(GuiaTransporte)
    ensures shown == "documento(s)" <==> typeKey != TypeKey(Fatura) && typeKey != TypeKey(GuiaTransporte)
  {
    if typeKey == "fatura" then "fatura(s)"
    else if typeKey == "guia_transporte" then "guia(s) de transporte"
    else "documento(s)"
  }
}
