# Document chatbot and cargo assistant: a Dafny model

This project models the deterministic core of a small Portuguese customer-service chatbot. The core has three parts.

- **The document retriever** (`document_retriever.js`). It normalises a query and reads a client number out of it with the rule `c(\d{3,})`. It picks a document type (invoice, `fatura`, or transport guide, `guia_transporte`) by the first synonym it finds. It then answers from a fixed simulated store:
  - for a named client, `searchDocuments` validates the number and looks the client up;
  - without a client, it concatenates the documents of C001, C002 and C003.

  Every outcome is a tagged result: the documents with their count, or an error code with a message. `formatDocumentList` renders a found list as HTML.
- **The chat page's message handling** (`script.js`), lifted out of its DOM handler as pure functions:
  - the month a message names, and the month filter on the retrieved documents;
  - the grouping of documents by client and type;
  - the singular and plural count phrases and the two summary modes;
  - the order in which a message is taken as a greeting, as thanks or as a document request;
  - the type labels.
- **The cargo assistant's responder** (`data_retriever.py`, `get_cargo_info`). It answers an inquiry from a JSON-shaped database, which the model receives as a value: destinations, cargo types, base prices, surcharges and transit times. The reply is an ordered list of lines with "only if nothing else matched" fallbacks, and duplicates are removed.

Files:
- `optional.dfy` (module `Optional`): the option type.
- `text.dfy` (module `Text`): the two normalisers, substring search, decimal rendering of counts and joining.
- `seqs.dfy` (module `Seqs`): `filter`, and `list(dict.fromkeys(...))` as `Dedup`.
- `retriever.dfy` (module `DocumentRetriever`): the retriever, including `formatDocumentList`.
- `chat.dfy` (module `ChatScript`): the page script.
- `cargo.dfy` (module `DataRetriever`): the cargo responder.

The loops rendered as methods are listed below. Each is proved equal to a specification function, and the properties are lemmas about those functions.
- `identifyDocumentType`, the no-client branch of `processQuery` and `formatDocumentList`;
- `getMonthFromText` and the grouping `reduce`;
- the destination, cargo-type and transit-time loops of `get_cargo_info`.

The other iterations are recursive functions, proved about directly:
- the per-client summary loop of `processUserMessage` (`ClientBlocks`) and its per-document `forEach` calls (`ItemMessages`, `EntryItems`);
- the `.filter` of the month filter (`FilterByMonth`, through `Filter`);
- the `.some(...)` word tests (`MentionsAny`) and the `any(...)` tests of `get_cargo_info`.

## Model

| member | source | states |
|---|---|---|
| Text.NormalizeShape | script.js:43-46 | The normalised text has no upper-case letter, no accented letter, no combining mark and no whitespace at either end. It is no longer than the input, and the empty text gives "". |
| Text.NormalizeIdempotent | document_retriever.js:26-32 | Normalising an already normalised text changes nothing. |
| Text.NormalizePyShape | data_retriever.py:23-27 | On the modelled alphabet (see `NormalizePy` under Left out), `normalize_text` gives a text without upper case, accents or combining marks, no longer than the input, and "" for "". |
| Text.NatToStringRoundTrip | script.js:203 | The decimal text of a count reads back as that count. |
| Seqs.Filter | script.js:164-167 | `Array.prototype.filter` keeps exactly the elements satisfying the test, no more than there were, in their original order (the result is a subsequence of the input). |
| Seqs.Dedup | data_retriever.py:131-132 | Removing duplicates leaves every line exactly once and keeps exactly the lines that were there. |
| Seqs.DedupOrder | data_retriever.py:132 | The lines left keep the order of their first occurrences. |
| DocumentRetriever.FirstClientNumber | document_retriever.js:42-51 | None exactly when no `c` followed by three digits occurs. Otherwise the result has the form `C` plus three or more digits and is the leftmost match with its greedy digit run and an upper-case `C`. |
| DocumentRetriever.ExtractClientNumber | document_retriever.js:39-52 | The same, over the normalised query. |
| DocumentRetriever.TableOrder | document_retriever.js:12-15 | The table decides invoice exactly when an invoice synonym occurs. It decides guide exactly when no invoice synonym occurs and a guide synonym does. |
| DocumentRetriever.DocumentTypeOf | document_retriever.js:59-72 | The type found is `fatura` iff an invoice synonym occurs in the normalised query. It is `guia_transporte` iff none does and a guide synonym (including `crm`) does. It is null iff neither occurs. |
| DocumentRetriever.IdentifyDocumentType | document_retriever.js:59-72 | The nested loops with early return give the first table entry that has a synonym in the normalised query. |
| DocumentRetriever.GetSimulatedDocuments | document_retriever.js:157-245 | An unknown client gets []. Every listed document is filed under the client asked for. |
| DocumentRetriever.StoredDocClient | document_retriever.js:164 | The path `documents/<client>/<file>` has the client as its segment 1. |
| DocumentRetriever.GetDocumentsForClient | document_retriever.js:130-150 | A document is returned iff it is in the client's list and has the requested type, and the result keeps the list's order (it is a subsequence of it). With no type the whole list is returned, an unknown client gets [], and every document belongs to the client. |
| DocumentRetriever.NotFoundMessageMentions | document_retriever.js:94-100 | The not-found message names the client and, when a type was asked for, its readable name. |
| DocumentRetriever.SearchDocuments | document_retriever.js:80-122 | `formato_cliente_invalido` iff the number is missing or is not `^C\d{3,}$`. `documentos_nao_encontrados` iff it is valid but the lookup is empty, with a message naming the client and type. Otherwise success with the lookup and `count == length > 0`. Never `erro_interno`. |
| DocumentRetriever.ClientsDocumentsOfType | document_retriever.js:260-266 | Collecting client after client equals filtering the concatenated stored lists by type. The result holds only documents of the listed clients and of the requested type. |
| DocumentRetriever.ResolveAnswers | document_retriever.js:252-286 | processQuery only fails with `documentos_nao_encontrados`, never with a format error. A success counts its documents, holds only the requested type and only the named client's documents. Without a client number it holds the C001–C003 documents in stored order (never C004), and it fails iff that filtered concatenation is empty. |
| DocumentRetriever.ProcessQuery | document_retriever.js:252-286 | The loop that pushes each default client's documents, with the rest of processQuery, gives the answer ResolveAnswers describes. |
| DocumentRetriever.DocumentListShape | document_retriever.js:293-313 | The HTML is "" iff there are no documents. Otherwise it opens with the `document-list` wrapper and contains every document's `document-item`. |
| DocumentRetriever.FormatDocumentList | document_retriever.js:293-313 | The `forEach` that appends one item per document builds the wrapper around the items, in document order. |
| ChatScript.FirstKeyInAt | script.js:57-61 | The month lookup answers with the number of the first key, in table order, that occurs in the text. |
| ChatScript.GetMonthFromText | script.js:48-63 | The loop with early return gives the number of the first month key found in the normalised text, or null. The number has the type `MonthNumber`, so it is always in 1..12. |
| ChatScript.AccentedMarchKeyIsDead | script.js:50-58 | The key `março` never occurs in the normalised text, so the answer is the same with that key removed: March is found only through `marco`. |
| ChatScript.AccentedKeyIsDead | script.js:56-58 | A key holding a `ç` never occurs in a normalised text and can be struck from the table without changing the answer. |
| ChatScript.GetMonthName | script.js:65-71 | A name exists iff the number is in 1..12, and it is the n-th Portuguese month name. |
| ChatScript.FilterByMonthKeeps | script.js:160-168 | With no month the documents are unchanged. With a month, a document is kept iff its date's month equals it. The filter distributes over concatenation, so order is kept. |
| ChatScript.DateMonthIgnoresYear | script.js:164-167 | Two dates with the same month field compare alike whatever their years and days. |
| ChatScript.GroupDocuments | script.js:178-191 | The `reduce` builds a map with an entry exactly for the clients met, keyed in the order they are first met. Each entry holds exactly that client's invoices and guides in document order. |
| ChatScript.ClientKeysSnoc | script.js:179-185 | A document adds its client to the keys exactly when the client was not met before. |
| ChatScript.BucketsOfSnoc | script.js:189 | A document changes only its own client's entry, by joining the list of its type. |
| ChatScript.GroupingCountsAll | script.js:178-191 | The sizes of all entries add up to the number of documents grouped: none is lost or duplicated. |
| ChatScript.EntryNonEmpty | script.js:178-191 | A client's entry is nonempty iff the client is a key of the grouping. |
| ChatScript.ClientKeysInOrder | script.js:200 | The keys follow the order in which their clients first appear among the documents. |
| ChatScript.CountPhraseReadsBack | script.js:203-206 | A count phrase starts with digits that read back as the count, then a space. The noun is the singular exactly when the count is 1. |
| ChatScript.ClientPartsShape | script.js:200-209 | A client line has one part per type with documents, invoices first. It has a part iff the entry is nonempty. |
| ChatScript.ItemMessages | script.js:213-222 | One HTML message per document, in order, each the document's item. |
| ChatScript.ClientBlocksCount | script.js:200-224 | Each client block is its line plus one message per document of its entry. |
| ChatScript.AllClientsSummaryCount | script.js:194-225 | The all-clients summary is a header, one line per client met, and one message per document. |
| ChatScript.ClientSummaryShape | script.js:226-257 | The one-client line always names both types, so "0 faturas" or "0 CMRs" appears when a type is missing. One message follows per document of the entry. |
| ChatScript.PresentShape | script.js:170-261 | An empty filter gives the nothing-found line. When every document is the requested client's, the one-client summary covers all of them and the apology is never shown. Without a client, the all-clients summary has 1 + clients + documents messages. |
| ChatScript.LookupReplyShape | script.js:149-261 | A failed lookup shows its message. A found one shows the month-filtered documents, all of which belong to the requested client when one was named. |
| ChatScript.LookupNeverThrows | script.js:226-266 | With a client number and documents left after the filter, the reply is the one-client summary with one message per document: the catch is not reached. |
| ChatScript.GreetingInside | script.js:308-311 | Any text with a greeting word inside it, even inside another word, is a greeting. |
| ChatScript.ThanksInside | script.js:323-326 | Any text with a thanks word inside it is a thank-you. |
| ChatScript.DispatchOrder | script.js:131-141 | A greeting wins over thanks, and both win over a document request. A request is looked up iff neither occurs. |
| ChatScript.GetDocumentTypeLabel | script.js:269-277 | The label is `fatura(s)` iff the key is `fatura`, `guia(s) de transporte` iff the key is `guia_transporte`, and `documento(s)` otherwise. |
| DataRetriever.ScanDestinations | data_retriever.py:53-65 | The destination loop gives the lines and the names of the mentioned destinations, in database order. |
| DataRetriever.ScanCargoTypes | data_retriever.py:67-80 | The cargo loop appends the lines of the mentioned cargo types and gives their names. |
| DataRetriever.ScanTransitTimes | data_retriever.py:96-111 | The transit loop, with its `break`, gives the lines and the found flag of the scan. |
| DataRetriever.TransitTimeReplies | data_retriever.py:95-121 | The transit part: the scan, then the fallback line when nothing was found and no line mentions an estimate. |
| DataRetriever.GetCargoInfo | data_retriever.py:29-132 | The whole procedure gives CargoInfo: one line without a database, otherwise the de-duplicated lines of all the parts. |
| DataRetriever.CargoInfoNonEmpty | data_retriever.py:39-132 | The reply is never empty. Without a database it is exactly the one unavailability line. |
| DataRetriever.CargoInfoDistinct | data_retriever.py:131-132 | The reply has no duplicates, holds exactly the lines produced, and keeps each line at its first occurrence. |
| DataRetriever.DestinationRepliesEmpty | data_retriever.py:53-65 | No destination line is produced iff no destination is found. |
| DataRetriever.CargoRepliesEmpty | data_retriever.py:67-80 | No cargo line is produced iff no cargo type is found. |
| DataRetriever.DestinationRepliesHold | data_retriever.py:54-65 | Every line of a mentioned destination is among the destination lines. |
| DataRetriever.DestinationLinesShown | data_retriever.py:53-65 | Every line of a mentioned destination is in the final reply: served, with its base price when one is known, or not served. |
| DataRetriever.CargoMentionedByName | data_retriever.py:72 | The `tipo de` and `transporte de` forms match only where the name itself occurs. |
| DataRetriever.PricingOnlyGeneral | data_retriever.py:83-90 | Pricing guidance is the general quotation line exactly when a price is asked for and nothing was found. The two narrower questions are unreachable. |
| DataRetriever.TransitScanStops | data_retriever.py:105 | Entries after the scan breaks off change nothing. |
| DataRetriever.TransitScanGrows | data_retriever.py:96-111 | The scan only appends. It reports a found transit time iff it appended a line, and it breaks only after finding one. |
| DataRetriever.TransitScanStopsAtMatch | data_retriever.py:102-105 | Without an entry naming both destination and cargo type, the scan never breaks. |
| DataRetriever.TransitScanFirstMatch | data_retriever.py:102-105 | The scan ends at the first entry naming both: that entry's line is the last added. |
| DataRetriever.TransitScanLines | data_retriever.py:97-111 | Every line the scan adds is the line of one of the entries. |
| DataRetriever.TransitRepliesShape | data_retriever.py:95-121 | The transit part only appends, and only when a transit time is asked for. If the scan found one, every added line is an entry's line. Otherwise exactly the fallback line is added, unless a line already mentions an estimate. |
| DataRetriever.TimedRepliesShape | data_retriever.py:82-121 | The found lines stay at the head. Nothing is replied before the general part iff nothing is found and neither price nor transit time is asked for. |
| DataRetriever.RawRepliesShape | data_retriever.py:123-129 | The general-services line is the whole reply only when nothing else was replied and services are asked about. Otherwise, with nothing replied, the reply is the nothing-found line. Otherwise neither is added. |

## Left out

- DOM and UI plumbing of the page script: event listeners, `addMessageToChat`, the typing indicator and scrolling. A reply is modelled as the list of text and HTML messages it adds.
- The canned greeting, thanks and welcome replies, which are picked at random. `ProcessUserMessage` returns a marker for "greeting" or "thanks" instead.
- The `fetch` of `index.json` in `getDocumentsForClient`. It is network I/O whose result is discarded. `async`/`await` is modelled as plain calls.
- `load_data`, the module-level database and the demo under `__main__` (file I/O and demo code). The database is a parameter of `CargoInfo`/`GetCargoInfo`, and `None` stands for a database that could not be loaded.
- Floating-point formatting: the surcharge percentage `((sobretaxa - 1) * 100):.0f` and the per-kg and per-m³ prices. Each is an opaque string in the database value.
- Full Unicode: NFD decomposition, `toLowerCase`/`lower` and `unidecode` are modelled over Latin-1. Upper-case ASCII and Latin-1 letters are lowered, accented Latin-1 letters are reduced to their base letter, and combining marks U+0300–U+036F are dropped.
- NormalizePy: models only the accent removal of `unidecode`. Latin-1 characters that `unidecode` spells out differently are kept unchanged: ß ("ss"), æ ("ae"), ø ("o"), ð ("d"), þ ("th"), º ("o"), ª ("a"), £ ("PS") and § ("SS"). The real `normalize_text` can therefore return a longer text, and upper case from £ and §, which `NormalizePyShape` rules out for the model.
- Python's `strip` removes a slightly different set of whitespace characters from JavaScript's `trim`. Both are modelled with the JavaScript set.
- JavaScript `Date` parsing and time zones in the month filter. A document's month is the `MM` field of its `YYYY-MM-DD` date. A date of another shape matches no month.
- Logging (`console.error`, `print`) and the exact whitespace inside the HTML template literals. The page script's per-document HTML is modelled by the retriever's `DocumentItemHtml`, which has the same elements and attributes.
- `null` or `None` inputs to the normalisers, and `formatDocumentList(null)` (document_retriever.js:294). Strings and lists are values here: the empty string stands for a missing text and the empty list for a missing list, and the sources map each to "".
- The `try`/`catch` blocks of `searchDocuments`, `getDocumentsForClient` and `processUserMessage`. Nothing in the model throws, so `erro_interno` is never produced. The one throw the page script can reach (indexing a client with no entry) is modelled as the apology reply in `Present`, and `PresentShape` proves it unreachable.
- `Object.entries` order. Client ids such as `C001` are not integer-like keys, so the order is insertion order, which the grouping's key sequence records.
- The unused `match_destination`/`match_cargo_type` variables and the unused `destination_keywords`/`cargo_type_keywords` lists of `get_cargo_info`.
- IdentifyDocumentType: takes the synonym table as a parameter. `ProcessQuery` passes the retriever's table.

## Where the code departs from its own comments

The model follows the code in each case.

- Without a client number, the comments at document_retriever.js:259 and :262 say the documents of all (simulated) clients are gathered. The loop at line 263 lists only C001, C002 and C003, so C004 is never included.
- The all-clients summary drops a type with no documents: script.js:202-207 adds a phrase only when the list's `length > 0`. The one-client summary at script.js:232-239 tests only whether the list exists. The grouping at script.js:181-184 always creates both lists, so "0 faturas" or "0 CMRs" appears there (`ClientSummaryShape`).
- The month table at script.js:50 lists both `março` and `marco`, but the accented key can never match: the text has lost its accents by then (`AccentedMarchKeyIsDead`).
- `searchDocuments` checks the client number's form at document_retriever.js:83-86, but a query cannot produce `formato_cliente_invalido`: an extracted client number always has the valid form (`ResolveAnswers`). A query naming "C99" is answered as a query without a client.
- The `catch` at document_retriever.js:114-118 answers `erro_interno`, but no operation inside the `try` can fail, so the model never produces that code.
