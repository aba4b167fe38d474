# Signal ingestion of the trading-signal options panel

This project models the logic inside the `OptionsSelector` React component of a
crypto-signal demo. It covers four pieces:

- **Coin lookup** (`getCoinIdFromJson`): a first-match, case-insensitive search of
  the coin dataset by ticker symbol, giving the coin's id or `null`.
- **Validation and normalisation**: a parsed inference payload is accepted only if
  `tokenSymbol`, `signal`, `tp1`, `tp2` and `sl` are all JavaScript-truthy. It is
  then turned into the `signal_data` record sent for processing, with `tokenId`
  resolved by the lookup.
- **The Telegram submission** (`handleTelegramSimulate`): inference call, envelope
  parse, payload parse, validation, processing call, each step able to abort. Only
  a fully successful run overwrites the component's `tableData` and `showTable`.
- **The platform callback** (`handlePlatformSimulateSuccess`) and the
  table-visibility condition.

Modules, one per component:

- `wrappers.dfy` (`Wrappers`): `Option` and `Result`.
- `coin_lookup.dfy` (`CoinLookup`): coin records, ASCII lower-casing, and the lookup
  with its properties.
- `js_values.dfy` (`JsValues`): JavaScript values as `JSON.parse` yields them,
  truthiness, and property reads.
- `signal.dfy` (`SignalNormalizer`): the five-field guard and the `signal_data`
  construction.
- `options_selector.dfy` (`OptionsSelector`): the submission as a specification
  function `Submit`, lemmas about failure ordering and state changes, and the
  component as a class with `tableData`, `showTable`, `activeOption` and
  `telegramMessage` fields. Its methods are proved against `Submit`.

These are inputs to the model rather than computed:

- the coin dataset (a `seq<Coin>`);
- each `fetch` response (an `ok` flag plus the outcome of parsing its body);
- the outcome of `JSON.parse(data.result)`, where `None` means the parse threw.

Outbound requests and toasts are recorded in the ghost fields `requests` and
`notices`.

Behaviour of the handler worth noting:

- The Telegram flow replaces the table with the single returned row
  (line 167). It does not add to the rows already shown.
- A payload with a falsy field is not a thrown error. It takes the else branch
  and gets its own "Invalid response format" toast (lines 169-178). Every
  thrown error ends in the one "Failed to perform inference" toast of the
  `catch` (lines 180-191).
- Two thrown errors are easy to miss:
  - reading `data.result` of a `null` envelope (line 123);
  - calling `toLowerCase` on a truthy `tokenSymbol` that is not a string
    (line 134).
- A processed body that is not an object shows the row `undefined`. A `null`
  processed body throws (line 166).

## Model

| member | source | states |
|---|---|---|
| `CoinLookup.LowerChar` | src/app/components/OptionsSelector.tsx:22 | lower-casing one character leaves no upper-case letter, changes exactly the upper-case letters, and maps each to its lower-case partner |
| `CoinLookup.Lower` | src/app/components/OptionsSelector.tsx:25 | `toLowerCase` keeps the length and lower-cases every character in place |
| `CoinLookup.LowerIdempotent` | src/app/components/OptionsSelector.tsx:134-135 | lower-casing an already lower-cased symbol changes nothing |
| `CoinLookup.SameUpToCaseLower` | src/app/components/OptionsSelector.tsx:22-25 | strings that differ only in letter case have the same lower-cased form |
| `CoinLookup.FindFrom` | src/app/components/OptionsSelector.tsx:25 | `find` returns the first matching index at or after the start, and returns nothing only when no record from there on matches |
| `CoinLookup.Matches` | src/app/components/OptionsSelector.tsx:25 | the `find` callback: a record matches when its lower-cased symbol equals the key, so a key of another length or holding an upper-case letter never matches |
| `CoinLookup.GetCoinId` | src/app/components/OptionsSelector.tsx:20-29 | the result is `null` exactly when no record's lower-cased symbol equals the lower-cased input; otherwise it is the id of the first such record in dataset order |
| `CoinLookup.FirstMatchWins` | src/app/components/OptionsSelector.tsx:25-28 | the first matching record's id is returned, so later duplicates are never returned |
| `CoinLookup.LaterRecordsIgnored` | src/app/components/OptionsSelector.tsx:25 | once a prefix of the dataset has a match, records after it never change the result |
| `CoinLookup.LookupCaseInsensitive` | src/app/components/OptionsSelector.tsx:22-25 | inputs that differ only in letter case resolve to the same id or both to `null` |
| `CoinLookup.LookupOfLowered` | src/app/components/OptionsSelector.tsx:134-135 | lower-casing the symbol before the call gives the same result as passing it as is |
| `JsValues.FalsyValues` | src/app/components/OptionsSelector.tsx:132 | the values the guard rejects are exactly `undefined`, `null`, `false`, `0` and `""` |
| `JsValues.Truthy` | src/app/components/OptionsSelector.tsx:132 | JavaScript truthiness as `&&` tests it; a truthy value is never `null` or `undefined`, and arrays and objects are always truthy |
| `JsValues.Get` | src/app/components/OptionsSelector.tsx:141-145 | a property read on a non-null value: anything other than `undefined` is the object's own entry for that key, and an object's own entry is always found |
| `SignalNormalizer.IsCompleteIffNoFieldFalsy` | src/app/components/OptionsSelector.tsx:132 | the guard passes exactly when the payload is truthy and none of the five required fields is missing or falsy |
| `SignalNormalizer.IsComplete` | src/app/components/OptionsSelector.tsx:132 | the five-field truthiness guard; a payload passing it is an object that holds all five keys |
| `SignalNormalizer.MissingFieldRejected` | src/app/components/OptionsSelector.tsx:132 | an object payload lacking any one of the five fields is rejected as incomplete |
| `SignalNormalizer.Normalize` | src/app/components/OptionsSelector.tsx:132-148 | a record is built exactly when the guard passes and `tokenSymbol` is a string. It is rejected as incomplete exactly when the guard fails. The five fields are copied unchanged. `tokenId` is the lookup of the symbol, and is `null` exactly when no coin matches |
| `SignalNormalizer.ZigPayloadResolves` | src/app/components/OptionsSelector.tsx:134-147 | a complete `ZIG` payload against a dataset holding `zignaly` gives the record with `tokenId` `"zignaly"` and the other fields as sent |
| `SignalNormalizer.SymbolOnlyPayloadIncomplete` | src/app/components/OptionsSelector.tsx:132 | a payload that has only `tokenSymbol` is rejected as incomplete |
| `OptionsSelector.Submit` | src/app/components/OptionsSelector.tsx:99-192 | the inference call is always issued first. The processing call is issued exactly when the inference is ok, the envelope parses to a non-null value, and the payload parses and normalises; it carries the normalised record. The run shows a row exactly when processing also succeeds, and that row is the body's `data`. It ends "invalid format" exactly when the payload parses but fails the guard |
| `OptionsSelector.TableChangesOnlyOnSuccess` | src/app/components/OptionsSelector.tsx:161-168 | the table state after a submission is `[processedData.data]` shown, with prior rows discarded, when every step succeeds. After any other run it is exactly the previous state |
| `OptionsSelector.InferenceFailureAbortsFirst` | src/app/components/OptionsSelector.tsx:109-111 | a non-ok inference response ends the run with only the inference call issued, whatever the parses and processing response would be |
| `OptionsSelector.EnvelopeFailureAbortsBeforePayload` | src/app/components/OptionsSelector.tsx:117-121 | an unparsable envelope ends the run before the inner parse, with no processing call |
| `OptionsSelector.PayloadFailureAbortsBeforeValidation` | src/app/components/OptionsSelector.tsx:126-130 | an unparsable payload ends the run before validation, with no processing call |
| `OptionsSelector.ProcessingOnlyAfterValidation` | src/app/components/OptionsSelector.tsx:132-159 | any processing request issued comes from a payload whose five fields are truthy. It carries those fields unchanged and the looked-up `tokenId` |
| `OptionsSelector.NullishEnvelopeAbortsBeforePayload` | src/app/components/OptionsSelector.tsx:123 | a `null` envelope makes `data.result` throw, ending the run with only the inference call |
| `OptionsSelector.NonStringSymbolAbortsBeforeProcessing` | src/app/components/OptionsSelector.tsx:134 | a truthy non-string `tokenSymbol` passes the guard, but `toLowerCase` throws, so no processing call is made |
| `OptionsSelector.ProcessingFailureAfterRequest` | src/app/components/OptionsSelector.tsx:161-166 | after the processing request is issued, a non-ok response, an unparsable body or a `null` body ends the run as that failure, with both calls made and nothing displayed |
| `OptionsSelector.NoticesOf` | src/app/components/OptionsSelector.tsx:170-190 | a run raises at most one toast: none exactly on success, the invalid-format toast exactly for a payload failing the guard, the generic failure toast otherwise |
| `OptionsSelector.AfterSubmit` | src/app/components/OptionsSelector.tsx:167-168 | the table state changes only for a displayed outcome, which leaves exactly the one returned row and the table shown |
| `OptionsSelector.OptionsSelector.constructor` | src/app/components/OptionsSelector.tsx:89-97 | the component starts on the first tab with an empty message, no rows and the table hidden |
| `OptionsSelector.OptionsSelector.TableVisible` | src/app/components/OptionsSelector.tsx:289 | the render condition of the results table: `showTable` holds and the first tab is active |
| `OptionsSelector.OptionsSelector.SelectOption` | src/app/components/OptionsSelector.tsx:249 | switching tabs changes only `activeOption`. The table is then visible exactly when `showTable` holds and the first tab is chosen (the condition of line 289) |
| `OptionsSelector.OptionsSelector.EditMessage` | src/app/components/OptionsSelector.tsx:210 | editing the message box changes only `telegramMessage` |
| `OptionsSelector.OptionsSelector.ReportFailure` | src/app/components/OptionsSelector.tsx:180-191 | the `catch` block only adds the generic failure toast |
| `OptionsSelector.OptionsSelector.HandleTelegramSimulate` | src/app/components/OptionsSelector.tsx:99-192 | the handler issues exactly the calls of `Submit` and raises its toast. The table state becomes `[processedData.data]` shown on success and is untouched, visibility included, on every failure. Tab and message are unchanged |
| `OptionsSelector.OptionsSelector.HandlePlatformSimulateSuccess` | src/app/components/OptionsSelector.tsx:194-197 | the given rows replace `tableData`, and `showTable` becomes true. The table is then visible exactly when the first tab is active (line 289). Nothing else changes |

## Left out

- `fetch` to `/infer` and `/api/process-telegram-signals`: network I/O. Each response is an input (an `ok` flag plus the parsed body). `response.text()` is taken never to fail. Status texts and request bodies are not modelled beyond the request record.
- `JSON.parse` and `.json()`: library calls. Their outcomes are inputs. How the text of `data.result` relates to the inner parse is not modelled, and neither is the string coercion `JSON.parse` applies to a non-string `result`.
- Unicode `toLowerCase`: modelled as ASCII lower-casing only.
- The bundled `coins.json` contents: the dataset is a parameter, of which only `id` and `symbol` are read.
- `dummyTableData` (lines 31-86): unused by the logic.
- Numbers are exact reals. NaN, `-0` and floating-point rounding are not represented, so the truthiness of NaN is not modelled.
- Property reads: only an object's own entries are found. The keys read are not built-in properties of strings, arrays or `Object.prototype`.
- React rendering, animations and markup, the table's columns, and the disabling of the Simulate button for an empty message (line 217): presentation.
- `toast` options and `console.log`: a toast is only recorded as a notice.
- `PlatformSelector` and `simulateApiCall`: external. The callback's argument is taken to be a list of rows.
- Interleaving of overlapping asynchronous submissions (the last one to complete overwrites the table), and React's batching of state updates: each submission is modelled as one sequential step.
