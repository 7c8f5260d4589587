# Gym website: record store, form validation and admin dashboard

A Dafny model of the logic of a small gym website. The site has three parts:

- **server.js** is an Express server. It keeps three collections in one JSON
  file (`database.json`): `leads` (trial-class sign-ups), `matriculas`
  (enrolments) and `contatos` (contact messages). For each collection it
  answers list, create, update and delete requests. A request that changes
  data loads the whole file, changes the loaded object in place and writes
  all of it back. A list request only reads. A create with a missing
  required field touches no file. An update or delete of an unknown id
  reads the file but writes nothing.
- **script.js** is the public page. The model covers its CPF check-digit
  validator (the CPF is the Brazilian taxpayer number) and its testimonial
  slider.
- **script2.js** is the admin dashboard class. It loads the collections with
  a bounded retry, toggles a record's status, removes records, shows
  statistics, escapes text for HTML, and falls back to empty data.

Modules, one per concern:

| file | module | models |
|---|---|---|
| json_values.dfy | `JsValues` | JSON values, `undefined` as absence, JavaScript truthiness, `a \|\| b` |
| records.dfy | `Records` | required fields, the record each create builds, the spread merge, `findIndex` and `filter` by id |
| server.dfy | `Server` | the database file (`DatabaseFile`), the loaded object (`Dataset`), and the list/create/update/delete handlers |
| cpf.dfy | `Cpf` | `validateCPF` |
| slider.dfy | `Slider` | `appState`, `setupSlider`, `changeSlide` |
| escape.dfy | `Escape` | `escapeHtml` and `String(...)` |
| admin.dfy | `Admin` | `AdminDashboard`: `fetchData`, `loadDataFromAPI`, `updateDashboard`, `toggleStatus`, `removeItem`, `showOfflineData`, `init` |

How the model is built:

- The code that updates state step by step is imperative Dafny:
  - the handlers and the file;
  - the retry loop;
  - the dashboard's actions;
  - the slider.
- Each method is stated against a pure function. The properties are proved about those functions.
- The three list, update and delete routes (leads, matriculas, contatos) differ only in names and messages. Each of these actions is one method taking the `Collection`.
- The three create routes differ in required fields, defaults, keys and timestamp key. `Records.NewRecord` dispatches on the `Collection` to `NewLead`, `NewMatricula` and `NewContato`, one per route.
- A ghost trace records:
  - the file operations of each request;
  - the requests the dashboard sends.
- With the trace, ordering facts become contracts:
  - the guard runs before the file is read;
  - a 404 writes nothing;
  - the dashboard reloads only after its PUT or DELETE succeeded.

Where the code and its description disagree, the model follows the code:

- A delete removes every record carrying the id, not just one. Ids come from `Date.now()` and can repeat (`Records.SharedIdUpdateAndDelete`).
- An update merges the body without checks. It can blank a required field (`Records.UpdateMayBreakRequiredFields`) or overwrite `id`.
- The retry pause grows linearly (1000, 2000, … ms), not exponentially.

## Model

| member | source | states |
|---|---|---|
| `JsValues.With` | server.js:146 | an object-literal entry whose value may be `undefined`: a JSON-serialised `undefined` key is absent, other keys untouched |
| `Records.NewRecord` | server.js:99-200 | a created record carries the given id, the collection's initial status and timestamp key, the required fields copied from the body; its key set is exactly the collection's schema (minus `cpf` when the body has none) |
| `Records.NewLead` | server.js:107-116 | lead: required fields copied, `modalidade` defaults to "Não especificado" exactly when the body's is falsy, `tipo` "aula_experimental", status "novo" |
| `Records.NewMatricula` | server.js:141-151 | matricula: `cpf` kept as given (absent when undefined), `aceite_termos` is the truthiness of the body's, status "ativa" |
| `Records.NewContato` | server.js:176-185 | contato: `telefone` defaults to "Não informado" and `assunto` to "Contato geral" exactly when falsy, status "Pendente" |
| `Records.Merge` | server.js:215 | `{ ...old, ...body }`: keys are the union, body values win, the rest keep the old value |
| `Records.FindIndex` | server.js:209 | the first index holding the id, or -1 exactly when no record holds it |
| `Records.UpdateFirst` | server.js:208-215 | none when no record holds the id; otherwise the same length, the first match replaced by its merge, every other position unchanged |
| `Records.RemoveAll` | server.js:285-289 | the kept records are exactly those not holding the id; the length is unchanged exactly when nothing matched |
| `Records.RemoveAllAppend` | server.js:287 | filtering distributes over concatenation, so survivors keep their relative order |
| `Records.RemoveAbsentIsIdentity` | server.js:287-289 | deleting an id nobody holds leaves the collection as it was |
| `Records.SharedIdUpdateAndDelete` | server.js:209-215 | with two records sharing an id, an update changes only the first while a delete removes both |
| `Records.StatusOnlyMerge` | server.js:215 | a `{ status }` body changes the status and nothing else |
| `Records.UpdateMayBreakRequiredFields` | server.js:215 | an update can leave a record without a required field |
| `Server.Appended` | server.js:118-119 | after a create the collection has one more record, the old ones as a prefix and the new one last; other collections unchanged; all keys kept present |
| `Server.Updated` | server.js:208-215 | 404 exactly when no record holds the id; otherwise only collection `c` changes, by `UpdateFirst`, with its length |
| `Server.Removed` | server.js:285-291 | 404 exactly when no record holds the id; otherwise collection `c` shrinks, no survivor holds the id, other collections unchanged |
| `Server.ListReply` | server.js:66-75 | as written: 200 with the collection when its key exists, 500 when it is missing |
| `Server.ListReplyIntended` | server.js:70 | always 200, a missing key listing as empty; agrees with `ListReply` whenever the key exists |
| `Server.ListMissingKeyFails` | server.js:69-70 | a file holding `{}` makes listing answer 500, where the fallback would answer `[]` |
| `Server.ListSucceedsOnWellFormedFile` | server.js:66-97 | on any file the server created itself, the as-written listing is the intended one |
| `Server.Dataset.constructor` | server.js:37 | the loaded object holds the parsed dataset |
| `Server.Dataset.Assign` | server.js:287 | assigning one collection changes it alone |
| `Server.Dataset.EnsureCollection` | server.js:118 | `if (!db.x) db.x = []` turns a missing collection into an empty one and changes nothing else |
| `Server.DatabaseFile.InitDatabase` | server.js:18-32 | an existing file is never written or changed; an absent file gets the empty dataset when the disk accepts it |
| `Server.DatabaseFile.ReadDatabase` | server.js:34-42 | a fresh object holding the parsed file, or the empty dataset when the file is absent or unreadable; the file is untouched |
| `Server.DatabaseFile.WriteDatabase` | server.js:44-52 | reports success exactly when the write succeeded, and then the file holds the whole object |
| `Server.List` | server.js:66-97 | one read, no write, the `ListReply` of what was read |
| `Server.Create` | server.js:99-200 | 400 with no file access when a required field is falsy; else read then write; 201 with the new record exactly when valid and saved, and then the file holds the dataset with it appended; 500 otherwise with the file unchanged; keeps all keys present |
| `Server.Update` | server.js:202-278 | 404 after only a read when no record holds the id; else 200 with the merged record when saved and the file holds the updated dataset, 500 when not saved with the file unchanged |
| `Server.Delete` | server.js:280-353 | 404 after only a read exactly when no record holds the id; else every such record removed and saved, 200 with the removal message when saved, 500 otherwise with the file unchanged |
| `Cpf.DigitsOnly` | script.js:338 | the stripped string contains only digits and is no longer than the input |
| `Cpf.DigitsOnlyDigits` | script.js:338 | a string of digits is kept whole, every digit in order |
| `Cpf.DigitsOnlyNonDigit` | script.js:338 | a single non-digit is removed |
| `Cpf.DigitsOnlyAppend` | script.js:338 | stripping works piece by piece, so digits keep their order and non-digits vanish wherever they stand |
| `Cpf.ValidateCpf` | script.js:337-347 | acceptance implies exactly eleven digits, not all equal |
| `Cpf.WeightedSumIsTextbookSum` | script.js:342-345 | the `reduce` of `rest(count)` with `count = n + 1` equals the textbook weighted sum of `n` digits |
| `Cpf.TimesTenRule` | script.js:343 | `(10·S) % 11 % 10` equals the textbook check digit: 11 − S mod 11, or 0 when that is 10 or more |
| `Cpf.RestIsCheckDigit` | script.js:342-345 | `rest(10)` and `rest(11)` are the textbook check digits of the first 9 and first 10 digits |
| `Cpf.ValidateCpfIsCheckDigitRule` | script.js:337-347 | accepted exactly when the digits number eleven, are not all equal, and end in both textbook check digits |
| `Cpf.DigitsOnlyIdempotent` | script.js:338 | stripping twice is stripping once |
| `Cpf.ValidateCpfIgnoresFormatting` | script.js:338 | a formatted number validates as its bare digits do |
| `Cpf.ValidateCpfIgnoresNonDigit` | script.js:338 | inserting any non-digit anywhere does not change the verdict |
| `Cpf.ExamplePunctuationIgnored` | script.js:338 | "123.456.789-09" and "12345678909" get the same verdict |
| `Cpf.ExampleAccepted` | script.js:337-347 | "12345678909" is accepted |
| `Cpf.RepeatedDigitPassesChecksumButIsRejected` | script.js:339 | eleven equal digits satisfy both check digits, so only the repeated-digit test rejects them |
| `Slider.NextSlideInRange` | script.js:149-154 | a step of ±1 from a valid slide stays in `[0, totalSlides)` |
| `Slider.NextSlideWraps` | script.js:149-154 | +1 from the last slide gives 0; −1 from 0 gives the last |
| `Slider.NextSlideStepsCancel` | script.js:149-154 | +1 then −1, or −1 then +1, returns to the start |
| `Slider.NextSlideIsNotModular` | script.js:150-151 | a larger step snaps to slide 0 instead of wrapping modulo the count |
| `Slider.AppState.constructor` | script.js:4-8 | the initial state is slide 0 of 0, not loading |
| `Slider.AppState.SetupSlider` | script.js:123-141 | the total is recorded only when the page has testimonials |
| `Slider.AppState.ChangeSlide` | script.js:143-157 | no change without slides; a bad current index throws before any change; otherwise the index becomes `NextSlide`; from a valid slide with ±1 it stays valid and nothing throws |
| `Escape.Entity` | script2.js:433-439 | each special character maps to an entity opening with `&` and closing with `;`; others stay themselves; no entity contains markup |
| `Escape.EscapeHtml` | script2.js:432-441 | the output contains no `<`, `>`, `"` or `'`, is no shorter, and equals the input when it has none of the five specials |
| `Escape.EscapeHtmlAppend` | script2.js:440 | escaping distributes over concatenation |
| `Escape.UnescapeEscapeHtml` | script2.js:432-441 | decoding the five entities gives the original text back |
| `Escape.EscapeHtmlInjective` | script2.js:432-441 | different texts never escape to the same markup |
| `Escape.ExampleTagEscaped` | script2.js:440 | "<b>" escapes to "&lt;b&gt;" |
| `Escape.EscapeValue` | script2.js:440 | escaping a record field yields markup-free text that decodes to `String(v)` |
| `Admin.AttemptOutcome` | script2.js:87-101 | an attempt succeeds exactly when answered with a 2xx status and a non-null body, and then yields that body |
| `Admin.FirstSuccess` | script2.js:85-101 | the first successful attempt among the first `n`, or -1 exactly when all fail |
| `Admin.FetchOutcome` | script2.js:84-114 | `undefined` exactly when no attempt may be made; else the body of the first success; else, with all attempts failed, the error naming the endpoint, the count and the last failure |
| `Admin.AttemptsMade` | script2.js:85-101 | no request with a non-positive count, else between 1 and `retries`; every request before the last failed, and stopping early happens only at a success, so requests stop at the first success |
| `Admin.FetchData` | script2.js:84-114 | the loop settles to `FetchOutcome`, sends `AttemptsMade` requests, and pauses after every failed attempt except the last |
| `Admin.BackoffTotal` | script2.js:111 | `n` pauses add up to 500·n·(n+1) ms |
| `Admin.ThreeFailures` | script2.js:84-114 | with three failures the error is thrown after three requests and 1000 + 2000 = 3000 ms of pauses |
| `Admin.MutationError` | script2.js:139-176 | a PUT or DELETE fails exactly when rejected or answered outside 2xx |
| `Admin.ServerErrorSurfaces` | script2.js:149-151 | a server error reply `{ error: msg }` surfaces as `msg` itself |
| `Admin.BareStatusSurfaces` | script2.js:151 | a failed reply without `error` surfaces as "HTTP <status>" |
| `Admin.NewStatus` | script2.js:348-357 | per collection the first status becomes the second and anything else the first; an unknown type gives `undefined` |
| `Admin.NewStatusInvolution` | script2.js:348-357 | toggling twice from either status of the pair gives it back |
| `Admin.NewStatusNormalises` | script2.js:348-357 | any other status becomes the pair's first |
| `Admin.ToggleRoundTripOnStoredRecord` | script2.js:360 | merged by the server, one toggle flips a new record's status and a second restores the record exactly |
| `Admin.ActiveCount` | script2.js:182 | fails exactly when some matricula is `null`; else at most the number of matriculas, all of them exactly when all are active, zero exactly when none is |
| `Admin.ActiveCountAppend` | script2.js:182 | counting distributes over concatenation |
| `Admin.DeactivationLowersCount` | script2.js:182 | deactivating one active matricula lowers the count by exactly one |
| `Admin.LoadError` | script2.js:59-63 | the load fails exactly when one of the three fetches throws, and then with that fetch's error |
| `Admin.AdminDashboard.constructor` | script2.js:3-12 | the dashboard starts with three empty collections, not loading |
| `Admin.AdminDashboard.LoadDataFromApi` | script2.js:53-81 | on success each collection is its array response or `[]`; on failure the data is unchanged; never left loading |
| `Admin.AdminDashboard.UpdateDashboard` | script2.js:179-207 | shows the active-matricula count and the lead and contato totals, or the statistics error when counting throws; data unchanged |
| `Admin.AdminDashboard.ShowOfflineData` | script2.js:501-510 | all three collections become empty and the figures show zero |
| `Admin.AdminDashboard.ToggleStatus` | script2.js:344-368 | sends the toggled status; only on success reloads and redraws, keeping the old figures when the reloaded matriculas hold `null`; on any failure the data is unchanged and the error alert names it |
| `Admin.AdminDashboard.RemoveItem` | script2.js:371-385 | nothing without confirmation; else sends the delete; only on success reloads and redraws, keeping the old figures when the reloaded matriculas hold `null`; on failure the data is unchanged and the error alert names it |
| `Admin.AdminDashboard.Init` | script2.js:14-50 | when the API test or the load fails, shows the error and falls back to empty data; otherwise loads and draws |

## Left out

- Express plumbing: routing, middleware, CORS, static pages, the global error handler and `app.listen` (server.js:1-16, 54-64, 355-383). `startServer` exiting on an `initDatabase` failure is reduced to `InitDatabase` returning false.
- Real file I/O and JSON text. The file is a `FileState` and a write either succeeds or not.
- Server.DatabaseFile.WriteDatabase: a failed write is taken to leave the old content in place; a partly written file is not modelled.
- Records in the file are JSON objects, and collections are arrays or missing. A collection key holding some other value is not modelled, nor is the 500 "Erro interno do servidor" it or a missing request body would cause.
- The top-level value of `database.json` is a JSON object. A file holding an array (a create then sets a property JSON drops, answering 201 while the record is lost) or `null` (every handler answers 500) is not modelled.
- Request bodies are JSON objects; array or primitive bodies are not modelled.
- Numbers are integers; floating point is not modelled. `calculateReceita`, `getPlanoValue` and the revenue figure are left out for the same reason.
- Ids and timestamps (`Date.now()`, `new Date().toISOString()`) are parameters. Ids are not assumed unique, because nothing makes them so.
- Concurrent requests and the lost updates they can cause are not modelled.
- `fetch`, `await` and `setTimeout`: each network answer is an input and each pause a reported number. The `setInterval` auto-play of the slider and the dashboard's auto-refresh are left out.
- Admin.FetchData: the network's answers are a sequence supplied in advance, at least `retries` long.
- Admin.LoadError: `Promise.all` rejects with whichever fetch fails first in time. The model takes the first failing one in list order.
- Admin.AdminDashboard.UpdateDashboard: table rendering and the revenue figure are not modelled, so errors raised while rendering are not either.
- `confirm()` is the `confirmed` parameter of `RemoveItem`. Alerts are reduced to their kind and message.
- `postData`, `refreshData`, `bindEvents`, `formatDate`, the form handlers and the CPF and phone input masks are not part of this model.
- Escape.JsString: `String(n)` is modelled for integers only.
- Slider.AppState.SetupSlider: the button wiring and the timer are not modelled.
- Cpf.ValidateCpf: the input is a string. `replace` on a value that is not a string is not modelled.

## Findings

| source | as written | input that shows it | evidently intended | confidence | as-written member | corrected member |
|---|---|---|---|---|---|---|
| server.js:69 | `GET /api/<c>` reads `db.<c>.length` for logging before `db.<c> \|\| []` on the next line, so a missing key throws and the handler answers 500 | a `database.json` holding `{}` (or any file lacking the key) | the `\|\| []` fallback answers 200 with an empty list | not executed | `Server.ListMissingKeyFails` | `Server.ListReplyIntended` |
