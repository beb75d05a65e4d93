# QualityWatcher WebdriverIO service: a Dafny model of its publishing core

The service (`index.ts`) runs after a WebdriverIO test run. It reads the per-suite
JSON result files from `./QualityWatcher` and collects the suite ids and the test
records. It then posts one report to the QualityWatcher API, reports how the API
answered, and removes the folder. This project models the deterministic core of
that pipeline in Dafny and proves what it promises:

- `getSuiteId`: the suite id is the value of the first maximal run of decimal
  digits in a file name. A name with no digit has none.
- `validateOptions`: the five required options are checked for truthiness, in a
  fixed order. The first falsy one is reported.
- The file loop of `onComplete`: a duplicate-free `suites` list in first-seen
  order, and the `results` field extended with every record of every readable
  file.
- The publishing step after the loop:
  - the empty-results early return, which also skips the folder removal;
  - the request body and the POST that carries it;
  - what the response handler makes of statuses 200, 500 and the rest;
  - the link logged for a created run.

The file system and the network are inputs:
- the directory listing is a sequence of `FileEntry` values, each a name and its
  parsed JSON, or `None` when reading or parsing failed;
- the write of `results.json` is a boolean;
- the server's answer is a `Response`.

Module layout:
- `Decimal`: digit strings.
- `SuiteId`: `getSuiteId`.
- `JsValues`: JSON values, property access and template-literal text.
- `Options`: the options and `validateOptions`.
- `Collection`: the file loop as specification functions, with their lemmas.
- `Publisher`: everything after the loop.
- `Service`: the `QWWDIOService` class with its `results` field and the
  imperative loop.

Behaviour of the code that the model follows where it differs from what the
declared types suggest. The `userOptions` field types and the error texts (`'includeAllCases' [boolean]`)
speak of types, but the checks test truthiness:

- **Validation is by truthiness, not by type.** `includeAllCases: false`,
  `projectId: 0` and empty strings are all reported as missing. So every
  service that can be built has `includeAllCases` true, and, as long as the
  caller does not change its options object after construction, every request
  it sends has `include_all_cases` true (`Options.AcceptedOptionsIncludeAllCases`,
  `Publisher.RequestsIncludeAllCases`).
- **A file name without a digit** makes `getSuiteId` throw inside the `async`
  callback of `forEach`. The throw happens before the `try`. The callback's
  promise rejects and the loop goes on. That file contributes neither a suite id
  nor records.
- **A file that cannot be read or parsed** still has its suite id recorded. The
  id is pushed before the `try`. The same holds for a file whose JSON is not an
  array, because `data.forEach` throws inside the `try`.
- **Failures in the response handler.** Several failures reach the `.catch`
  handler as something other than the `{ response, data }` object:
  - a network failure;
  - a body that is not JSON;
  - a 200 reply whose body is `null`.

  For these, the handler's own `response.status` throws a TypeError. A non-200,
  non-500 reply without `data.error` also throws, at `data.error.code`. In all
  these cases the outer `catch` logs the error and the folder is *not* removed
  (`HandlerError`).
- The `colors.red(...)` call at index.ts:114 builds a message that is never
  printed. The model emits no diagnostic for it.
- The `forEach(async …)` loop behaves as a sequential fold. Each callback runs up
  to its first `await` in file order. The continuations are queued in the same
  order and run before `onComplete` resumes. So the model's in-order loop gives
  the same `suites` and `results`.

The method `Service.ApiKeyRejectedRun` is a worked example rather than a
property: one well-formed and one unreadable result file of suite 12, answered
with status 500, give `suites == [12]`, the two records in `results`, an
API-key error and a removed folder.

## Model

| member | source | states |
|---|---|---|
| `Decimal.ValueOfFromNat` | index.ts:144 | `parseInt` of the decimal text of any natural gives back that natural |
| `Decimal.LeadingZeros` | index.ts:144 | leading zeros in a digit run do not change the value `parseInt` gives it |
| `SuiteId.GetSuiteIdSpec` | index.ts:142-145 | the result is absent exactly when the name has no digit; otherwise it is the value of a first maximal run of digits |
| `SuiteId.ScanDigitsValue` | index.ts:144 | reading a digit string left to right, as `parseInt` does, gives its decimal value |
| `SuiteId.FirstDigitRunIsSuiteId` | index.ts:142-145 | for any first maximal digit run `s[i..j]` of a name, the suite id is `Value(s[i..j])` (the run is unique) |
| `SuiteId.SuiteIdOfParts` | index.ts:142-145 | a digit-free prefix, a non-empty digit run and a rest not starting with a digit give the run's value as suite id |
| `SuiteId.SuiteIdOfName` | index.ts:142-145 | a digit-free prefix, any leading zeros, the decimal text of `n` and a rest not starting with a digit give suite id `n` |
| `JsValues.GetProp` | index.ts:106-109 | property access throws exactly on undefined and null; a defined result comes from the object's own property |
| `Options.ValidateOptions` | index.ts:147-173 | accepted iff apiKey, testRunName, description, projectId and includeAllCases are all truthy; otherwise the reported field is falsy and every field checked before it is truthy |
| `Options.MissingPropertyMessageNamesField` | index.ts:148-171 | different missing fields give different error messages |
| `Options.AcceptedOptionsIncludeAllCases` | index.ts:163-172 | every accepted configuration has includeAllCases = true, a non-zero projectId and the three strings present |
| `Options.IncludeAllCasesFalseRejected` | index.ts:168-172 | `includeAllCases: false` is rejected as missing even when the other four fields are set |
| `Collection.DedupMembers` | index.ts:47 | pushing an id only when it is not already in the list gives a list without repeats that holds exactly the pushed ids |
| `Collection.DedupFirstSeenOrder` | index.ts:45-47 | the de-duplicated list keeps the ids in the order of their first occurrence |
| `Collection.SuiteIdsNoDuplicates` | index.ts:43-47 | after the loop `suites` has no duplicates |
| `Collection.SuiteIdsMembers` | index.ts:45-47 | an id is in `suites` iff some file name yields it |
| `Collection.SuiteIdsIgnoreContents` | index.ts:46-59 | `suites` depends only on the file names: a file whose contents fail to parse still has its id recorded |
| `Collection.DedupSnoc` | index.ts:47 | step lemma for the loop proof: pushing an id keeps it only when it is not already listed |
| `Collection.SuiteIdsStep` | index.ts:46-47 | one more file appends its id to `suites` exactly when it has one that is not yet there |
| `Collection.CollectedRecordsAppend` | index.ts:45-56 | collecting a concatenated listing appends the records of the second part to those of the first |
| `Collection.CollectedStep` | index.ts:49-56 | step lemma for the loop proof: one more file appends its own records after those of the files before it |
| `Collection.FailedFileContributesNothing` | index.ts:49-59 | a file that fails to parse, or is not a JSON array, adds no records and does not stop the files after it |
| `Collection.CollectedRecordsLength` | index.ts:54-56 | the number of collected records is the sum of the records each file adds |
| `Collection.SameSuiteWithUnreadableFile` | index.ts:45-59 | two files of one suite, the second unreadable, give that suite once and only the first file's records |
| `Publisher.SuccessLinkInjective` | index.ts:108-110 | the success link determines its project segment and run segment |
| `Publisher.NumericSuccessLinkInjective` | index.ts:108-110 | for numeric ids the success link determines the project id and the run id |
| `Publisher.HandleResponse` | index.ts:97-129 | published iff status 200 with a readable non-null body, with the app link built from `projectId` and `id`; API-key error iff status 500 with a readable body; a bad request only for other statuses with an `error` property; a network failure or an unreadable body makes the handler throw |
| `Publisher.BadRequestReply` | index.ts:121-128 | any status other than 200 and 500 with an `error` object gives `Bad Request(<code>): <message>` |
| `Publisher.ErrorReplyWithoutErrorField` | index.ts:121-131 | an error reply without `error` makes the handler throw, and the folder is not removed |
| `Publisher.PublishedLink` | index.ts:104-111 | a 200 reply with numeric `projectId` and `id` links to `https://app.qualitywatcher.com/<projectId>/test-runner/<id>` |
| `Publisher.BuildRequestBody` | index.ts:83-90 | the request body carries testRunName, description, includeAllCases, projectId, suites and results unchanged |
| `Publisher.Publish` | index.ts:62-131 | a request is sent iff results.json was written and `results` is non-empty; it goes to the fixed URL with the bearer API key; empty results give the no-tests diagnostic with no request and no folder removal; the folder is removed iff a request was sent and the handler did not throw |
| `Publisher.RequestsIncludeAllCases` | index.ts:86 | every request a valid service sends has include_all_cases = true |
| `Service.QWWDIOService.constructor` | index.ts:32-33 | the new service holds the given options and an empty `results` |
| `Service.QWWDIOService.Create` | index.ts:32-35 | construction succeeds iff the options are accepted; otherwise it fails with the field validation reports |
| `Service.QWWDIOService.PushAll` | index.ts:54-56 | pushing every record of a parsed array appends exactly that array to `results` |
| `Service.QWWDIOService.CollectFile` | index.ts:45-59 | one pass of the loop turns the `suites` of the first `i` files into that of the first `i + 1`, and appends exactly the records of file `i` to `results` |
| `Service.QWWDIOService.CollectFiles` | index.ts:42-60 | the loop returns `SuiteIds(files)` and leaves `results` as the old `results` followed by `CollectedRecords(files)` |
| `Service.QWWDIOService.OnComplete` | index.ts:41-139 | `results` grows by the collected records and persists across calls; the publish decision is `Publish` over the collected suites and the new `results` |

## Left out

- File-system I/O: `readdirSync`, `readFileSync`, `writeFileSync`, `existsSync`, `rmSync` and `removeReportFolder`. The listing and the parsed contents are inputs. The write of results.json is a success flag. The removal is the `folderRemoved` flag of the decision.
- `onPrepare`: it only calls `removeReportFolder`, which is file-system I/O.
- What results.json contains (`JSON.stringify(this.results)`): JSON text encoding is not modelled.
- `postData` and `node-fetch`: the posted request is an output, and the server's answer is a given `Response`.
- `response.json()` and `JSON.parse`: they are JSON decoding. The model takes a decoded value, or `None` for a failure.
- The `async`/`await` scheduling of the `forEach` callbacks: the loop is modelled as an in-order fold, which gives the same result here.
- The unhandled promise rejection that a digit-free file name leaves behind: its process-level effect (under Node's default `--unhandled-rejections=throw` mode, since Node 15, an uncaught exception that ends the process unless the host installs an `unhandledRejection` listener) is outside the model.
- JavaScript number semantics: `parseInt` on `projectId`, ids beyond 2^53, fractional numbers, NaN and -0. Numbers are unbounded integers.
- Option values whose type is not the declared one (a number for `apiKey`, say): each field holds its declared type or is missing.
- Console and colour output (`ansi-colors`) and the `SevereServiceError` class: the diagnostics are returned `Outcome` values and the missing `Field`.
- The rest of the configuration surface (`email` is carried but never read).
- A missing `./QualityWatcher` folder: `readdirSync` at index.ts:42 throws outside the `try` of index.ts:62, so `onComplete` rejects before collection, with no "No tests were run" message, no write and no request. The listing is always given, so this path is not modelled; an empty listing gives `NoTestsRun` instead.
- Shared options object: `this.options` at index.ts:33 is the caller's own object, not a copy, and index.ts:84-87 reads it again at publish time. The model copies the options once, as a value, at construction, so it assumes nobody changes that object afterwards; `Publisher.RequestsIncludeAllCases` holds under that assumption.
- JsValues.ToText: an object with its own `toString` key (possible in parsed JSON) makes the template literal throw a TypeError, because that property is not callable and the inherited `valueOf` returns the object itself. The model prints every object as "[object Object]", so a 200 reply whose `title` is such an object ends as `Published` in the model and as `HandlerError` in the code.
- JsValues.GetProp: built-in properties of primitives and arrays (such as `length`) are not modelled. None of the keys the service reads is one.
