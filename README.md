# Feishu bitable reader — a Dafny model

This project models the server-side client and the record helpers of a small
SvelteKit application. The application reads every record of one Feishu
"bitable" (a spreadsheet-like table). It groups the records by company and
project for display. It can also open a record's directory in a local editor
through an app URL.

The model has four modules, one file each:

- `wrappers.dfy` (`Wrappers`): `Option` and `Result`.
- `js_strings.dfy` (`JsStrings`): the JavaScript string primitives the code relies on.
  These are `join`, the default string order of `sort` (with a verified insertion sort for
  `Array.from(set).sort()`), `String(n)` for integers, ASCII `toLowerCase` and `endsWith`.
- `feishu.dfy` (`Feishu`): `src/lib/server/feishu.ts`. It holds:
  - the record and response shapes;
  - the settings read from the environment, and `validateConfig`;
  - the token cache, as class `FeishuClient`. Its fields `cachedToken` and `tokenExpiry`
    are the module-level variables of the source. Its methods overwrite them as the source does;
  - the pagination loop, as method `FetchAllPages`.
- `data.dfy` (`DataUtils`): `src/lib/utils/data.ts`. It holds `extractText`, `getUniqueCompanies`,
  `groupByCompany`/`groupByProject`, `getAbsolutePath`, `getAppProtocol` and `generateAppUrl`.

How the environment is modelled:

- **Remote service.** Each network call's reply is a parameter, of type
  `Reply<T> = Delivered(body) | Unreachable(reason)`. `Unreachable` stands for a transport or
  JSON failure.
- **Pages.** The listing replies are a finite script `pages`. In it, every reply but the last
  continues (delivered, `code == 0`, `has_more`) and the last does not (`IsCompleteScript`).
- **Requests.** The requests the client would send are returned as values (`AuthRequest`,
  `PageRequest`), so that contracts can speak of them.
- **Clock.** `Date.now()` becomes two integer parameters, in milliseconds. `now` is the reading
  taken for the cache check. `replyTime` is the reading taken after the authentication reply
  arrives, which the source uses for the new expiry.

Two points of the fetch protocol, as the code has them:

- The code obtains the token once per fetch, before the loop (`feishu.ts:96`). It does not
  obtain it once per page.
- A reply with `has_more` true but no `page_token` is not treated as an error. The next request
  is then sent without a page token, as at `feishu.ts:109-111`.

## Model

| member | source | states |
|---|---|---|
| `Feishu.Error.Message` | src/lib/server/feishu.ts:76-78 | the thrown message of an authentication or fetch error ends with the server's `msg` and differs from it |
| `Feishu.ConfigFromEnv` | src/lib/server/feishu.ts:46-50 | an empty or unset variable reads as ""; each of the four required settings is the variable's value when set and "" when unset; the endpoint is a set, non-empty `FEISHU_API_ENDPOINT`, and `https://open.feishu.cn` when it is unset or empty |
| `Feishu.MissingNames` | src/lib/server/feishu.ts:150-152 | the result keeps the names' order; it holds every name whose value is empty, and only such names |
| `Feishu.ValidateConfig` | src/lib/server/feishu.ts:142-158 | `missing` lists exactly the required settings that are empty, in the order FEISHU_APP_ID, FEISHU_APP_SECRET, FEISHU_TABLE_APP_TOKEN, FEISHU_TABLE_ID; `valid` holds iff `missing` is empty iff all four are set |
| `Feishu.PageRequestFor` | src/lib/server/feishu.ts:107-119 | a listing request goes to the configured endpoint, app token and table, with page size 500 and the given bearer; it carries the held page token when that token is non-empty and no page token otherwise |
| `Feishu.AllItemsSnoc` | src/lib/server/feishu.ts:127 | appending a page's items after all earlier pages' items is the same as collecting over the longer page list |
| `Feishu.ExpectedRequests` | src/lib/server/feishu.ts:102-130 | a complete walk sends exactly one listing request per reply |
| `Feishu.FetchAllPages` | src/lib/server/feishu.ts:97-132 | the requests sent are one per page, the first without a page token and each later one with the previous reply's page token; the result is every page's items in page order, or the last reply's error with no partial list |
| `Feishu.FeishuClient.constructor` | src/lib/server/feishu.ts:41-42 | the cache starts with no token and expiry 0 |
| `Feishu.FeishuClient.GetTenantAccessToken` | src/lib/server/feishu.ts:56-89 | with a non-empty cached token and `now < tokenExpiry`, returns it, sends nothing and changes nothing; otherwise sends one authentication request; on `code == 0` caches exactly the returned token until `replyTime + (expire - 600) * 1000` (with `expire <= 600` never valid from `replyTime` on); on `code != 0` or a transport failure fails with that error and leaves the cache as it was |
| `Feishu.FeishuClient.GetTableRecords` | src/lib/server/feishu.ts:95-137 | the token is obtained once, before any listing request, and authentication is requested only when the cache is not valid; if it fails, no page is requested and the cache is unchanged; otherwise every listing request carries that one token and the result is the walk's |
| `Feishu.WalkRequests` | src/lib/server/feishu.ts:98-119 | the first request carries no page token; request k+1 carries reply k's page token exactly when it is non-empty; all requests carry the same bearer and page size 500 |
| `Feishu.WalkFailsOnlyOnLastPage` | src/lib/server/feishu.ts:123-136 | the fetch fails exactly when the reply that ends the walk is an error; on success that reply reported `has_more == false` |
| `Feishu.TwoPageScenario` | src/lib/server/feishu.ts:97-132 | pages `[A, B]` (token "T1", more) then `[C]` (no more) give `[A, B, C]`, the second request carrying "T1" |
| `JsStrings.JoinSnoc` | src/lib/utils/data.ts:9-11 | joining one more part appends the separator and that part |
| `JsStrings.JoinLength` | src/lib/utils/data.ts:9-11 | a join is as long as its parts plus one separator per gap |
| `JsStrings.LessIrreflexive` | src/lib/utils/data.ts:30 | the string order used by `sort` is irreflexive |
| `JsStrings.LessTrichotomy` | src/lib/utils/data.ts:30 | any two distinct strings are ordered one way or the other |
| `JsStrings.LessTransitive` | src/lib/utils/data.ts:30 | the string order is transitive |
| `JsStrings.AscendingIsDistinct` | src/lib/utils/data.ts:30 | a strictly ascending list has no repeated element |
| `JsStrings.Insert` | src/lib/utils/data.ts:30 | inserting into a strictly ascending list keeps it strictly ascending and adds exactly the new element |
| `JsStrings.SortDistinct` | src/lib/utils/data.ts:30 | the sorted list is strictly ascending and has exactly the input's elements |
| `JsStrings.NatToDecimal` | src/lib/utils/data.ts:16 | `String(n)` of a natural number is a non-empty run of digits without a leading zero |
| `JsStrings.DecimalRoundTrip` | src/lib/utils/data.ts:16 | reading back the decimal form of `n` gives `n` |
| `JsStrings.IntToString` | src/lib/utils/data.ts:16 | a negative number is "-" followed by the digits of its magnitude |
| `JsStrings.ToLowerAscii` | src/lib/utils/data.ts:92 | same length; no upper-case ASCII letter remains; each upper-case letter is lowered and every other character kept |
| `DataUtils.ItemDisplaysAppend` | src/lib/utils/data.ts:9-11 | the texts mapped from two lists placed one after the other are the first list's texts followed by the second's |
| `DataUtils.ExtractText` | src/lib/utils/data.ts:6-17 | an absent or falsy field gives ""; a string gives itself; a link or text object gives its `text`; a list gives its elements' texts joined by ", "; a truthy number or boolean gives its string form |
| `DataUtils.ExtractTextListSnoc` | src/lib/utils/data.ts:8-11 | one more list element extends the text by ", " and that element's text |
| `DataUtils.ExtractTextListLength` | src/lib/utils/data.ts:8-11 | a list's text is its elements' texts plus two characters per separator |
| `DataUtils.GetUniqueCompanies` | src/lib/utils/data.ts:22-31 | the result is strictly ascending (sorted, no repeats) and holds exactly `String(company)` of every record whose company field is truthy |
| `DataUtils.FirstOccurrencesDistinct` | src/lib/utils/data.ts:41-43 | the keys of a grouping are distinct and are exactly the keys that occur |
| `DataUtils.SelectSound` | src/lib/utils/data.ts:44 | a group holds only records of its own key |
| `DataUtils.SelectComplete` | src/lib/utils/data.ts:44 | every record is in the group of its own key |
| `DataUtils.SelectAbsent` | src/lib/utils/data.ts:41-43 | a key no record has selects no record |
| `DataUtils.KeysOfSnoc` | src/lib/utils/data.ts:40 | one more record adds its key at the end of the key list |
| `DataUtils.SelectSnoc` | src/lib/utils/data.ts:44 | one more record is appended to its own key's group and leaves every other group as it was |
| `DataUtils.GroupStep` | src/lib/utils/data.ts:39-45 | one loop step (open an empty group for a new key, then push the record) keeps the state a grouping of the records seen so far |
| `DataUtils.GroupBy` | src/lib/utils/data.ts:36-48 | the keys are the records' keys in first-appearance order; each key's group is exactly the records with that key, in input order; no other key is present |
| `DataUtils.SelectedSizeSnoc` | src/lib/utils/data.ts:44 | one more record adds one to the summed group sizes for each occurrence of its key |
| `DataUtils.SelectedSizeOfAllKeys` | src/lib/utils/data.ts:36-48 | summed over the distinct keys, the groups hold as many records as the input |
| `DataUtils.GroupingIsPartition` | src/lib/utils/data.ts:36-48 | keys are distinct; every record lies in its own key's group; groups hold only records of their key; group sizes sum to the input length |
| `DataUtils.GroupByCompany` | src/lib/utils/data.ts:36-48 | groups by `String(company)`, a record without a company going under ""; the group sizes sum to the input length |
| `DataUtils.GroupByProject` | src/lib/utils/data.ts:53-65 | groups by `String(project)`, a record without a project going under "未分类"; the group sizes sum to the input length |
| `DataUtils.GetAbsolutePath` | src/lib/utils/data.ts:70-74 | an empty base gives `relativePath`; otherwise the result starts with the base, ends with `relativePath`, and one "/" is inserted between them only when the base does not end with one |
| `DataUtils.GetAppProtocol` | src/lib/utils/data.ts:79-93 | a listed name maps through the table; any other name gives its lower-case form; the result has no upper-case ASCII letter, is empty only for "", and has no ':' when the name has none |
| `DataUtils.ProtocolAliases` | src/lib/utils/data.ts:84-90 | "VSCode" and "Visual Studio Code" give "vscode"; "IntelliJ" and "IntelliJ IDEA" give "idea"; "Sublime Text" gives "subl" |
| `DataUtils.AppProtocolAsWritten` | src/lib/utils/data.ts:80-92 | the lookup with inherited members agrees with `GetAppProtocol` on every name that is not an `Object.prototype` member |
| `DataUtils.InheritedNameEscapesFallback` | src/lib/utils/data.ts:80-92 | for "toString" the lookup yields the inherited function, not "tostring" |
| `DataUtils.GenerateAppUrl` | src/lib/utils/data.ts:98-101 | the URL ends with the path |
| `DataUtils.AppUrlRoundTrip` | src/lib/utils/data.ts:98-101 | for a name without ':', splitting the URL at its first ':' and the "://file/" after it gives back `getAppProtocol(appName)` and the path |

## Left out

- HTTP transport, JSON parsing, `URL` construction and the `Authorization` header text are not modelled. Requests are values and replies are parameters. A failed transport or parse is one `Unreachable(reason)` case.
- `Date.now()` is not modelled. The two clock readings are parameters.
- `async`/`await` is not modelled: the flow is sequential.
- Concurrent refreshes of the token cache are not modelled, since each method runs to completion.
- `console.error` logging has no effect on results and is not modelled.
- Reading `$env/dynamic/private` is not modelled. `ConfigFromEnv` takes the environment as a map.
- The `total` field of a listing reply is carried but not used, as in the source.
- A server whose replies never report `has_more == false` would make the source loop forever. The model requires a finite, complete script of replies (`IsCompleteScript`).
- `src/lib/stores/settings.ts` is not part of this model. It is a `localStorage`-backed Svelte store with no logic of its own.
- `src/routes/api/data/+server.ts` is not part of this model. It is HTTP glue that calls `validateConfig` and `getTableRecords` and shapes the JSON reply.
- Field values are limited to the tagged union `FieldValue`: string, integer, boolean, link object, text object, and list of strings or text objects. Fractional numbers, `NaN`, `null` and other object shapes are left out.
- `Num` and `TokenResponse.expire` stand for integers in JavaScript's safe range (magnitude below 2^53). Above it a JavaScript number loses exactness, and from 1e21 up `String(n)` uses exponent form (`"1e+21"`), so `IntToString` and `NatToDecimal` describe `String(n)` only on safe integers.
- ExtractText: a text object inside a list whose `text` is empty contributes "" here. The source's `item.text || item` would contribute `[object Object]`.
- ToLowerAscii: lowers ASCII letters only, whereas JavaScript's `toLowerCase` also lowers non-ASCII letters.
- Less: orders strings by Unicode code point. JavaScript's default sort compares UTF-16 code units. The two orders differ only for characters outside the Basic Multilingual Plane.
- SortDistinct: also drops repeated elements, which `sort` does not. Its input here always comes from a `Set`, so for that input the result is the same.
- GroupBy: returns the `Map` as a value, a key list plus a map. In the source, group arrays are mutated in place, and their aliasing is not observable by callers.

## Findings

| source | as written | input that shows it | evidently intended | confidence | as-written member | corrected member |
|---|---|---|---|---|---|---|
| src/lib/utils/data.ts:80-92 | `protocols[appName]` also finds the members that the object literal inherits from `Object.prototype`. These are functions, so they are truthy and are returned in place of the lower-case fallback | `getAppProtocol("toString")` returns the function `Object.prototype.toString`. `generateAppUrl` then begins with that function's source text, not with "tostring" | an own-property lookup (`Object.hasOwn(protocols, appName)`), with every other name lowered | medium (not executed) | `DataUtils.AppProtocolAsWritten`, `DataUtils.InheritedNameEscapesFallback` | `DataUtils.GetAppProtocol` (always a lower-case string), used by `DataUtils.GenerateAppUrl` |
