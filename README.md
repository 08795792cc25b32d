# LMproxy view counter, modelled in Dafny

LMproxy is a small HTTP proxy for a storefront's product view counter. A
client POSTs `{ action, productGid, totalViews }`. The action is
`get_metafield` or `update_metafield`. Two handlers answer it:

- `api/LMserver.js` keeps the counts itself, in a module-level table
  `productViews` from product id to count. It reads an entry or increments it
  by one.
- `LMserver.js` is the App Proxy route. It validates the request, makes one
  GraphQL call to the Shopify Admin API (read the product's `custom.total_views`
  metafield, or set it with `metafieldsSet`) and turns the reply into a
  response. The same file defines `verifyShopifyRequest`, an HMAC-SHA256
  header check. That check is never attached to the route, so the model keeps
  it separate.

Files and modules:

- `js_values.dfy`, module `JsValues`: the request body; the JavaScript value
  semantics the handlers depend on (truthiness, `${}` rendering of a value,
  `parseInt(+c)` of one character); decimal numerals and what they denote.
- `view_counter.dfy`, module `ViewCounter`: `api/LMserver.js`. The class
  `ViewTable` holds the table as a `map<string, nat>` field. Its `Handle`
  method updates that field in place. The method is proved against the
  specification functions `Classify`, `Applied` and `Answered`, and the
  properties of the handler are proved as lemmas about those functions.
- `hmac_check.dfy`, module `HmacCheck`: `verifyShopifyRequest`. The keyed
  hash is a function parameter `hmacBase64(secret, body)`, so it stays
  uninterpreted.
- `proxy_route.dfy`, module `ProxyRoute`: the route of `LMserver.js` as pure
  functions. `Dispatch` is the validation chain. `ReadResponse` and
  `WriteResponse` map the upstream reply to a response. `Route` combines them
  and also reports which upstream call, if any, was made. The upstream reply
  is an input datatype (`GraphQLReply`).

What the code does, stated plainly because it is easy to assume otherwise:

- On the read path, a product with no metafield gets 404, not a count of 0
  (`LMserver.js:80-82`).
- The write path checks only the truthiness of the top-level GraphQL `errors`
  member. The mutation's field-level `userErrors` are never inspected
  (`LMserver.js:135-141`); `ProxyRoute.UserErrorsIgnored` states this.
- `LMserver.js` does not read and then increment. It writes the
  client-supplied `totalViews` and echoes it back (`LMserver.js:110-141`).
  Only `api/LMserver.js` increments.
- The value is written as `${totalViews}` with no brackets, but its type is
  declared `list.number_integer`. It is read back from the single character
  at index 1 of the stored value. So a stored `"[12]"` reads as 1
  (`ProxyRoute.ReadListLeadingDigit`), and a plain `"5"` reads as NaN
  (`ProxyRoute.WrittenValueReadsNaN`). A client sending `totalViews: [5]`
  also writes the bare `"5"` (`ProxyRoute.ArrayTotalViewsWritesBareNumeral`).
- HMAC verification is defined but not applied to the route at all.

The read query asks for `metafields(...)` (plural) but the handler tests
`product.metafield` (singular) (`LMserver.js:71`, `80`). The model takes the
reply's shape as given and does not model what Shopify would send.

## Model

| member | source | states |
|---|---|---|
| `JsValues.Truthy` | LMserver.js:47 | `!!v` is false exactly for undefined, null, false, 0, NaN and the empty string; arrays and objects are truthy |
| `JsValues.Present` | api/LMserver.js:16 | a productGid field is falsy exactly when it is absent or the empty string |
| `JsValues.StartsWith` | LMserver.js:51 | `s.startsWith(prefix)` holds exactly when s is the prefix followed by some rest |
| `JsValues.TemplateString` | LMserver.js:117 | `${v}`: a non-negative count gives its numeral, a negative one a minus sign and the numeral of its magnitude, a string itself, `true` gives "true", an empty array "" |
| `JsValues.TemplateOfSingletonArray` | LMserver.js:117 | `${[n]}` is the bare numeral of n |
| `JsValues.TemplateOfNegative` | LMserver.js:117 | a negative count renders as "-" followed by an all-digit numeral denoting its magnitude |
| `JsValues.LeadingDigit` | LMserver.js:84 | the leading digit is a single digit, and non-zero for a positive number |
| `JsValues.Decimal` | LMserver.js:117 | the numeral that `${n}` produces for a count n: at least one character, all decimal digits, no leading zero for n above 0, at least two characters from 10 on |
| `JsValues.DecimalDenotes` | LMserver.js:117 | the numeral written for n denotes n |
| `JsValues.DecimalInjective` | LMserver.js:117 | different counts are written as different numerals |
| `JsValues.DecimalStartsWithLeadingDigit` | LMserver.js:84 | a numeral's first character is its number's most significant digit |
| `JsValues.ParseIntOfUnaryPlus` | LMserver.js:84 | `parseInt(+c)` of one character: the digit's value for a digit, 0 for JavaScript white space, NaN for anything else; the result is never above 9 |
| `JsValues.TemplateOfCount` | LMserver.js:117 | a non-negative count rendered by a template literal is an all-digit string denoting that count |
| `ViewCounter.ApiReply.Status` | api/LMserver.js:16-32 | a reply carrying a count is 200 and every rejection is 400 |
| `ViewCounter.Lookup` | api/LMserver.js:22 | the stored count when there is an entry, 0 otherwise |
| `ViewCounter.Classify` | api/LMserver.js:14-32 | productGid is checked first (a missing or empty one is rejected whatever the action); a get or an increment happens exactly when the action is `get_metafield` or `update_metafield`, and it is for the given productGid; every other action is rejected as invalid; totalViews plays no part |
| `ViewCounter.Applied` | api/LMserver.js:28 | only an increment changes the table; it adds its own key if absent, sets that key to the previous count (or 0) plus 1, and keeps every other key's value |
| `ViewCounter.Answered` | api/LMserver.js:22-32 | a get reports the stored count or 0; an increment reports the value just stored; rejections are 400 and everything else is 200 |
| `ViewCounter.ViewTable.constructor` | api/LMserver.js:9 | the table starts empty |
| `ViewCounter.ViewTable.Handle` | api/LMserver.js:12-37 | the new table and the reply are those of `Applied` and `Answered` for the request's command, computed against the table before the call |
| `ViewCounter.MissingProductGidRefused` | api/LMserver.js:16-18 | a missing or empty productGid gives 400 with the productGid error, whatever the action (so it precedes the action check), and leaves the table unchanged |
| `ViewCounter.GetReportsStoredCount` | api/LMserver.js:20-24 | a get never changes the table, reports exactly the stored count, and for an unknown product reports 0 without creating an entry |
| `ViewCounter.UnknownActionRefused` | api/LMserver.js:32 | an unknown action with a productGid gives 400 "Invalid action" and leaves the table unchanged |
| `ViewCounter.ReplayUpdates` | api/LMserver.js:26-30 | n update requests for one product, with any totalViews, raise its count by exactly n and leave every other product's count as it was |
| `ViewCounter.CountAfterUpdates` | api/LMserver.js:14-29 | from the empty table, n updates of a product followed by a get report n |
| `ViewCounter.TwoUpdatesThenGet` | api/LMserver.js:9-29 | a fresh `ViewTable` that handles two updates and then a get of the same product reports 2, whatever the updates' totalViews |
| `HmacCheck.Verify` | LMserver.js:22-39 | a missing or empty header gives 400; a present header unequal to the computed digest gives 401; the request proceeds only if the header equals the digest exactly |
| `HmacCheck.ChangedBodyRefused` | LMserver.js:30-36 | under the assumption that a changed body has a different digest, a header that admits one body refuses the changed body with 401 |
| `HmacCheck.Verdict.Status` | LMserver.js:25-36 | a missing header is answered 400 and a mismatch 401; a request that proceeds gets no reply here |
| `ProxyRoute.ErrorStatus` | LMserver.js:47-147 | ActionMissing, ProductGidInvalid, TotalViewsMissing and ActionInvalid are 400, MetafieldNotFound is 404, UpdateFailed and ShopifyCallFailed are 500 |
| `ProxyRoute.Response.Status` | LMserver.js:47-147 | a success is 200 and a failure has its error's status |
| `ProxyRoute.HasProductPrefix` | LMserver.js:51 | the productGid passes exactly when it is present and is `gid://shopify/Product/` followed by some rest |
| `ProxyRoute.SetInput` | LMserver.js:110-120 | the mutation targets the given product's `custom.total_views` with type `list.number_integer`, and its value is `${totalViews}`: a numeral denoting a non-negative count, "-" and a numeral denoting the magnitude of a negative one, or a string unchanged |
| `ProxyRoute.Dispatch` | LMserver.js:45-144 | the checks run in order: a falsy action gives ActionMissing; then a productGid that is missing or lacks the prefix `gid://shopify/Product/` gives ProductGidInvalid; then a get queries that product, an update with a falsy totalViews gives TotalViewsMissing, the metafieldsSet call is made exactly for an update with a truthy totalViews and carries `SetInput` of it, and any other action gives ActionInvalid |
| `ProxyRoute.FoundMetafield` | LMserver.js:80 | `data.data?.product?.metafield` is found exactly when the reply has data, a product and a metafield, and is that metafield |
| `ProxyRoute.ReadCount` | LMserver.js:84 | the count is derived from the metafield value's character at index 1 alone; a value shorter than two characters gives NaN; a numeric result is a single digit |
| `ProxyRoute.ReadResponse` | LMserver.js:77-86 | a reply without `data.product.metafield` gives 404; a transport failure, or a metafield whose value is null, gives 500; the response succeeds exactly when the metafield and its value exist, and then carries the value's ReadCount |
| `ProxyRoute.WriteResponse` | LMserver.js:131-141 | a reply with `errors` gives UpdateFailed; it succeeds exactly when there are no `errors` and `data.metafieldsSet` is present, and then echoes the requested totalViews unchanged; every failure is 500 |
| `ProxyRoute.Route` | LMserver.js:42-149 | an upstream call is made exactly when the chain does not refuse; every refusal is a 400 with the chain's error; otherwise the call is the one Dispatch chose and the response is read from the reply by the matching path |
| `ProxyRoute.RefusalIgnoresUpstream` | LMserver.js:47-92 | a refused request makes no upstream call and its response does not depend on any upstream reply |
| `ProxyRoute.MissingActionFirst` | LMserver.js:47-49 | without a truthy action the response is 400 ActionMissing, whatever productGid and totalViews hold |
| `ProxyRoute.BadProductGidRefused` | LMserver.js:51-53 | with an action present, a productGid that is absent or lacks the product prefix gives 400 and no call |
| `ProxyRoute.FalsyTotalViewsRefused` | LMserver.js:90-92 | an update with totalViews undefined, null, false, 0, NaN or "" gives 400 and no call |
| `ProxyRoute.UnknownActionRefused` | LMserver.js:144 | any other action that passes the first two checks gives 400 and no call |
| `ProxyRoute.UpdateEchoesTotalViews` | LMserver.js:89-141 | a valid update with a truthy totalViews, answered without `errors` and with `data.metafieldsSet`, makes the metafieldsSet call with `SetInput` and answers 200 echoing totalViews |
| `ProxyRoute.GetReadsMetafield` | LMserver.js:58-86 | a valid get whose reply holds the metafield's value queries that product and answers 200 with that value's ReadCount |
| `ProxyRoute.ArrayTotalViewsWritesBareNumeral` | LMserver.js:117 | a totalViews sent as `[n]` is written as the bare numeral of n |
| `ProxyRoute.ReadSingleDigitList` | LMserver.js:84 | a stored `"[d]"` with one digit d reads as d |
| `ProxyRoute.ReadListLeadingDigit` | LMserver.js:84 | a stored `"[n]"` reads as n's leading digit, so any n from 10 on is misread |
| `ProxyRoute.WrittenValueReadsNaN` | LMserver.js:117 | a one-digit numeral written without brackets, as `${totalViews}` writes it, reads back as NaN on the get path |
| `ProxyRoute.ReadCountSecondCharOnly` | LMserver.js:84 | two metafield values with the same character at index 1 read as the same count |
| `ProxyRoute.UserErrorsIgnored` | LMserver.js:135-141 | the mutation's field-level userErrors never change the write response |

## Left out

- Express and CORS setup, the OPTIONS preflight handler, body parsing and `export default app`: these are framework plumbing.
- Loading the environment (`dotenv`, `process.env`): the shared secret is a parameter of `HmacCheck.Verify`. The case of an unset secret, where the HMAC computation throws, is not modelled.
- The `fetch` calls, the construction of the GraphQL query strings and `response.json()`: the upstream reply is an input of `ProxyRoute.Route`. Any failure there, including a reply that is not JSON, is the one constructor `TransportFailed`, which maps to 500.
- The HMAC-SHA256 computation, base64 encoding and `JSON.stringify` of the body: `hmacBase64` and the serialised body are opaque parameters.
- The try/catch 500 path of `api/LMserver.js`, which only an absent body or a non-string productGid (left out below) could reach.
- `console.log` output.
- Non-string productGid values and JavaScript object-key quirks such as `__proto__`: productGid is `Option<string>`.
- A truthy non-string productGid in `LMserver.js` would make `startsWith` throw outside the try block. That case is not modelled.
- An action that is a non-string value is modelled by its truthiness and by strict equality with the two action names.
- The members of a JSON object: `JsValue.Obj` stands for any plain object, so an object whose members change how it renders (a `toString` member, say) is not modelled; arrays are modelled element by element.
- JavaScript numbers beyond integers: fractions, infinities and negative zero are not modelled. `JsValue.Num` holds an unbounded integer.
- Integers above 2^53 are not rendered as JavaScript renders them: a JSON number is rounded to a double, and `${}` writes the shortest digits that round-trip to that double (so 2^60 is written "1152921504606847000"), and from 10^21 on it uses exponential form; the model writes `Decimal(n)` of the exact integer.
- JsValues.Decimal, JsValues.TemplateString, ProxyRoute.SetInput: the numeral they give, and `DigitsValue(m.value) == totalViews.n` in SetInput, match the source only for counts up to 2^53, because of the double rounding above.
- The counts in `ViewCounter`'s table are unbounded naturals, while JavaScript's doubles stop changing under `+ 1` past 2^53.
- The NaN the get path can return is serialised by `res.json` as `null`; the model keeps it as `NaN`.
- JavaScript strings index UTF-16 code units, while Dafny strings index Unicode scalar values. For a metafield value whose first character lies outside the Basic Multilingual Plane, `value[1]` differs.
- `async`/`await` and concurrent requests: the lost-update race on `productViews` (and on the upstream metafield) is a concurrency concern outside this sequential model.
