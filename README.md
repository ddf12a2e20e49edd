# freshdesk-vtex-orders: order normalisation, in Dafny

This project models the data logic of a help-desk widget. The widget shows a
customer's orders from the VTEX commerce platform. All of that logic lives in
`app/scripts/modal.js`:

- **E-mail cleaner** (`limpiarCorreoVtex`). VTEX appends a tenant suffix to the
  domain of customer e-mails ("ana@mail.com-cl"); the cleaner strips it.
- **Status classifier.** It maps a raw VTEX status code to one of three display
  buckets: `Entregado`, `Procesando` or `Enviado`. The source writes the rule
  twice, once for the detail record and once for the pill in the order list.
  Both copies are modelled and proved to agree.
- **Order remapper** (`remapVtexOrderToLocalStructure`). It flattens VTEX's
  nested order detail into the local record the detail window displays.
- **Cancellation decision** (`cancelOrderFDK`). Once the host's `cancelOrder`
  template call has returned or thrown, this decides between `{success: true}`
  and `{success: false, message}`.

Modules, one per component, with shared helpers first:

- `Wrappers` (`wrappers.dfy`): `Option`. `None` usually stands for a
  JavaScript property that is absent, `undefined` or `null`. Two uses are
  wider: the e-mail cleaner's `None` is any value that is not a string, and
  a thrown error's `responseBody` is `None` also when its `response` is the
  empty string (it is falsy, so the code skips it).
- `JsText` (`js_text.dfy`): the JavaScript string operations the code uses.
  These are truthiness and `||` on optional strings, `split` with a
  one-character separator, `trim`, and `${n}` for a status number.
- `VtexEmail` (`vtex_email.dfy`): the e-mail cleaner and its properties.
- `OrderStatus` (`order_status.dfy`): the classifier, the list pill, and the
  proof that the two agree.
- `OrderRemap` (`order_remap.dfy`): the vendor and local records, and the
  remapper.
- `OrderCancel` (`order_cancel.dfy`): the cancellation outcome and the decision.
- `Scenarios` (`scenarios.dfy`): worked examples on concrete inputs.

Modelling choices:

- **All pure.** The core has no loops. It changes state in place only twice:
  `localOrder.estado` is overwritten after the object is built, and
  `errorMessage` is reassigned in steps inside `cancelOrderFDK`. Each of those
  is written here as a pure function with the same priority order.
- **Amounts.** Integer minor units (`Option<int>`) become major units as
  `Option<real>`, divided by 100. `None` on the result stands for the `NaN`
  that `undefined / 100` gives.
- **JSON parsing.** It is abstracted to its outcome, parsed or not parsed. A
  body that parses to `null` is modelled as not parsed, because the property
  reads on lines 161 and 179 throw on `null` and land in the same `catch`.

Behaviour of the code that is easy to miss:

- **Second '@'.** The cleaner keeps only the first two pieces of
  `split('@')`, so anything after a second '@' is dropped
  (`"a@b.cl@c.cl"` → `"a@b.cl"`).
- **Field order when the call throws.** The thrown branch reads top-level
  `message` before `error.message`. The returned branch reads them the other
  way round.
- **Thrown error with a parsed body but no message.** If the thrown error's
  body parses but carries neither field, the result is the literal
  `Error desconocido al cancelar la orden.`. The error's own `message` is not
  consulted then.
- **Message prefixes.** Failure messages keep the source's prefixes: `API: `
  for a returned response, and `Error  al cancelar la orden: ` (two spaces)
  for a thrown error.

## Model

| member | source | states |
|---|---|---|
| `JsText.Split` | app/scripts/modal.js:133-134 | `split(c)` gives at least one piece, and at least two exactly when `c` occurs |
| `JsText.SplitJoin` | app/scripts/modal.js:133-134 | no piece of `split(c)` contains `c`, and joining the pieces with `c` gives the string back |
| `JsText.SplitHead` | app/scripts/modal.js:134 | `split(c)[0]` is the longest prefix without `c`: it ends at the end of the string or just before a `c` |
| `JsText.SplitSecond` | app/scripts/modal.js:133 | the second piece of `split('@')` is the first piece of what follows the first '@' |
| `JsText.IndexOf` | app/scripts/modal.js:133 | the first occurrence of a character: it is there, and no earlier position holds it |
| `JsText.Truthy` | app/scripts/modal.js:454 | a missing property and the empty string are both falsy; a truthy property is a non-empty string |
| `JsText.Or` | app/scripts/modal.js:454 | the or-operator on a string property `a` and a string `b` gives `a` when it is truthy and `b` otherwise, so it is never empty when `b` is not |
| `JsText.OrEmpty` | app/scripts/modal.js:438 | the property or-ed with '' is the property when present and "" when missing |
| `JsText.TrimStart` | app/scripts/modal.js:438 | the start-trimmed string is a suffix of the input that does not start with whitespace |
| `JsText.TrimEnd` | app/scripts/modal.js:438 | the end-trimmed string is a prefix of the input that does not end with whitespace |
| `JsText.Trim` | app/scripts/modal.js:455 | `trim()` gives a string no longer than the input with no whitespace at either end |
| `JsText.TrimSpec` | app/scripts/modal.js:438 | `trim()` removes only a whitespace prefix and a whitespace suffix, and leaves no whitespace at either end |
| `JsText.TrimTidy` | app/scripts/modal.js:455 | a string with no whitespace at either end trims to itself |
| `JsText.TrimAllWhitespace` | app/scripts/modal.js:438 | a string of whitespace trims to "" |
| `JsText.Decimal` | app/scripts/modal.js:156 | `${status}` is a non-empty run of decimal digits with no leading zero |
| `JsText.DecimalRoundTrip` | app/scripts/modal.js:156 | reading the rendered digits back gives the status number |
| `VtexEmail.CleanEmail` | app/scripts/modal.js:124-143 | a non-string comes back as it was; a string without '@' comes back unchanged; a string always gives a string |
| `VtexEmail.CleanEmailParts` | app/scripts/modal.js:133-136 | with an '@': the result is the part before the first '@', then '@', then the second `@`-piece up to its first '-' |
| `VtexEmail.KeptDomainSpec` | app/scripts/modal.js:133-134 | the kept domain is the longest prefix after the first '@' holding neither '@' nor '-' |
| `VtexEmail.CleanEmailTruncates` | app/scripts/modal.js:131-136 | the result is a prefix of the address, cut just before the first '-' or '@' after the first '@', or at its end |
| `VtexEmail.CleanEmailAt` | app/scripts/modal.js:131-136 | the cut position is unique, so an address whose cut is known cleans to exactly that prefix |
| `VtexEmail.CleanEmailShape` | app/scripts/modal.js:133-136 | the result has exactly one '@', the original user part before it, and no '-' after it |
| `VtexEmail.CleanEmailIdempotent` | app/scripts/modal.js:124-143 | cleaning twice is the same as cleaning once |
| `OrderStatus.Classify` | app/scripts/modal.js:462-468 | `Entregado` exactly for invoiced/delivered, `Procesando` exactly for handling/ready-for-handling, `Enviado` for every other code, an absent one included |
| `OrderStatus.EstadoText` | app/scripts/modal.js:463-467 | the stored `estado` literal is always `Entregado`, `Procesando` or `Enviado` |
| `OrderStatus.EstadoTextInjective` | app/scripts/modal.js:462-468 | the three literals are distinct, so the literal determines the bucket |
| `OrderStatus.ListPill` | app/scripts/modal.js:276-282 | the list pill's text is always "Pagado/Entregado", "En Preparación" or "Enviado" |
| `OrderStatus.ListPillAgreesWithEstado` | app/scripts/modal.js:276-282 | for every status, the list's duplicate rule gives the pill of the bucket the detail record stores |
| `OrderStatus.PillOf` | app/scripts/modal.js:277-281 | each bucket's pill has one of the three pill texts and one of the three pill classes |
| `OrderStatus.PillLabelDeterminesEstado` | app/scripts/modal.js:276-282 | different buckets show different pill texts |
| `OrderRemap.MajorUnits` | app/scripts/modal.js:440 | the amount exists exactly when the minor-unit value does, and 100 times it is the minor-unit value |
| `OrderRemap.Profile` | app/scripts/modal.js:433 | the client profile, or one with every field missing when there is none |
| `OrderRemap.ShippingAddress` | app/scripts/modal.js:434 | the shipping address when both `shippingData` and its `address` are there, otherwise one with every field missing |
| `OrderRemap.FullName` | app/scripts/modal.js:438 | the customer name has no whitespace at either end, and is "" when neither name is there |
| `OrderRemap.City` | app/scripts/modal.js:454 | `ciudad` is never empty and is the city, the neighbourhood or "No disponible" |
| `OrderRemap.Street` | app/scripts/modal.js:455 | `calle` has no whitespace at either end |
| `OrderRemap.StreetKeepsComma` | app/scripts/modal.js:455 | trimming never removes the comma between street and number |
| `OrderRemap.RemapItem` | app/scripts/modal.js:443-447 | `name`→`nombre` and `quantity`→`cantidad` are copied; `precio` times 100 is `price` |
| `OrderRemap.RemapItems` | app/scripts/modal.js:443-447 | the mapped list has the input's length, and entry i is the mapped item i |
| `OrderRemap.Remap` | app/scripts/modal.js:432-471 | id and date copied; `cliente`, `ciudad` and `calle` are the name, city and street above; `estado` is the classifier's bucket of `status`; total times 100 is `value`; items mapped with the same length and order; e-mail cleaned; phone, document and postal code verbatim |
| `OrderRemap.DetailForWindow` | app/scripts/modal.js:558-564 | a failed detail fetch (`null`) shows nothing; a fetched detail is shown as exactly its remapped record, with the classified `estado` |
| `OrderRemap.RemapIgnoresDescription` | app/scripts/modal.js:441-468 | changing `statusDescription` changes nothing in the local record: `Remap` does not read it, since the source's first write of it to `estado` (line 442) is always overwritten (lines 462-468) |
| `OrderRemap.EstadoOnlyFromStatus` | app/scripts/modal.js:462-468 | `estado` is one of the three literals, and two orders with the same status get the same `estado` |
| `OrderRemap.CityFallback` | app/scripts/modal.js:454 | `ciudad` is `city`, else `neighborhood`, else "No disponible", with empty strings falling through; it is never empty |
| `OrderRemap.FullNameCases` | app/scripts/modal.js:438 | for name parts without whitespace at their ends: `cliente` is "first last", or the one name present, or "" when both are missing |
| `OrderRemap.StreetCases` | app/scripts/modal.js:455 | for street and number without whitespace at their ends: `calle` is "street, number"; without a number "street,"; without a street ", number"; with neither "," |
| `OrderRemap.RemapEmptyRecord` | app/scripts/modal.js:432-458 | remapping `{}` gives `cliente` "", `ciudad` "No disponible", `calle` ",", no items, status `Enviado`, and every copied field absent |
| `OrderCancel.ErrorMessageOf` | app/scripts/modal.js:159 | `error.message` of a body, missing when `error` is |
| `OrderCancel.HttpFallback` | app/scripts/modal.js:156 | the fallback starts with "Error HTTP " and ends with ": " and the status text, or ": Error desconocido" when there is none |
| `OrderCancel.ReturnedMessage` | app/scripts/modal.js:156-163 | the message for a non-success response is `error.message`, else `message`, else `Error HTTP <status>: <statusText or 'Error desconocido'>`; it is never empty |
| `OrderCancel.ThrownMessage` | app/scripts/modal.js:172-187 | with a parsed body: `message`, else `error.message`, else the unknown-error literal; with no body, or one that does not parse: the error's own message, else the literal; it is never empty |
| `OrderCancel.CancelDecision` | app/scripts/modal.js:145-192 | success exactly for a returned status 200 or 204; any other status fails with "API: " + the response message; a thrown call fails with "Error  al cancelar la orden: " + the thrown message |
| `OrderCancel.FailureMessageNonEmpty` | app/scripts/modal.js:168-190 | every failure message is one of the two prefixes followed by something more |
| `OrderCancel.OppositePriorities` | app/scripts/modal.js:159-181 | a body carrying both fields yields `error.message` on a returned response but `message` on a thrown error |
| `OrderCancel.UnparsableBodyLikeNoBody` | app/scripts/modal.js:173-188 | on a thrown error, an unparsable or `null` body gives the same result as no body |
| `OrderCancel.HttpFallbackShowsStatus` | app/scripts/modal.js:156 | the digits in the HTTP fallback message read back as the status |
| `Scenarios.CleanEmailStripsSuffix` | app/scripts/modal.js:133-136 | "ana@mail.com-cl" cleans to "ana@mail.com" |
| `Scenarios.CleanEmailKeepsPlainAddress` | app/scripts/modal.js:133-136 | "ana@mail.cl" is kept as it is |
| `Scenarios.CleanEmailDropsAfterSecondAt` | app/scripts/modal.js:133 | "a@b.cl@c.cl" cleans to "a@b.cl" |
| `Scenarios.CleanEmailWithoutAt` | app/scripts/modal.js:126-129 | "not-an-email" comes back unchanged |
| `Scenarios.ClassifyExamples` | app/scripts/modal.js:462-468 | invoiced → Entregado, handling → Procesando, an unknown, empty or absent code → Enviado |
| `Scenarios.RemapAnaOrder` | app/scripts/modal.js:432-471 | a complete delivered order remaps to the expected flat record: trimmed name, cleaned e-mail, amounts divided by 100, and "street, number" |
| `Scenarios.CancelSuccessExamples` | app/scripts/modal.js:152-153 | statuses 204 and 200 succeed whatever the body |
| `Scenarios.CancelVendorMessageExample` | app/scripts/modal.js:158-168 | a 422 with `{"error":{"message":"Order already shipped"}}` gives "API: Order already shipped" |
| `Scenarios.CancelHttpFallbackExample` | app/scripts/modal.js:156-168 | a 500 with no parsable body and no status text gives "API: Error HTTP 500: Error desconocido" |
| `Scenarios.CancelThrownExamples` | app/scripts/modal.js:172-190 | a thrown "timeout" without a body gives the prefixed "timeout"; with a parsed body that has no message, the unknown-error literal |

## Left out

- Host calls are not modelled: `client.request.invokeTemplate` in `getOrders`, `getOrdersFDK`, `getOrderDetailFDK` and `cancelOrderFDK`, and the unused `fetch` in `fetchVtexOrders`. They are network I/O. Their remaining logic is small: `getOrdersFDK` returns `data.list || []`, `getOrders` returns a bare `data.list`, both return `[]` on failure, `getOrderDetailFDK` returns `null` on failure, and there is the cancel outcome. The cancel outcome enters the model as the `HostOutcome` parameter of `CancelDecision`.
- `JSON.parse` is not modelled. It is abstracted to "parsed to a body" or "not parsed / `null`". `Body` keeps only the two message fields, as strings.
- `CancelDecision` assumes the thrown value is an object. If `undefined` or `null` were thrown, line 187 would throw again inside the `catch`.
- `CancelDecision` takes the status as a non-negative integer. It assumes the host always returns a response object with a numeric status. A missing response would take the thrown path with a `TypeError`.
- `RemapItems` assumes every entry of `items` is an object. A `null` entry would make the source's `.map` throw.
- `MajorUnits`: division is over reals. It does not model IEEE-754 rounding. It does not model `null / 100` being 0 either: every missing amount is `None`, standing for `NaN`.
- Fields are modelled as strings (or integers for quantity and amounts). Non-string values that JavaScript would stringify in a template literal, such as a numeric street `number`, are not modelled.
- Locale formatting is not modelled: `formatDateForDisplay` and the CLP currency formatting of the list total (line 284). Both rely on the host's `Intl`.
- DOM building, event listeners, `window.open`/`postMessage`, the cancel form's show/hide and button states, `init` and the `console.*` logging are not modelled. They are UI and I/O with no data logic. The null guard of `abrirVentanaDetalle` is the exception: it is `DetailForWindow`.
- The unguarded remap inside `init` (lines 97-101) is not modelled. Its result is discarded.
- `app/scripts/app.js` is not part of this model. It holds host initialisation and event registration only.
- The sample `ordenes` array (lines 17-81) is fixture data, not behaviour. `Scenarios.RemapAnaOrder` uses a record shaped like its first entry.
