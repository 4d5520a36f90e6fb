# wikilang, modelled in Dafny

wikilang is a browser page that fetches the introduction of a Wikipedia
article in a chosen language, lets the reader select a span of it and has
the selection translated through a small serverless proxy that forwards it
to a translation provider. This project models the two pieces of decision
logic in it and proves what they do:

- the proxy `handler` of `api/translate.js`, as a total function from the
  request (method and body) and the outcome of its one outbound call (the
  provider's parsed reply, or the message of what was thrown) to the form it
  sends, if any, and the one status and JSON body it answers with;
- the page component of `src/App.jsx`, as a class `Page` whose fields are the
  component's eight state hooks and whose methods are its handlers. Each
  asynchronous handler is split at its `await`: `BeginSearch` and
  `BeginTranslate` do what runs before the request leaves and return what the
  closure captured; `CompleteSearch` and `CompleteTranslate` take that and the
  already-fetched response (or the failure) and finish. `HandleSearch`,
  `TranslateText` and `SelectText` run the whole handler.

The JavaScript semantics the code leans on are written out in module `Js`:
JSON values, truthiness, plain access (`a.b`, `a[k]`, destructuring), which
throws a TypeError on `null`/`undefined`, optional access (`a?.b`), which
does not, `Object.keys`, and `String.prototype.trim` with the full set of
whitespace code points it removes. `Provider` holds the provider's reply
shape and the path `translations[0].translated[0]` that both sides read.
`Wiring` puts the page and the proxy together.

Files: `wrappers.dfy` (Option), `js.dfy`, `provider.dfy`, `gateway.dfy`
(api/translate.js), `app.dfy` (src/App.jsx), `wiring.dfy`.

Two behaviours of the code as written that the model makes explicit:

- A POST whose body is `null` or absent makes the destructuring on line 6
  throw outside the `try`, so the handler answers nothing itself
  (`Gateway.Handler` returns `Escaped` exactly then).
- The page posts `toLanguages` and looks for `translations[0].translated[0]`,
  while the proxy reads `to` and answers `{ translation }` or `{ error }`.
  Every translation the page requests is answered 400 and ends in the
  fallback text (see Findings).

## Model

| member | source | states |
|---|---|---|
| `Js.Truthy` | api/translate.js:8 | ToBoolean: exactly `undefined`, `null`, `false`, `0` and `""` are falsy |
| `Js.CanonicalIndex` | api/translate.js:30 | a key denotes an array or string position only when it is the canonical decimal spelling of that position |
| `Js.Decimal` | src/App.jsx:45 | the key of position n is a non-empty digit string, starts with `0` only for n = 0, and reads back as n |
| `Js.FieldLookup` | api/translate.js:6 | an object property read yields the value of the first field with that key, and `undefined` when no field has it |
| `Js.Get` | api/translate.js:6 | plain access and destructuring throw a TypeError exactly on `null`/`undefined`; only objects, arrays and strings yield anything but `undefined` |
| `Js.OptGet` | api/translate.js:30 | optional access never throws: `undefined` on a nullish value, the plain access result otherwise |
| `Js.ObjectKeys` | src/App.jsx:45-47 | `Object.keys` throws exactly on a nullish value and lists nothing for a boolean or number; an array or string lists one canonical index key per position, and reading the j-th key back gives the j-th element; an object lists its field keys in order, and reading the j-th key back gives the first field with that key, at or before j |
| `Js.Trim` | src/App.jsx:63 | the result is a contiguous piece of the input with only whitespace cut from both ends, has no whitespace at either end, and is empty exactly when the input is all whitespace |
| `Js.TrimIdempotent` | src/App.jsx:63-65 | trimming a trimmed string changes nothing |
| `Provider.FirstTranslated` | api/translate.js:30 | the optional-chain path gives `undefined` when the value or its `translations` is missing |
| `Provider.FirstOfFirstOnly` | api/translate.js:30 | whenever `translations` reads as a non-empty array whose first entry's `translated` reads as a non-empty array, the path yields that array's first element, wherever the keys are listed and whatever else the reply holds |
| `Provider.NoTranslationsField` | api/translate.js:30 | an object without `translations` yields `undefined` along the path |
| `Gateway.ErrorBody` | api/translate.js:3 | an error answer is an object whose only key is `error`, holding the message |
| `Gateway.OutboundForm` | api/translate.js:13-16 | the form has exactly the fields `from`, `to`, `texts` in that order, with `from` fixed to `en` |
| `Gateway.ReplyTo` | api/translate.js:28-39 | 200 `{translation}` exactly when the provider replied and the path value is truthy; a thrown fault gives 500 `{error:'Translation failed', details}`; a missing or falsy value gives 500 `{error:'Translation missing or invalid', raw}` with the reply unchanged |
| `Gateway.Handler` | api/translate.js:1-40 | 405 exactly for a non-POST, and then nothing else happens; an exception escapes exactly for a POST with a nullish body; 400 with no outbound call exactly when `text` or `to` is falsy; a POST with truthy `text` and `to` makes exactly one call, with the three-field form, and answers with `ReplyTo`; no call exactly on 400 and 405 |
| `Gateway.NoCallNoInfluence` | api/translate.js:2-10 | when no call is made, the provider's outcome cannot change the answer |
| `Gateway.StatusesAnswered` | api/translate.js:3-38 | every answer has status 200, 400, 405 or 500 |
| `Gateway.SourceLanguageIgnored` | api/translate.js:6-16 | a `from` field in the request has no effect; the form says `from=en` |
| `Gateway.MissingTranslationsInvalid` | api/translate.js:30-34 | a reply without `translations` is answered 500 `Translation missing or invalid` with the reply attached |
| `Gateway.ShapedReplyTranslated` | api/translate.js:30-36 | a reply whose first entry's first string is truthy is answered 200 `{translation}` with that string, wherever the keys are listed |
| `App.FindName` | src/App.jsx:51 | the lookup succeeds exactly when some entry has the code, and then gives the name of the first such entry |
| `App.LanguageName` | src/App.jsx:51 | the name lookup over the table succeeds exactly for the codes the selectors offer |
| `App.NoArticleMessage` | src/App.jsx:51 | the not-found message is `No article found for "`, the term, `" in ` and the language name, and is never the generic error message |
| `App.CodesUnique` | src/App.jsx:14-27 | no code appears twice in the language table |
| `App.OfferedCodesNamed` | src/App.jsx:51 | every code the selectors offer has a name, the one the table pairs with it |
| `App.Fallback` | src/App.jsx:96 | the fallback is the selection wrapped in `[Unable to translate: ` and `]`, so never empty |
| `App.FirstPageExtract` | src/App.jsx:44-47 | a TypeError when the reply, `query` or `query.pages` is nullish; "no page" exactly when `query.pages` has no keys; otherwise the first listed page decides: a TypeError when it is nullish, else its `extract` |
| `App.FirstListedPageDecides` | src/App.jsx:44-49 | whenever `query.pages` reads as a non-empty object, the `extract` of its first field decides, wherever `query` and `pages` are listed; a nullish first page throws |
| `App.SearchOutcome` | src/App.jsx:40-55 | found exactly when the first page's extract is truthy, and then that extract; "not found" with the message `No article found for "<term>" in <name>` exactly when the lookup of the language succeeds and no truthy extract came; the generic error on a failed fetch |
| `App.OfferedLanguageLookupNeverFails` | src/App.jsx:51-54 | for an offered language the generic error arises exactly from a failed fetch or a reply on which reading `query.pages` or the first page's `extract` throws |
| `App.TranslateRequestBody` | src/App.jsx:81-84 | the posted body has exactly the keys `text` and `toLanguages`, holding the selection and a one-element list of the target |
| `App.ReceivedTranslation` | src/App.jsx:87-92 | the page takes a translation exactly when the reply is not nullish and its path value is truthy, and then takes that value |
| `App.ShapedReplyReceived` | src/App.jsx:89-90 | a reply whose first entry's first string is truthy gives the page that string, wherever the keys are listed |
| `App.NoTranslationsFallsBack` | src/App.jsx:89-96 | a reply without `translations` is never taken as a translation |
| `App.EffectTranslates` | src/App.jsx:106-110 | the effect translates exactly when the selected text changed and is truthy |
| `App.Page.constructor` | src/App.jsx:5-12 | the initial state, with both languages offered |
| `App.Page.SetSearchTerm` | src/App.jsx:155 | only the search term changes |
| `App.Page.SetLanguage` | src/App.jsx:124 | only the article language changes, to an offered code |
| `App.Page.SetTargetLanguage` | src/App.jsx:139 | only the target language changes, to an offered code |
| `App.Page.BeginSearch` | src/App.jsx:29-34 | a blank term changes nothing; otherwise loading is on, error and content are cleared, and term and language are captured |
| `App.Page.CompleteSearch` | src/App.jsx:36-58 | content becomes the found extract, or the error becomes the not-found or generic message; loading ends off; nothing else changes |
| `App.Page.HandleSearch` | src/App.jsx:29-59 | a blank term changes nothing; otherwise content is the found extract or empty (never an earlier article), error is empty or the outcome's message, loading is off; with both selectors on offered codes, the generic error shows exactly when the fetch failed or reading the reply threw |
| `App.Page.HandleTextSelection` | src/App.jsx:61-67 | the selection becomes the trimmed text when that is non-empty and is kept otherwise; the effect translates exactly when the selection changed to a non-empty text |
| `App.Page.BeginTranslate` | src/App.jsx:70-75 | an empty selection changes nothing; otherwise loading is on, translation and error are cleared, and text and target are captured |
| `App.Page.CompleteTranslate` | src/App.jsx:87-100 | the translation is the received value, or the fallback for the captured text with the failure message; loading ends off; the translation is never empty |
| `App.Page.TranslateText` | src/App.jsx:70-101 | with an empty selection nothing changes; otherwise the translation is the received value or the fallback, error is empty or the failure message, loading is off and the translation is never empty |
| `App.Page.SelectText` | src/App.jsx:61-110 | when the trimmed selection is new and non-blank, it becomes the selection and the state is that of `translateText` on it (the received value or the fallback, error empty or the failure message, loading off, all else unchanged); otherwise only a non-blank selection is stored |
| `Wiring.PageRequest` | src/App.jsx:78-84 | the page's request is a POST carrying the selection under `text` and nothing under `to` |
| `Wiring.AtPage` | src/App.jsx:78-87 | the page parses every answer of the proxy as its JSON body, whatever the status; an escaped exception reaches it as a failure |
| `Wiring.PageRequestRejected` | api/translate.js:6-9 | the proxy answers every request the page sends with 400 `Missing text or target language` and makes no call |
| `Wiring.ProxyAnswersNeverRead` | src/App.jsx:89 | no answer of the proxy, to any request, is read by the page as a translation |
| `Wiring.TranslateThroughProxy` | src/App.jsx:70-100 | against the proxy, every translation of a non-empty selection ends in the fallback text and the failure message |
| `Wiring.IntendedReceivedTranslation` | api/translate.js:36 | reading the proxy's answer by its own field name takes a value exactly when the body is not nullish and its `translation` is truthy, and then takes that value |
| `Wiring.IntendedRequest` | api/translate.js:6 | the request with the proxy's field names: a POST whose only keys are `text` and `to`, holding the selection and the target |
| `Wiring.IntendedRequestForwarded` | api/translate.js:6-16 | a request carrying a non-empty text and target under `to` passes both checks and is forwarded as the three-field form |
| `Wiring.TranslationField` | api/translate.js:30-36 | the `translation` field of the answer after the call is the provider's truthy first string, and `undefined` on every error answer |
| `Wiring.IntendedExchange` | api/translate.js:6-36 | sending `to`, the proxy makes its call with the selection and target, and the page receives exactly the provider's truthy first translation, and nothing otherwise |

## Left out

- Network access: the Wikipedia and provider requests, `fetch` and `response.json()` are inputs (`App.Fetched`, `Gateway.Upstream`): a parsed JSON value or a failure.
- URL and form encoding (`encodeURIComponent`, `URLSearchParams.toString`): the form is kept as its list of names and JSON values.
- The provider credential from the environment, request headers and `console.error` logging.
- `window.getSelection()`: the selection's string is a parameter of `HandleTextSelection` and `SelectText`.
- All rendering (the JSX from line 113 on), including the button disabled while loading, the `?.name` lookups in headings and the HTML of extracts, which are opaque values.
- React scheduling: batching of state updates, re-renders, and the ordering of overlapping searches or translations (whichever answer arrives last wins). The `Begin`/`Complete` split lets such interleavings be written down, but no property is stated here about overlapping requests.
- The effect's dependency comparison is modelled only as "the selected text changed to a non-empty one" (`App.EffectTranslates`); re-selecting identical text therefore does not translate again.
- Object property order: an object's field list is taken to be already in JavaScript enumeration order (the engine's rule that integer-like keys come first is not modelled), and lookup takes the first field with a key. Duplicate keys are not excluded: `JSON.parse` keeps the last of them, so the model agrees with it only on objects whose keys are distinct.
- Strings are sequences of Unicode scalar values, not UTF-16 code units, so indexing a string at an astral character differs from JavaScript.
- Numbers are reals; `NaN` cannot come out of JSON and is not represented.
- Built-in properties (`length`, prototype members) are not modelled: none of the keys the code reads is one of them.
- What the hosting platform answers when an exception escapes the handler: the page sees it as a failed fetch (`Wiring.AtPage`).
- Other proxy variants (a reply shape with a `text` field, echoing a list of translations for several targets) are not part of this model: api/translate.js reads only `translations[0].translated[0]` and answers one string.

## Findings

| source | as written | input that shows it | evidently intended | confidence | as-written member | corrected member |
|---|---|---|---|---|---|---|
| src/App.jsx:83 | the page posts `{text, toLanguages: [target]}` and reads `translations[0].translated[0]`; the proxy reads `to` (api/translate.js:6) and answers `{translation}` (api/translate.js:36) | selecting any non-empty text, e.g. `hello` with target `en` | the page sends the target as `to` and reads the `translation` field | high that the two sides disagree; not executed | `Wiring.PageRequestRejected` | `Wiring.IntendedExchange` |

The page class keeps the code as written, so `Wiring.TranslateThroughProxy`
shows the consequence for the page state; `Wiring.IntendedExchange` proves
that the corrected pair of field names delivers the provider's translation.
