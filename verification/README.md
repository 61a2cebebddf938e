# Thailand address search: a verified model

`ThailandAddressSearch` is a React input with a drop-down list. It searches a
dataset of Thai locations. Each record holds a province, a district, a
subdistrict and a postal code, with names in Thai and English. When the user
picks a row, the input shows the record as text and the `onSelectLocation`
callback receives it. This project models in Dafny the component's logic and
proves properties of it:

- **Search** (`filterResults` and the `slice` in the list effect).
  - A query shorter than two UTF-16 code units finds nothing, as `length`
    counts them; an emoji alone is long enough.
  - An all-digit query matches by postal-code prefix.
  - Any other query matches case-insensitively on the three names in the
    display language, or as a substring of one of the numeric codes.
  - The list shows the first `maxResults` matches, in dataset order.
- **Display text** (`getLocationText`).
  - With a template, `:districtName`, `:subdistrictName`, `:provinceName` and
    `:postalCode` are replaced in turn, all occurrences each time. This is the
    `forEach` loop, modelled as a method with a loop invariant.
  - Otherwise the non-empty values of the chosen fields are joined by the
    separator.
  - We prove that the four passes act like a single substitution whenever
    the template's literal text (everything but its placeholders) and the
    values hold no colon.
  - We prove that the default field list gives the same text as the matching
    template, when every value is non-empty and neither the values nor the
    separator hold a colon. An empty value is dropped by the field list but
    keeps its separators in the template.
- **Widget state** (class `Widget.AddressSearch`). Its fields are:
  - `searchTerm`, `searchTermId`, `results`, `focusedIndex` and the loaded
    `thailandData`;
  - `selections`, the log of callback arguments.

  Each handler is a method. So is each effect that depends on the term, the
  data or the default id. An *event* method runs a handler and then the
  effects of the render it causes. Every event method keeps the invariant
  `Valid()` and states the exact new state.

The JavaScript library calls are modelled in `JsStrings` and `DecimalText`:
`includes`, `startsWith`, `endsWith`, `toLowerCase`, `trim`, global
`replace`, `join`, and `Number#toString` for integers.

Facts about the source that the model keeps:

- **ArrowUp with no results.** ArrowUp sets the focus to 0 even when the list is
  empty. A following Enter then reads `.id` of `undefined`, which throws a
  TypeError. `HandleKeyDown` returns `TypeError` exactly when Enter meets a
  focus at or past the end of the list. `Valid()` admits that one stray state:
  focus 0 with no results. `Scenarios.ArrowUpThenEnter` goes from mount to the
  error.
- **The list after a pick.** Committing a record changes the term to the
  record's text. When that text differs from the term before the pick, the
  list becomes the rows shown for that text. So it reopens when the text is
  at least two code units long, matches a record, and `maxResults` is
  positive. It stays closed when the text equals the term before the pick, or
  when it shows no row. The event contracts
  state the list in both cases.
- **The read-only lock.** With `readOnlyIfSelected` and a truthy selected id
  the input is read-only, so it receives no change events; `InputChange`
  requires the input not to be locked. Clicking (with click-to-clear) or the
  clear button removes the lock.
- **Id 0.** An id of 0 is falsy. `defaultValueId` 0 is ignored, and a selected
  id of 0 does not make the input read-only.

## Model

| member | source | states |
|---|---|---|
| DecimalText.IntToDecimal | src/components/ThailandAddressSearch.tsx:192 | `toString` of an integer is non-empty; it is all digits exactly for non-negative numbers; a negative number is `-` followed by digits |
| DecimalText.DecimalRoundTrip | src/components/ThailandAddressSearch.tsx:103 | reading back the decimal text of `n` gives `n` |
| DecimalText.NatToDecimalInjective | src/components/ThailandAddressSearch.tsx:103 | different postal codes have different texts |
| DecimalText.NatToDecimalLength | src/components/ThailandAddressSearch.tsx:99 | the text of `n` has two or more characters exactly when `n >= 10`, so it passes the minimum-length gate |
| JsStrings.IncludesIffOccurs | src/components/ThailandAddressSearch.tsx:108 | `includes` holds exactly when the substring occurs at some index |
| JsStrings.CharsOfIncluded | src/components/ThailandAddressSearch.tsx:114 | every character of a found substring is a character of the string |
| JsStrings.LowerChar | src/components/ThailandAddressSearch.tsx:108 | lower-casing leaves no upper-case letter, shifts A-Z by 32 and leaves everything else alone |
| JsStrings.ToLowerSpec | src/components/ThailandAddressSearch.tsx:108 | `toLowerCase` keeps the length, leaves no upper-case letter and keeps every other character |
| JsStrings.ToLowerIdempotent | src/components/ThailandAddressSearch.tsx:110 | lower-casing twice is lower-casing once |
| JsStrings.ToLowerOfLower | src/components/ThailandAddressSearch.tsx:108 | a string with no upper-case letter is its own lower case |
| JsStrings.Length | src/components/ThailandAddressSearch.tsx:99 | `length` counts UTF-16 code units: between the number of characters and twice it |
| JsStrings.LengthInBmp | src/components/ThailandAddressSearch.tsx:99 | within the Basic Multilingual Plane the length is the number of characters |
| JsStrings.TrimStart | src/components/ThailandAddressSearch.tsx:271 | the result is the suffix of the input after a run of white space, and does not start with white space |
| JsStrings.TrimEnd | src/components/ThailandAddressSearch.tsx:271 | the result is the prefix of the input before a run of white space, and does not end with white space |
| JsStrings.TrimEmptyIffBlank | src/components/ThailandAddressSearch.tsx:284 | `trim()` is empty exactly when every character is white space or a line terminator |
| JsStrings.ReplaceAllAbsent | src/components/ThailandAddressSearch.tsx:204-207 | a global replace of a pattern that does not occur leaves the string unchanged |
| JsStrings.ReplaceAllBySelf | src/components/ThailandAddressSearch.tsx:204-207 | replacing a pattern by itself leaves the string unchanged |
| JsStrings.ReplaceAllSkips | src/components/ThailandAddressSearch.tsx:204-207 | a prefix without the pattern's first character passes through the replace untouched |
| JsStrings.ReplaceAllAtFront | src/components/ThailandAddressSearch.tsx:204-207 | a leading occurrence is replaced and the scan resumes after it |
| Search.Filter | src/components/ThailandAddressSearch.tsx:101-118 | the filtered list holds exactly the records of the dataset that match, and is no longer than the dataset |
| Search.FilterIsSubsequence | src/components/ThailandAddressSearch.tsx:101 | filtering keeps the dataset's order |
| Search.FilterAppend | src/components/ThailandAddressSearch.tsx:101-118 | filtering two concatenated lists is concatenating their filtered lists |
| Search.SliceTo | src/components/ThailandAddressSearch.tsx:125 | `slice(0, end)` is a prefix; its length is `min(end, n)` for `end >= 0` and `max(n + end, 0)` for a negative end |
| Search.ShownSpec | src/components/ThailandAddressSearch.tsx:97-125 | a term of fewer than two UTF-16 code units shows nothing; otherwise the list is the prefix of the matches of length `min(maxResults, matches)`; it keeps dataset order and every row is a matching record of the dataset |
| Search.BeyondLimitNotShown | src/components/ThailandAddressSearch.tsx:125 | a record preceded by `maxResults` matches is not shown, even though it matches |
| Search.DigitQueryMatches | src/components/ThailandAddressSearch.tsx:102-103 | an all-digit query matches exactly the records with a non-negative postal code whose text starts with it |
| Search.KeySuffixes | src/components/ThailandAddressSearch.tsx:107-110 | the English name keys end in `NameEn` and not `NameTh`, and the Thai ones the reverse |
| Search.IdEntry | src/components/ThailandAddressSearch.tsx:105-116 | the `some` callback never accepts the `id` entry |
| Search.CodeEntries | src/components/ThailandAddressSearch.tsx:113-114 | the callback accepts each of the four code entries exactly when the code's text contains the query |
| Search.NameEntries | src/components/ThailandAddressSearch.tsx:106-111 | the callback accepts each of the six name entries exactly when the name is in the display language and contains the query, ignoring case |
| Search.MatchingEntryIsHit | src/components/ThailandAddressSearch.tsx:105-117 | an entry accepted by the callback is a name hit in the display language or a code hit |
| Search.HitHasMatchingEntry | src/components/ThailandAddressSearch.tsx:105-117 | a name hit or a code hit is accepted by the callback for some entry |
| Search.NonDigitQueryMatches | src/components/ThailandAddressSearch.tsx:105-117 | a query that is not all digits matches exactly when a name in the display language includes it case-insensitively, or one of the four codes (never the id) includes it |
| Search.NonDigitQueryIsNameHit | src/components/ThailandAddressSearch.tsx:105-117 | when no code is negative, a query that is not all digits matches exactly when a name in the display language contains it, ignoring case |
| Search.ShownRowsHitByName | src/components/ThailandAddressSearch.tsx:97-125 | with non-negative codes, every row shown for a query that is not all digits has a name in the display language containing the query |
| Search.OnlySearchedFieldsMatter | src/components/ThailandAddressSearch.tsx:105-117 | two records with the same names in the language and the same codes match the same queries |
| Search.DecimalChars | src/components/ThailandAddressSearch.tsx:114 | a number's text holds only digits and `-` |
| Search.NoLetterInNumber | src/components/ThailandAddressSearch.tsx:113-114 | a query with an upper-case letter never matches a code, lower-cased or not |
| Search.QueryCaseIgnored | src/components/ThailandAddressSearch.tsx:102-117 | a record matches a query exactly when it matches the query's lower case |
| Search.OwnPostalCodeFound | src/components/ThailandAddressSearch.tsx:99-103 | searching for a record's own postal code (10 or more) puts the record among the matches, before the cut to `maxResults` |
| Display.KeptValues | src/components/ThailandAddressSearch.tsx:213-215 | after `filter(Boolean)` no value is empty, and there are no more values than fields |
| Display.OneField | src/components/ThailandAddressSearch.tsx:214-215 | one field keeps its value exactly when it names a key and the value is not empty |
| Display.KeptValuesAppend | src/components/ThailandAddressSearch.tsx:213-215 | the values of two field lists are kept one after the other, so the values come in field order |
| Display.GetLocationText | src/components/ThailandAddressSearch.tsx:185-220 | the loop over the four entries produces the text the specification function defines |
| Display.KeyNames | src/components/ThailandAddressSearch.tsx:203-205 | the four key names hold no colon, and they differ in their first two characters |
| Display.ReplaceSkipsOtherName | src/components/ThailandAddressSearch.tsx:204-205 | a placeholder for one name passes untouched through the replace for a different name |
| Display.ReplaceSkipsOtherPlaceholder | src/components/ThailandAddressSearch.tsx:204-205 | the replace for one key leaves another key's placeholder whole |
| Display.ReplaceStep | src/components/ThailandAddressSearch.tsx:204-207 | on a colon-free template of pieces, one replace fills exactly that key's holes and the result stays colon-free |
| Display.FilledIsRendered | src/components/ThailandAddressSearch.tsx:203-208 | filling the four keys in turn renders every hole with its value |
| Display.TemplateIsSinglePass | src/components/ThailandAddressSearch.tsx:201-210 | when the template's literal text and the values hold no colon, the four passes substitute every placeholder by its value, once |
| Display.PlainTemplateUnchanged | src/components/ThailandAddressSearch.tsx:201-210 | a template without a colon comes back unchanged |
| Display.DefaultFieldsText | src/components/ThailandAddressSearch.tsx:212-216 | when none of the four values is empty, the default fields give district, subdistrict, province and postal code joined by the separator |
| Display.SkippedFields | src/components/ThailandAddressSearch.tsx:214-215 | a field that names no key, or whose value is empty, leaves the text as if it were absent |
| Display.FieldListAgreesWithTemplate | src/components/ThailandAddressSearch.tsx:201-216 | when every value is non-empty and the values and separator hold no colon, the default field list and the equivalent `:name` template give the same text |
| Widget.FocusDown | src/components/ThailandAddressSearch.tsx:239 | ArrowDown moves the focus one row down exactly when it is above the last row; otherwise it stays |
| Widget.FocusUp | src/components/ThailandAddressSearch.tsx:242 | ArrowUp moves the focus one row up, clamped at 0 |
| Widget.FindById | src/components/ThailandAddressSearch.tsx:86-88 | finds nothing exactly when no record has the id; otherwise the first record with it |
| Widget.AddressSearch.constructor | src/components/ThailandAddressSearch.tsx:62-66 | mount state: empty term, no id, no results, focus -1, no callback yet; the invariant holds |
| Widget.AddressSearch.Commit | src/components/ThailandAddressSearch.tsx:246-250 | committing a record sets its id and text, empties the list, resets the focus and passes it to the callback |
| Widget.AddressSearch.HandleKeyDown | src/components/ThailandAddressSearch.tsx:236-256 | new state for each key; TypeError exactly when Enter meets a focus at or past the end of the list, with nothing changed |
| Widget.AddressSearch.HandleSelectLocation | src/components/ThailandAddressSearch.tsx:258-265 | a click on a row commits that record |
| Widget.AddressSearch.HandleInputClick | src/components/ThailandAddressSearch.tsx:227-234 | with click-to-clear on and a filled input, the text, id and list are cleared and the callback gets `undefined`; otherwise nothing changes |
| Widget.AddressSearch.HandleInputChange | src/components/ThailandAddressSearch.tsx:279-288 | the new text is stored and the id dropped; a blank text also empties the list and calls back with `undefined` |
| Widget.AddressSearch.HandleInputBlur | src/components/ThailandAddressSearch.tsx:268-276 | the list closes; a blank term is also cleared, with the id, and the callback gets `undefined` |
| Widget.AddressSearch.HandleClear | src/components/ThailandAddressSearch.tsx:290-297 | text, id and list are cleared and the callback gets `undefined` |
| Widget.AddressSearch.SearchTermEffects | src/components/ThailandAddressSearch.tsx:80-82 | after a render whose term changed, the focus is reset and the list recomputed for the new term; otherwise nothing changes |
| Widget.AddressSearch.ResultsEffect | src/components/ThailandAddressSearch.tsx:123-129 | the list becomes the first `maxResults` matches of the term |
| Widget.AddressSearch.DefaultValueEffect | src/components/ThailandAddressSearch.tsx:84-95 | a truthy default id naming a record commits that record's id and text and passes it to the callback; otherwise nothing changes |
| Widget.AddressSearch.KeyDown | src/components/ThailandAddressSearch.tsx:236-256 | keeps the invariant; errors only for Enter in the stray state; Enter on a row commits a dataset record, and the lock then holds exactly when `readOnlyIfSelected` is on and the id is non-zero; the other keys' exact states |
| Widget.AddressSearch.SelectLocation | src/components/ThailandAddressSearch.tsx:258-265 | keeps the invariant; the clicked row's text, id and callback; the list is recomputed for the new text; the read-only lock as for Enter |
| Widget.AddressSearch.InputClick | src/components/ThailandAddressSearch.tsx:227-234 | keeps the invariant; a clearing click empties the text and list, resets the focus, unlocks the input and hides the clear button |
| Widget.AddressSearch.InputChange | src/components/ThailandAddressSearch.tsx:279-288 | keeps the invariant; the list is the matches of the new text, the focus is reset and the input unlocked; a blank text calls back with `undefined` |
| Widget.AddressSearch.InputBlur | src/components/ThailandAddressSearch.tsx:267-277 | keeps the invariant; the list closes and the focus resets; a blank term is cleared with its id, and any other term stays selected |
| Widget.AddressSearch.Clear | src/components/ThailandAddressSearch.tsx:290-297 | keeps the invariant; empty text, no id, no list; the lock and the clear button are gone |
| Widget.AddressSearch.DataLoaded | src/components/ThailandAddressSearch.tsx:70-95 | keeps the invariant; the list is the matches of the current term in the new data; a truthy default id naming a record selects it |
| Scenarios.PostalPrefixFindsSilom | src/components/ThailandAddressSearch.tsx:102-103 | "105" finds the Silom record by its postal code 10500 |
| Scenarios.NamePrefixFindsSilom | src/components/ThailandAddressSearch.tsx:105-110 | "si" finds the record by its English subdistrict name "Silom" |
| Scenarios.OneCharacterShowsNothing | src/components/ThailandAddressSearch.tsx:99 | "1" shows nothing |
| Scenarios.OneEmojiIsSearched | src/components/ThailandAddressSearch.tsx:99 | a query of one emoji is two code units long and is searched |
| Scenarios.SilomText | src/components/ThailandAddressSearch.tsx:212-216 | the record's default text is "Bang Rak - Silom - Bangkok - 10500" |
| Scenarios.ArrowUpThenEnter | src/components/ThailandAddressSearch.tsx:242-245 | from mount, ArrowUp then Enter ends in the TypeError |
| Scenarios.TypeAndPick | src/components/ThailandAddressSearch.tsx:308 | load, type "si", ArrowDown, Enter: the input shows the record's text and is read-only, and the callback got the record once |

## Left out

- The dataset loader (`src/utils/loadThailandData.ts`) and the fetch are not part of this model. `DataLoaded` receives the data as a parameter, and a failed load is the initial empty dataset.
- `highlightText`, the scroll effects, the rendering and the CSS class names are left out. They change no state the model keeps.
- The DOM calls `blur()`, `focus()` and `preventDefault()` are left out. The blur that `blur()` causes after a click on a row is a separate `InputBlur` event in this model.
- The 200 ms delay of the blur timer is left out. `InputBlur` runs the timer's body at once, on the state of that moment. The source's timer reads the term captured at blur time, so an event between blur and timer is not modelled.
- React's batching is modelled as each event's handler, then the effects of one render. An event never interleaves with another.
- The props are fixed at mount. A change of `language`, `maxResults`, `defaultValueId` or the template while mounted is not modelled.
- JsStrings.LowerChar: lower-casing covers ASCII only. The Unicode case mappings of `toLowerCase`, such as accented Latin letters, are not modelled. Thai script has no case.
- `maxResults` is an integer. The source takes any JavaScript number, and `slice` truncates a fraction, treats `NaN` as 0 and `Infinity` as the full length; those values are not modelled.
- DecimalText.IntToDecimal: numbers are integers. Fractions, `NaN` and the exponent form of `toString` for values of 1e21 and beyond are not modelled.
- JsStrings.ReplaceAll: the replacement value is inserted literally. `$` patterns inside a name or postal code are not modelled. The placeholders are fixed literals, so no regular-expression metacharacter arises.
- Records.Entries: a record is assumed to hold exactly the eleven declared fields, in declaration order. The search scans whatever keys the loaded JSON objects carry, so extra keys in the data are not modelled.
- Display.Lookup: a display field naming an inherited object member (for example `toString`) is treated as naming no key. The source would look up that member.
- `InputChange` requires the new text to differ from the term, since a change event reports a change, and requires the input not to be read-only, since a read-only input receives no change events. `SelectLocation` requires the row to be in the list. `DataLoaded` requires the dataset not yet loaded, since the loader runs once per mount.
- Search.OwnPostalCodeFound: the record is in the filtered list, not necessarily in the displayed one. `Search.BeyondLimitNotShown` shows the truncation can drop it.
