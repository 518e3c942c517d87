# TataForm registration core in Dafny

This project models the core of TataForm, a React front end for a travel
registration event. The model covers:

- **The public form.** A three-page wizard holds a fifteen-field draft. The
  page validators gate navigation. A select change clears a stale "Other"
  text. Submitting turns the draft into a sixteen-entry multipart body and
  shows a notification built from the backend's reply.
- **The admin view.** The record-detail modal looks up the chosen flights in
  the static departure and arrival tables and decides which stored fields are
  shown, and with what text. The list controller guards repeated fetches,
  normalises the shapes a list response can take, bumps a refresh key, and
  guards and names the spreadsheet export.

Modules, one per source file, plus two shared ones:

| module | file | models |
|---|---|---|
| `Wrappers` | `wrappers.dfy` | `Option` and `Result` |
| `JsText` | `js_text.dfy` | `String.prototype.trim` and the "blank after trim" test used by the validators |
| `DraftRules` | `draft_rules.dfy` | the draft record, the input and select edits, the three page validators (`src/pages/MainFormPage.jsx`) |
| `SubmitPayload` | `submit_payload.dfy` | the field mapping of `SubmitData` (`src/api/SubmitUserData.js`) |
| `MainFormPage` | `main_form_page.dfy` | the wizard as a class: draft, page, loading flag; next/prev/submit handlers; the button rules |
| `FormModal` | `form_modal.dfy` | the flight lookups and the display rules of `src/components/UI/FormModal.jsx` |
| `EntityManage` | `entity_manage.dfy` | the list controller of `src/components/UI/EntityManage.jsx` as a class |

The pure parts (validators, payload mapping, lookups, display rules,
response normalisation) are functions with lemmas about them. The parts
that update React state in place (`useState` setters, the `recordsKey` ref)
are methods on the classes `RegistrationWizard` and `EntityManager`. Their
`ensures` clauses tie the new state to those functions.

Facts about the source that the model keeps as they are:
- `SubmitData` appends sixteen entries (src/api/SubmitUserData.js:10-40).
  None is a seat preference, and both flight options are always "".
- Flight options are matched by exact `Id` equality, with no trimming
  (src/components/UI/FormModal.jsx:28-30).
- The Submit button is disabled only when page 3 is invalid
  (src/pages/MainFormPage.jsx:671). The loading flag changes its caption but
  does not block a second submit.
- The export writes the records exactly as fetched
  (src/components/UI/EntityManage.jsx:65).
- An empty field in the modal reads "Not provided"; only the food allergies
  read "None" (src/components/UI/FormModal.jsx:86-88, 382-391).

## Model

| member | source | states |
|---|---|---|
| JsText.LeadingWhitespace | src/pages/MainFormPage.jsx:100 | the count is the length of the longest all-whitespace prefix: every character before it is whitespace and the one at it is not |
| JsText.TrailingWhitespace | src/pages/MainFormPage.jsx:100 | the count is the length of the longest all-whitespace suffix |
| JsText.Trim | src/pages/MainFormPage.jsx:96-105 | `trim()` returns a contiguous slice of its input, with only whitespace cut on either side; a non-empty result starts and ends with a non-whitespace character |
| JsText.BlankIffAllWhitespace | src/pages/MainFormPage.jsx:111-119 | a string trims to "" exactly when every character of it is whitespace |
| DraftRules.Draft.With | src/pages/MainFormPage.jsx:54-56 | the spread update sets the named field and keeps all others |
| DraftRules.SelectChange | src/pages/MainFormPage.jsx:59-82 | a paired selector takes the value; its "Other" text is kept if the value is "Other" and cleared otherwise; every other field is unchanged; other fields fall back to the plain input change |
| DraftRules.IsPage1Valid | src/pages/MainFormPage.jsx:84-90 | `isPage1Valid`; its contract is stated by `Page1Rule`: it fails without a name, address or visa answer, and otherwise holds iff a "No" visa answer has an assistance answer |
| DraftRules.IsPage2Valid | src/pages/MainFormPage.jsx:92-109 | `isPage2Valid`; its contract is stated by `Page2Rule`, against the independent visible-character test |
| DraftRules.IsPage3Valid | src/pages/MainFormPage.jsx:111-119 | `isPage3Valid`; its contract is stated by `Page3Rule`: it fails exactly for "Other" with an all-whitespace text |
| DraftRules.NotBlankIffVisibleChar | src/pages/MainFormPage.jsx:100 | `trim() !== ""` holds exactly when the text has a non-whitespace character |
| DraftRules.Page1Rule | src/pages/MainFormPage.jsx:84-90 | page 1 fails without a name, address or visa answer; with them it holds iff a "No" visa answer has an assistance answer; the email never matters |
| DraftRules.Page2Rule | src/pages/MainFormPage.jsx:92-109 | page 2 fails without a booking answer and holds for any answer other than "Yes"; with "Yes" it holds iff both cities are chosen and a city set to "Other" has a text with a visible character |
| DraftRules.Page3Rule | src/pages/MainFormPage.jsx:111-119 | page 3 fails exactly when the meal choice is "Other" and its text is all whitespace; the leisure activity never matters |
| DraftRules.StaleVisaAssistance | src/pages/MainFormPage.jsx:54-56 | switching the visa answer to "Yes" keeps the old assistance answer, and page 1 then ignores it |
| DraftRules.SelectOffOtherClearsText | src/pages/MainFormPage.jsx:59-78 | moving a paired selector off "Other" empties its text; a city moved to another value then counts as chosen for page 2 iff the value is non-empty, and page 3 holds for the meal selector |
| SubmitPayload.OrEmpty | src/api/SubmitUserData.js:10 | `v \|\| ""` on a string value is the value itself |
| SubmitPayload.EntryIndex | src/api/SubmitUserData.js:10-40 | each sent field has an entry whose name is that field's backend name and whose source is that field |
| SubmitPayload.Payload | src/api/SubmitUserData.js:10-40 | the body has one entry per backend name, in append order, each holding its source field's value, or "" for the flight options |
| SubmitPayload.FormGet | src/api/SubmitUserData.js:10-40 | `FormData.get` finds nothing iff no entry has the name, and otherwise returns the value of an entry with it |
| SubmitPayload.FormGetAt | src/api/SubmitUserData.js:10-40 | when no earlier entry shares its name, `get` returns that entry's value |
| SubmitPayload.BuildFormData | src/api/SubmitUserData.js:6-40 | the sixteen appends build exactly `Payload(d)` |
| SubmitPayload.PayloadTable | src/api/SubmitUserData.js:10-40 | the sixteen names are distinct, none is a seat preference, and each field-filled entry goes under its field's name |
| SubmitPayload.PayloadShape | src/api/SubmitUserData.js:10-40 | the body has sixteen entries with distinct names and no seat preference |
| SubmitPayload.PayloadCarriesDraft | src/api/SubmitUserData.js:10-32 | every draft field but the seat preference reads back verbatim from the body under its backend name |
| SubmitPayload.FlightOptionsAlwaysEmpty | src/api/SubmitUserData.js:35-36 | both flight-option entries are "" whatever the draft holds |
| SubmitPayload.SeatPreferenceNeverSent | src/api/SubmitUserData.js:10-40 | the seat preference does not change the body, and the body has no seat entry |
| MainFormPage.OrElse | src/pages/MainFormPage.jsx:136 | `a \|\| b` on strings is `a` when non-empty and otherwise `b` |
| MainFormPage.SubmitToast | src/pages/MainFormPage.jsx:135-146 | the toast is a success exactly for a reply whose status is true; its text is never empty and is the reply's own message when it has one |
| MainFormPage.SubmitButtonOf | src/pages/MainFormPage.jsx:670-676 | the Submit button is enabled iff page 3 is valid; its caption shows "Submitting ..." while loading |
| MainFormPage.NextPageOf | src/pages/MainFormPage.jsx:121-124 | `nextPage`'s move; its contract is stated by `NextButtonMatchesNextPage`: forward one page exactly when the Next button is enabled, within 1..3 |
| MainFormPage.PrevPageOf | src/pages/MainFormPage.jsx:126-128 | `prevPage`'s move; `NextButtonMatchesNextPage` keeps it within 1..3 and `RegistrationWizard.PrevPage` states it moves back exactly above page 1 |
| MainFormPage.NextDisabled | src/pages/MainFormPage.jsx:654-656 | the Next button's `disabled` expression; `NextButtonMatchesNextPage` states it is false exactly when a click moves forward |
| MainFormPage.NextButtonMatchesNextPage | src/pages/MainFormPage.jsx:121-128 | on pages 1 and 2 the Next button is enabled exactly when a click moves forward one page; a refused click stays put; next and previous keep the page within 1..3 |
| MainFormPage.LoadingDoesNotBlockSubmit | src/pages/MainFormPage.jsx:670-676 | the loading flag changes the Submit caption but never its enabled state |
| MainFormPage.RegistrationWizard.constructor | src/pages/MainFormPage.jsx:18-36 | the wizard starts on page 1, not loading, with every draft field "" |
| MainFormPage.RegistrationWizard.HandleInputChange | src/pages/MainFormPage.jsx:54-56 | only the named field changes, to the given value |
| MainFormPage.RegistrationWizard.HandleSelectChange | src/pages/MainFormPage.jsx:59-82 | the draft becomes `SelectChange` of the old draft: the selector is set, its stale "Other" text is cleared, nothing else changes |
| MainFormPage.RegistrationWizard.NextPage | src/pages/MainFormPage.jsx:121-124 | the page moves on exactly when the Next button would be enabled, and stays within 1..3 |
| MainFormPage.RegistrationWizard.PrevPage | src/pages/MainFormPage.jsx:126-128 | the page moves back by one exactly when it is above 1 |
| MainFormPage.RegistrationWizard.HandleSubmit | src/pages/MainFormPage.jsx:130-149 | the body sent is `Payload` of the draft; the app moves on only on an accepted reply; loading is cleared whatever happens; the toast is `SubmitToast` of the reply |
| FormModal.FindIndex | src/components/UI/FormModal.jsx:28-30 | the index `find` stops at is the first option with exactly that `Id`, and there is none iff no option has it |
| FormModal.FindById | src/components/UI/FormModal.jsx:28-30 | `find` returns the first option with exactly that `Id`, or nothing iff there is none |
| FormModal.ResolveFlight | src/components/UI/FormModal.jsx:17-44 | no option ("" or "NA"), no city ("" or "Other") or an unknown mode give nothing; a result is the first exact match in `table[mode][city]`, tagged with the mode; otherwise the mode or city is missing or nothing matches |
| FormModal.GetDepartureFlightDetails | src/components/UI/FormModal.jsx:17-44 | `getDepartureFlightDetails`; its contract is stated by `FlightLookupRules` |
| FormModal.GetArrivalFlightDetails | src/components/UI/FormModal.jsx:46-72 | `getArrivalFlightDetails`; its contract is stated by `FlightLookupRules` |
| FormModal.FlightLookupRules | src/components/UI/FormModal.jsx:17-72 | each lookup gives nothing for no option ("" or "NA"), no city ("" or "Other") or an unknown mode; a result is the first exact `Id` match in its own table under the mode and city, tagged with the mode; and when such a match exists under a known mode and present city, it is found |
| FormModal.CardOf | src/components/UI/FormModal.jsx:136-141 | the layover line is left out exactly when `Layover` is "NULL", and otherwise shows it as stored |
| FormModal.Body | src/components/UI/FormModal.jsx:207-417 | a spinner exactly while loading; "no user data" exactly when not loading and no record; otherwise the record's details with both flights looked up |
| FormModal.PersonalSlots | src/components/UI/FormModal.jsx:215-237 | the personal section shows name, email and address and nothing else |
| FormModal.VisaSlots | src/components/UI/FormModal.jsx:240-256 | the visa section shows the visa answer, and the assistance answer iff the visa answer is "No" |
| FormModal.OtherChoiceRule | src/components/UI/FormModal.jsx:273-295 | a value other than "Other" is shown itself; "Other" shows its text exactly when that is neither "" nor "NA"; nothing else is shown |
| FormModal.ChoiceSlots | src/components/UI/FormModal.jsx:273-295 | slot by slot: the selector slot shows iff the value is not "Other"; the text slot shows iff it is "Other" and the text is usable |
| FormModal.CardSlots | src/components/UI/FormModal.jsx:298-302 | a flight card shows in its slot exactly when the lookup found a flight |
| FormModal.BookingSlots | src/components/UI/FormModal.jsx:270-345 | the booking block shows only booking slots, and always the seat preference |
| FormModal.FlightSlots | src/components/UI/FormModal.jsx:259-347 | the flight section shows the booking answer; the rest only for a "Yes" answer, and then always the seat preference |
| FormModal.ExtrasSlots | src/components/UI/FormModal.jsx:350-393 | the extras section shows leisure, meal by the "Other" rule, and allergies as stored or "None" for "" or "NA" |
| FormModal.SubmittedOnSlots | src/components/UI/FormModal.jsx:396-408 | the submission section shows only the submission time |
| FormModal.VisaAssistanceVisibility | src/components/UI/FormModal.jsx:249-254 | in the whole body the assistance answer is shown exactly when the visa answer is "No" |
| FormModal.BookingVisibility | src/components/UI/FormModal.jsx:270-345 | in the whole body the cities, their texts, the flight cards and the seat preference appear only for a "Yes" booking answer, and then the seat preference always does |
| FormModal.MealVisibility | src/components/UI/FormModal.jsx:361-380 | in the whole body the meal preference and its text follow the "Other" rule |
| FormModal.AllergiesShownAsNone | src/components/UI/FormModal.jsx:382-391 | the body always holds the allergies field, reading "None" for "" or "NA" |
| EntityManage.Normalize | src/components/UI/EntityManage.jsx:23-31 | a response yields records iff it is an envelope with `Status` exactly `true` and an array `Data`, or a bare array; any other envelope errs with its `Message` or "Invalid response format"; any other shape errs with "Invalid response format" |
| EntityManage.BeforeFirst | src/components/UI/EntityManage.jsx:69 | `split(c)[0]` is the longest prefix without `c`, followed by `c` if it is not the whole string |
| EntityManage.ExportFileName | src/components/UI/EntityManage.jsx:68-70 | the export file name; its contract is stated by `ExportFileNameOfIso`: for `<date>T<time>` it is `<entity>_Data_<date>.xlsx` |
| EntityManage.ExportFileNameOfIso | src/components/UI/EntityManage.jsx:68-70 | for an ISO time `<date>T<time>` the file name is `<entity>_Data_<date>.xlsx` |
| EntityManage.EntityManager.constructor | src/components/UI/EntityManage.jsx:9-12 | the list starts empty, not loading, never fetched, with key 0 |
| EntityManage.EntityManager.BeginFetch | src/components/UI/EntityManage.jsx:16-17 | a fetch starts iff it is forced or none is loading; a started fetch sets loading |
| EntityManage.EntityManager.CompleteFetch | src/components/UI/EntityManage.jsx:19-44 | a good response replaces the list and stamps the fetch time; a bad one empties the list and reports the error; loading ends either way |
| EntityManage.EntityManager.FetchItems | src/components/UI/EntityManage.jsx:14-47 | a refused fetch changes nothing; a started one ends not loading; on a good response the list is `Normalize`'s records, the time is stamped and no error is returned; on a bad one the list is empty, the time is kept and the error is returned |
| EntityManage.EntityManager.HandleRefresh | src/components/UI/EntityManage.jsx:53-56 | a forced fetch, then the key moves on by exactly one; the list, the fetch time and the returned error are those of the forced fetch's outcome |
| EntityManage.EntityManager.HandleDownloadExcel | src/components/UI/EntityManage.jsx:58-78 | it fails with "No data available to download" iff the list is empty; otherwise it exports the records unchanged, in a sheet named after the entity, under the dated file name |

## Left out

- Rendering (JSX layout, icons, styling, animations, field labels), routing and the `/finalSubmit` navigation. The navigation is the wizard's `finished` flag.
- Network I/O. The replies of `SubmitData` and `config.api.getAll` are method parameters (`SubmitReply`, `Response`), and the `axios` post in `src/api/SubmitUserData.js:42-55` is not part of this model.
- Asynchrony. `fetchItems` is split into `BeginFetch` and `CompleteFetch` around the awaited call. Interleavings of two concurrent fetches, and React's batching of state updates, are not modelled.
- The mount `useEffect` (`src/components/UI/EntityManage.jsx:49-51`). It re-runs when `loading` changes the identity of `fetchItems`, which makes it a scheduling effect.
- Toast and console output, including the fetch-error text built with `entity.toLowerCase()`. Only the submit toast is modelled, as `SubmitToast`.
- Clocks and locale formatting. `new Date().toISOString()` is the `isoNow` parameter, and `toLocaleString` for "Submitted On" is the `formatDate` parameter.
- The configured `MODE` and the flight tables `departure.json` and `arrival.json`. They are parameters, and their contents are not part of this model.
- Spreadsheet writing (`json_to_sheet`, `writeFile`) and its failure branch (`src/components/UI/EntityManage.jsx:74-77`). `HandleDownloadExcel` returns what would be written.
- JSON values other than strings in stored records. A record is a map from field name to string, with a missing key read as "". A numeric `Id` compared with `===` is not modelled.
- React's props and re-rendering of the modal. The modal body is a function of the record, the loading flag, the tables and the mode.
- Trim: the whitespace set is the ECMAScript WhiteSpace and LineTerminator set as code points; UTF-16 surrogate handling is not modelled.
