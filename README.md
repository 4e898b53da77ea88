# Lis-Vet appointment subsystem, modelled in Dafny

Lis-Vet is the landing page of a veterinary clinic. Its only stateful part
is the appointment subsystem. A visitor books through a contact form. The
form is validated and posted to a mock endpoint. On success an appointment
record joins a list kept in memory and mirrored under the localStorage key
`lisvet_appointments`. The list is drawn as cards, each with a delete
button. The repository holds two builds of this subsystem:

- `src/main.js` trims the form, escapes rendered text and catches storage errors;
- `script.js` is the older build: no trimming, no escaping, no storage error handling.

The model has one module per concern:

- `Lookups`: the weather-code emoji buckets and the service-code labels. Both builds carry the same text for these.
- `Appointments`: the record, the stored value, removal by id (`Without`) and facts about ids.
- `Forms`: JavaScript's `trim`, validation, the POST payload and the new record.
- `Rendering`: the card projection, with escaping as a parameter.
- `MainBuild` and `ScriptBuild`: each build's store as a class (`MainPage`, `ScriptPage`). The fields are the list, the storage map and the rendered view. The methods mirror the source functions that change them.

External effects are parameters: whether the user confirmed the dialog,
the POST outcome (`PostOutcome`), whether the storage write succeeded, the
clock reading used as fallback id, the localised date string and the
browser's HTML serialiser.

Three behaviours of the code a reader might not expect; the model follows the code:

- Ids are not guaranteed unique. The record takes whatever truthy id the endpoint returns, and the mock endpoint returns the same one every time. `DeleteRemovesAllSharers` shows one delete then removes every entry with that id. `AppendUniqueIff` states when an add keeps ids unique.
- `loadAppointments` in `src/main.js` does not render after resetting an unparseable list. An absent value leaves the list as it is rather than re-initialising it.
- In `script.js` a failed storage write is not caught. Inside a submission it turns the success into the error banner, with the entry already in memory.

## Model

| member | source | states |
|---|---|---|
| `Lookups.WeatherEmoji` | src/main.js:128-136 | each of the seven emoji is returned exactly on its code range: 0; any other code up to 3 (negatives too); 4-48; 49-67; 68-77; 78-82; above 82 |
| `Lookups.EmojiDistinct` | script.js:93-101 | the seven emoji of the table are pairwise different, so the buckets are distinguishable |
| `Lookups.ServiceName` | src/main.js:481-491 | the six codes map to their labels, any other code (the empty one too) is returned unchanged; the label is empty exactly when the code is |
| `Lookups.ServiceLookupAsWritten` | script.js:346-356 | the table lookup with its fallback, as written: table codes give their label, names inherited from Object.prototype give the inherited member, the rest pass through |
| `Lookups.ServiceLookupAgrees` | src/main.js:490 | outside the inherited names the written lookup returns exactly `ServiceName` |
| `Lookups.ServiceLookupPassThroughFails` | src/main.js:482-490 | for the non-service code "toString" the written lookup does not pass the code through, while `ServiceName` does |
| `Appointments.Without` | src/main.js:331 | the delete filter keeps exactly the entries whose id differs from the given one, never grows the list |
| `Appointments.WithoutAppend` | script.js:235 | filtering distributes over concatenation, so survivors keep their original order |
| `Appointments.WithoutAbsent` | script.js:233-239 | deleting an id no entry has leaves the list unchanged |
| `Appointments.WithoutIdempotent` | src/main.js:327-338 | deleting the same id twice equals deleting it once |
| `Appointments.WithoutCommutes` | src/main.js:331 | deletes of two ids give the same list in either order |
| `Appointments.WithoutLength` | src/main.js:331 | a delete shortens the list by exactly the number of entries with that id |
| `Appointments.DeletePresentShrinksByOne` | script.js:235 | with unique ids, deleting a present id removes exactly one entry |
| `Appointments.DeleteRemovesAllSharers` | src/main.js:251-252 | two entries that share an id (the response id is not checked for duplicates) both go in one delete |
| `Appointments.AppendUniqueIff` | src/main.js:318-324 | appending keeps ids unique exactly when the new id is not already present |
| `Appointments.WithoutKeepsUnique` | src/main.js:327-338 | a delete never introduces a duplicate id |
| `Appointments.AddThenDeleteRestores` | script.js:227-239 | adding an entry with a fresh id and deleting that id gives back the original list |
| `Forms.TrimStart` | src/main.js:204-209 | the result is a suffix of the input, what was cut is whitespace, and it does not start with whitespace |
| `Forms.TrimEnd` | src/main.js:204-209 | the result is a prefix of the input, what was cut is whitespace, and it does not end with whitespace |
| `Forms.Trim` | src/main.js:204-209 | the trimmed value neither starts nor ends with a JavaScript whitespace or line-terminator character |
| `Forms.TrimDecomposes` | src/main.js:204-209 | the input is a blank head, the trimmed value, and a blank tail |
| `Forms.TrimEmptyIffBlank` | src/main.js:204-209 | trimming gives the empty string exactly when the input is whitespace only |
| `Forms.TrimIdempotent` | src/main.js:203-210 | trimming twice equals trimming once |
| `Forms.TrimmedForm` | src/main.js:203-210 | the service is read untrimmed; each free-text field reads empty exactly when its raw value is whitespace only |
| `Forms.RequiredPresent` | src/main.js:215-216 | the guard passes exactly when none of owner, email, phone, pet and service is the empty string; the message is not among them |
| `Forms.MainValidationExact` | src/main.js:214-220 | a submission is rejected exactly when owner, email, phone or pet is whitespace only, or no service is chosen |
| `Forms.MainStricter` | src/main.js:203-216 | every form the trimmed check of src/main.js accepts is also accepted by the raw check of script.js |
| `Forms.WhitespaceOnlyPassesScriptOnly` | script.js:144-157 | a whitespace-only owner name passes the untrimmed check and fails the trimmed one |
| `Forms.RequestFor` | src/main.js:234-238 | the POST body has title "Cita para" plus the owner, a body naming service and pet, and user id 1 |
| `Forms.NewAppointment` | src/main.js:251-259 | the id is the response id when truthy (not 0, not ""), otherwise the clock value; the six form values and the date are carried unchanged |
| `Rendering.EscapeHtml` | src/main.js:474-479 | an empty text gives the empty string, any other text the serialiser's output |
| `Rendering.CardOf` | src/main.js:388-465 | a card shows the owner, date, pet, phone, email and service label each through the escaping function, carries the appointment's id on its delete button, and has a message block exactly when the message is non-empty |
| `Rendering.Cards` | src/main.js:387-467 | one card per appointment, the i-th card built from the i-th appointment |
| `Rendering.Render` | src/main.js:378-467 | an empty list shows the placeholder and hides the list; otherwise one card per entry in order, with its id on the delete button, its service label, and a message block exactly when the message is non-empty |
| `Rendering.RenderEscaped` | src/main.js:398-461 | every card field of the main build is the escaped stored value; the message block holds the escaped message |
| `Rendering.RenderRaw` | script.js:265-342 | every card field of the older build is the stored value inserted as it is |
| `Rendering.CardsAfterDelete` | src/main.js:331-333 | the cards after a delete are the earlier cards with that id's cards removed, the rest unchanged and in order |
| `Rendering.DeletedCardGone` | script.js:235-237 | after a delete of an id, no rendered card carries that id |
| `MainBuild.MainPage.constructor` | src/main.js:4 | the page starts with an empty list, the browser's storage as kept, and nothing rendered |
| `MainBuild.MainPage.SaveAppointments` | src/main.js:340-349 | a successful write puts the whole list under the key and touches no other key; a failed one changes nothing and raises the warning |
| `MainBuild.MainPage.RenderAppointments` | src/main.js:367-471 | the page shows the escaped projection of the current list |
| `MainBuild.MainPage.AddAppointment` | src/main.js:318-324 | the entry is appended and the length grows by one; storage then mirrors the list, or is untouched if the write failed while the entry stays in memory; the page is redrawn |
| `MainBuild.MainPage.DeleteAppointment` | src/main.js:327-338 | confirmed: the list becomes the filtered list, then is saved and drawn; cancelled: list, storage and page are unchanged |
| `MainBuild.MainPage.LoadAppointments` | src/main.js:351-365 | a saved list replaces memory and is drawn; an absent or empty value changes nothing; unparseable text or a failing read resets the list to empty without error or render; storage is not written |
| `MainBuild.MainPage.HandleFormSubmit` | src/main.js:195-288 | invalid: error banner, no request, nothing changes; rejected: request sent, error banner, nothing changes; accepted: the new record is appended, saved, drawn, the form reset and the success banner shown |
| `MainBuild.ReloadAfterAdd` | src/main.js:340-365 | a list saved after an add is restored entry for entry when the page is opened again |
| `MainBuild.DeleteOneScenario` | src/main.js:327-338 | deleting an id present once in a saved list with unique ids stores a list one shorter and leaves no card for it |
| `ScriptBuild.ScriptPage.constructor` | script.js:1 | the page starts with an empty list, the browser's storage as kept, and nothing rendered |
| `ScriptBuild.ScriptPage.SaveAppointments` | script.js:241-243 | a successful write puts the whole list under the key; a failed one changes nothing and throws |
| `ScriptBuild.ScriptPage.RenderAppointments` | script.js:253-344 | the page shows the unescaped projection of the current list |
| `ScriptBuild.ScriptPage.AddAppointment` | script.js:227-231 | the entry is appended; storage then mirrors the list and the page is redrawn, or, if the write throws, storage and page stay as they were with the entry in memory |
| `ScriptBuild.ScriptPage.DeleteAppointment` | script.js:233-239 | confirmed: the list becomes the filtered list, saved and drawn unless the write throws; cancelled: nothing changes |
| `ScriptBuild.ScriptPage.LoadAppointments` | script.js:245-251 | a saved list replaces memory and is drawn; an absent or empty value changes nothing; unparseable text or a failing read throws and changes nothing |
| `ScriptBuild.ScriptPage.HandleFormSubmit` | script.js:139-208 | raw values are checked; invalid or rejected requests change nothing; an accepted one appends the record with raw fields, and a failing save shows the error banner and skips the reset |
| `ScriptBuild.FirstBookingScenario` | script.js:180-190 | from no saved data, one accepted booking shows one card labelled "Vacunación", the list visible and the placeholder hidden |
| `ScriptBuild.UnescapedMessageScenario` | script.js:336-340 | a message containing markup reaches the card unchanged |

## Findings

| source | as written | input that shows it | evidently intended | confidence | as-written member | corrected member |
|---|---|---|---|---|---|---|
| src/main.js:490 (and script.js:355) | the lookup `services[serviceCode]` reads through the object literal's prototype chain, so names inherited from Object.prototype are found as if they were services | service code `"toString"` (or `"constructor"`, `"__proto__"`) in a stored appointment: the card shows the text of a native function (for `"__proto__"`, the text `[object Object]`) instead of the code | codes outside the six-entry table are shown verbatim | not executed; high for the lookup, low reach (the form's selector only offers the six codes) | `Lookups.ServiceLookupAsWritten`, `Lookups.ServiceLookupPassThroughFails` | `Lookups.ServiceName` |

## Left out

- Network: the weather and quote fetches, and the POST itself. The POST is replaced by its outcome: rejected, or accepted with an optional id. A request that never answers, leaving the button disabled, is not represented.
- JSON and localStorage: the stored text is abstracted to `Stored`. `Saved(xs)` is any stored text that `JSON.parse` turns into the list of records `xs`; what `JSON.stringify(xs)` writes is one such text. `Unreadable(text)` is the empty string or text that `JSON.parse` rejects. Stored text that parses to a non-list value (for example `5`, `null` or `{}`), or to records with missing fields, is not modelled.
- `Rendering.Render`: the service label on a card is the corrected `ServiceName`, not the lookup as written, so a stored code that names an Object.prototype member renders as the code itself; what the source shows there is stated by `Lookups.ServiceLookupAsWritten` (see Findings).
- `Rendering.EscapeHtml`: the browser's `textContent`/`innerHTML` serialiser is a parameter, so the model does not prove that markup is neutralised. Only the falsy-input case comes from the code. Fields that are missing, as opposed to empty, are not modelled because every record field is a string.
- DOM: the missing-element guards in `renderAppointments` and `showFormStatus` are left out, including the alert fallback. So are the submit button's disabled state and label. A submission is one atomic step, so the in-flight state and the `finally` clean-up are not represented. `form.reset` is the `formReset` flag. The 5 s banner dismissal and the 1.5 s scroll are left out.
- The delete button passes the id through an inline `onclick` attribute, which re-reads it as script text. The model passes the card's own id. What a string id becomes after that re-reading is not modelled.
- Clock and locale: `Date.now()` and `toLocaleDateString` are the parameters `now` and `fecha`.
- JavaScript numbers are modelled as unbounded integers. Ids and weather codes that are fractions, NaN or beyond 2^53 are not modelled.
- Navigation, smooth scrolling, the navbar scroll effect, the scroll animations, the Enter-key suppression, the parallax effect and the temperature text are page wiring with no state the subsystem reads, so they are left out. Console logging is left out too.
