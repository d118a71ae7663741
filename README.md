# Subscription tracker: store and form state machine

This project models the core of a browser-side subscription tracker: the records kept in memory, the "currently editing" id, and the value written to the browser's storage key `subscriptions`. The handlers that change them are modelled too: the initial load, form submission (add or update), the edit and delete buttons on a card, and saving. The upcoming-payments filter is modelled as a pure function over the list.

Layout:

- `wrappers.dfy` (`Wrappers`): `Option` (JavaScript `null`) and `Result` (an operation that throws).
- `seqs.dfy` (`Seqs`): order-preserving `Filter`, the model of `Array.prototype.filter`, with its lemmas.
- `records.dfy` (`Records`): the `Subscription` record and the form fields. Also JavaScript's `trim`, the validation, `findIndex`/`find` by id, the id filter used by delete, and the lemmas that keep ids unique. It holds the six seed records and `Load` over the stored value.
- `upcoming.dfy` (`Upcoming`): the seven-day window filter and the "none"/cards view.
- `store.dfy` (`Store`): the class `Tracker`. Its fields `subscriptions`, `editingId` and `stored` are updated by the handler methods.
- `scenarios.dfy` (`Scenarios`): short sequences of user actions and what they lead to.

`Tracker.Valid()` is the invariant kept by every handler: loading the stored value gives back the in-memory list. This is the "persist after every mutation" rule. It already holds right after start-up, because an absent key loads as the seed.

At these points the code does something a reader may not expect; the model follows the code:

- A stored value that cannot be parsed makes the start-up script throw (`JSON.parse` is outside any `try`). It does not fall back to the seed. `Load` returns `Failure` for that case, and the `Tracker` constructor needs a load that succeeds.
- The upcoming window compares instants, not calendar days. `new Date("YYYY-MM-DD")` reads a date-only string as UTC midnight of that day. So, when "today" is the UTC date at `now`, a record dated today is excluded once `now` is past that UTC midnight (`Upcoming.DayBoundaries`).
- Validation uses JavaScript truthiness, so a price of `0` is rejected as "missing". Because `NaN` is rejected by the same test, the later "Price must be a number" branch never fires (`Records.Check`). Negative prices are accepted.
- `editingId` is also tested by truthiness, so an id of `0` counts as "not editing". Saving then appends a new record and leaves `editingId` at `0` (`Scenarios.EditIdZero`).
- Delete removes every record holding the id. Ids are unique only while every clock value used for a new id is fresh. The model proves each handler keeps uniqueness under that assumption.
- If the record being edited has been deleted, `findIndex` gives `-1`. The assignment `subscriptions[-1] = …` then sets a non-index property, which neither rendering nor `JSON.stringify` sees. The list is unchanged and editing ends (`Scenarios.EditDeletedThenSubmit`).
- Clicking edit or delete for an id that no record holds throws while reading `subscription.name`, so nothing changes.

Foreign inputs become parameters:

- `Date.now()` is the `clock` argument of `Submit`.
- The `confirm` answer is the `confirmed` argument of `DeleteClick`.
- `new Date(renewalDate)` is a total function `parse: string -> Option<int>` giving milliseconds, with `None` for an invalid date.
- The current instant is `now`.
- `parseFloat` of the price field is a `Price`: either `NaN` or a number.

## Model

| member | source | states |
|---|---|---|
| Seqs.Filter | scripts.js:134 | every element of the result is one the predicate keeps, and the result is no longer than the input |
| Seqs.FilterMembers | scripts.js:134 | the result holds exactly the elements of the input that the predicate keeps |
| Seqs.FilterSingle | scripts.js:147-150 | a one-element list is kept exactly when the predicate keeps its element |
| Seqs.FilterConcat | scripts.js:147-150 | filtering distributes over concatenation, so survivors keep their relative order |
| Seqs.FilterKeepsAll | scripts.js:134 | a list whose elements are all kept is returned unchanged |
| Seqs.FilterPairwise | scripts.js:134 | a relation holding between every earlier and later element still holds after filtering |
| Seqs.FilterDropsOne | scripts.js:134 | when exactly one position is rejected, the result is the list with that position cut out |
| Records.LeadingSpace | scripts.js:47 | the length of the longest whitespace prefix |
| Records.TrailingSpace | scripts.js:47 | the length of the longest whitespace suffix |
| Records.Trim | scripts.js:47 | the trimmed name is a contiguous slice with only whitespace around it; it is empty exactly when the name is all whitespace, and otherwise starts and ends with non-whitespace |
| Records.TrimUnpadded | scripts.js:47 | a name with no surrounding whitespace is kept as it is |
| Records.Check | scripts.js:53-60 | a submission passes exactly when the trimmed name is non-empty, the price is a non-zero number, and the date and cycle are non-empty; zero, NaN and all-whitespace names get the "fill out all fields" alert; the "not a number" alert never occurs |
| Records.PriceTruthy | scripts.js:53 | the `!price` test: a price counts as given exactly when it is a number other than zero, so `NaN`, `0` and `-0` count as missing |
| Records.NewRecord | scripts.js:62-68 | the new record holds the given id, the trimmed name, the parsed price and the date and cycle as entered; after validation no field is empty, the name has no surrounding whitespace and the price is not zero |
| Records.IsEditing | scripts.js:63 | the truthiness test of `editingId` at lines 63 and 70: editing exactly when the id is not `null` and not `0` |
| Records.FirstIndex | scripts.js:72 | -1 exactly when no record holds the id; otherwise a position holding the id with no earlier one |
| Records.Find | scripts.js:118 | none exactly when no record holds the id; otherwise the record at the first position holding it |
| Records.FirstIndexUnique | scripts.js:72 | with unique ids, the first position of a record's id is that record's position |
| Records.RemoveId | scripts.js:134 | the survivors are exactly the records whose id differs; no survivor holds the id |
| Records.RemoveAbsentId | scripts.js:134 | removing an id that no record holds leaves the list unchanged |
| Records.RemoveIdConcat | scripts.js:134 | removal distributes over concatenation, so survivors keep their relative order |
| Records.RemoveUniqueId | scripts.js:134 | with unique ids, removal deletes exactly the one position holding the id, so the length drops by one |
| Records.RemoveKeepsUnique | scripts.js:134 | removal keeps ids unique |
| Records.AppendKeepsUnique | scripts.js:78 | appending a record whose id is not present keeps ids unique |
| Records.ReplaceKeepsUnique | scripts.js:72-73 | replacing a record by one with the same id keeps ids unique |
| Records.Seed | scripts.js:14-21 | the six example records used when nothing is stored, with their ids, names, prices, dates and cycles |
| Records.SeedShape | scripts.js:14-21 | the seed has six records with ids 1 to 6 in order, so its ids are unique |
| Records.Load | scripts.js:23 | a saved list is returned even when empty; a missing key gives the seed; an unparsable value fails |
| Upcoming.InWindow | scripts.js:148-149 | an instant is in the window exactly when it lies in the closed range [now, now + 7 days]; an invalid date is never in it, because every comparison with it is false |
| Upcoming.IsDue | scripts.js:147-149 | the filter callback: a record is due exactly when its parsed renewal date is in the window |
| Upcoming.Upcoming | scripts.js:147-150 | the result holds exactly the records whose renewal instant lies in [now, now + 7 days]; it is empty exactly when no record qualifies |
| Upcoming.UpcomingConcat | scripts.js:147-150 | the window filter keeps list order: it distributes over concatenation |
| Upcoming.UpcomingAppend | scripts.js:147-150 | appending a record to the list appends it to the result exactly when it is due |
| Upcoming.ViewOf | scripts.js:152-155 | the "none" message is shown exactly when no record is due; otherwise the non-empty due list is shown in list order; an empty list always shows "none" |
| Upcoming.DayBoundaries | scripts.js:143-149 | with "today" the UTC date at now and each date read as its UTC midnight, records dated today, today + 7, today + 8 and yesterday, seen after today's UTC midnight: only today + 7 is shown |
| Upcoming.TodayAtMidnight | scripts.js:143-149 | at exactly midnight a record dated today is shown |
| Store.Tracker.Valid | scripts.js:86-87 | the persistence invariant: loading the stored value, as start-up at line 23 does, gives back the in-memory list |
| Store.Tracker.constructor | scripts.js:23-24 | start-up loads the list from storage, starts with nothing being edited, and satisfies the persistence invariant |
| Store.Tracker.Save | scripts.js:86-87 | the stored value becomes the whole current list |
| Store.Tracker.Submit | scripts.js:44-83 | an invalid form changes nothing; a valid one either appends one record with the clock's id (length + 1, earlier records unchanged) or replaces the first record holding the edited id, keeping the length and ending editing; the list is then saved; ids stay unique when the clock value is fresh |
| Store.Tracker.EditClick | scripts.js:117-128 | the form is filled from the first record holding the id and editing starts at that id; an id no record holds changes nothing; list and stored value never change |
| Store.Tracker.DeleteClick | scripts.js:131-136 | a delete happens exactly when a record holds the id and the user confirms; it removes every record holding the id and saves; otherwise nothing changes; editing state is kept; with unique ids the length drops by one |
| Store.Tracker.ShowUpcoming | scripts.js:141-153 | the view of the current list: "none" exactly when no record is due |
| Scenarios.TestFormValid | scripts.js:47-68 | the example form "Test" / 100 / monthly with a date passes validation and builds a record with the name as typed |
| Scenarios.SeedThenAdd | scripts.js:44-83 | after start-up with nothing stored and adding "Test" due in three days, seven records exist and the upcoming view shows the new one |
| Scenarios.EditDeletedThenSubmit | scripts.js:70-74 | editing, deleting that record and submitting leaves the list empty and ends editing |
| Scenarios.EditIdZero | scripts.js:63-79 | editing a record with id 0 and submitting appends a record with the clock's id and editing stays at 0 |
| Scenarios.CancelledDelete | scripts.js:133-136 | a cancelled delete keeps the list and the stored value |

## Left out

- Rendering: element lookup, cards, `innerHTML`, `scrollIntoView`, the button label and the form reset (scripts.js:2-10, 75, 82, 88, 92-111, 155-165). These are presentation only.
- Navigation tabs, the notification and theme toggles, and the simulated password form (scripts.js:27-41, 171-192). They hold no store logic.
- Clicks on a card outside its two buttons, and clicks outside any card (scripts.js:115-116). They do nothing.
- `localStorage` and JSON: the stored value is the abstract `Persisted`. Serialising and parsing are assumed to reproduce every record field for field. A failing storage write is not modelled.
- Date handling: `new Date` parsing and time zones are the `parse` parameter. `setDate(getDate() + 7)` is modelled as exactly seven days of milliseconds, so a daylight-saving shift inside the window is not captured. The two clock reads behind `today` and `next7Days` are taken as the same instant.
- Upcoming.DayBoundaries: covers only the case where "today" is the UTC date at `now`. For local calendar days the result depends on the time-zone offset, because `next7Days` moves the local date while dates parse as UTC midnight. For example, at UTC+05:30 early in the morning a record dated today is shown and one dated today + 7 is not. This is not modelled because time zones are out.
- Stored values other than arrays: `JSON.parse(...) || seed` also gives the seed for a stored value that parses to something falsy (`null`, `false`, `0`, `""`), and keeps any other parsed value, such as an object. `Persisted` represents only a missing key, an unparsable value and a stored array, because the tracker itself only ever writes arrays.
- Number formatting and parsing: `toFixed`, `toLocaleDateString` and `parseFloat` are out. A price is a real number or `NaN`, not an IEEE double. So an infinite price is not represented: `parseFloat("1e400")` gives `Infinity`, which passes validation, is saved as `null` by `JSON.stringify` and, after a reload, makes `toFixed` throw.
- Store.Tracker.constructor: the start-up failure on an unparsable stored value is a precondition, not a modelled state, because no tracker exists after the script throws; `Records.Load` models that failure.
- Ids found in a card are parsed with `parseInt(card.dataset.id)` and are modelled as integers. Non-integer ids from a hand-edited store are out.
