# Resource board model

A verified model of the `App` component of the educational and healthcare
resources client. The component keeps a list of resources (title, content,
category, plus a backend-assigned id), a three-field form for a new resource,
a loading flag, an error message, a search term and a dark-mode flag. It
fetches the list once when it mounts, appends the record the backend returns
when a new resource is created, and renders the resources whose title,
content or category contains the search term, compared case-insensitively.

The model has five modules:

- `Strings` (`strings.dfy`): per-character lower-casing (`toLowerCase`), the
  substring predicate (`includes`) and a left-to-right search loop proved
  equal to it.
- `Resources` (`resources.dfy`): the `Resource` record, the id-less `Draft`
  the form edits, and the three form field names.
- `Search` (`search.dfy`): the filter behind `filteredResources`, its
  characterisation as the exact subsequence of matching positions, and its
  behaviour under empty, case-variant and concatenated inputs.
- `App` (`app.dfy`): the component state, an `Event` per state update (each
  network outcome is an event carrying the response), one handler per update,
  `Step`, `Run` over a sequence of events, and properties of whole runs.
- `Scenarios` (`scenarios.dfy`): the search, fetch and create walk-throughs on
  concrete records.

The handlers have no guards, so `Step` accepts any event in any state; the
intended order (one fetch outcome after mount, then user input and create
outcomes) is a property of the environment, not of the component.

A failed fetch leaves the list as it was (`OnFetchFailure`). It is empty
afterwards when no create was answered first, as from the initial state
(`Scenarios.FetchFailureScenario`); a create submitted while loading and
answered before the failure leaves its record in the list
(`Scenarios.EarlySubmitScenario`). Non-empty fields are enforced only by the
inputs' `required` attributes, so the model allows empty fields.

A successful create sets the list to the list captured when the form was
submitted, followed by the returned record (src/App.jsx:42 builds it from the
`resources` of the submitting render). The `SubmitSucceeded` event therefore
carries that captured list. The form is rendered while the list is still
loading, so a create submitted before the fetch answers captures the empty
list; if its answer arrives after the fetch, the fetched records are dropped
(`Scenarios.StaleSubmitScenario`). The run properties that speak of appending
(`App.RunAppendOnly`) assume `App.FreshSubmits`: every create captured the
list as it stands when its answer arrives.

## Model

| member | source | states |
|---|---|---|
| Strings.Lower | src/App.jsx:56-58 | lower-casing one character maps each ASCII capital to its own small letter (same distance from 'a' as from 'A'), never yields a capital, and leaves every other character alone |
| Strings.LowerStr | src/App.jsx:56-58 | lower-casing a string keeps its length and lower-cases each character in place, leaving no ASCII capital |
| Strings.LowerEqual | src/App.jsx:56-58 | two characters lower-case alike exactly when they are equal or one is the capital of the other |
| Strings.LowerStrEqual | src/App.jsx:56-58 | two strings lower-case alike exactly when they have the same length and agree up to ASCII case at every position |
| Strings.EmptySubstring | src/App.jsx:55-58 | the empty query is contained in every string, so `includes('')` is always true |
| Strings.Includes | src/App.jsx:56-58 | the left-to-right search answers true exactly when the needle occurs at some position of the haystack |
| Resources.WithField | src/App.jsx:32-35 | writing one field of the draft sets that field to the value and leaves the other two fields as they were |
| Search.Filter | src/App.jsx:55-59 | the filtered list is no longer than the list, and a resource is in it exactly when it is in the list and its lower-cased title, content or category contains the lower-cased query |
| Search.FilterAtMatchPositions | src/App.jsx:55-59 | the filtered list is the full list read at the computed matching positions, which increase and are exactly the positions whose resource matches |
| Search.FilterPositions | src/App.jsx:55-59 | the filtered list is the full list read at strictly increasing positions, and those positions are exactly the ones whose resource matches |
| Search.FilterIsSubsequence | src/App.jsx:55-59 | the filtered list is a subsequence of the full list in the same relative order |
| Search.FilterConcat | src/App.jsx:55-59 | filtering a concatenation is the concatenation of the filtered parts |
| Search.FilterAppend | src/App.jsx:55-59 | appending one resource extends the filtered list by that resource exactly when it matches |
| Search.FilterEmptyQuery | src/App.jsx:55-58 | an empty search term keeps every resource, in order |
| Search.FilterCaseInsensitive | src/App.jsx:56-58 | two queries with the same lower-cased image select the same resources |
| Search.FilterLowerQuery | src/App.jsx:56-58 | searching for the lower-cased query gives the same result as searching for the query |
| Search.MatchesExec | src/App.jsx:56-58 | the three `includes` calls on lower-cased fields answer exactly the match predicate |
| Search.FilterResources | src/App.jsx:55-59 | one pass keeping the matching resources computes exactly the filtered list |
| App.OnFetchSuccess | src/App.jsx:19-22 | a successful fetch makes the list exactly the returned records and ends loading; form, error, search and theme are unchanged |
| App.OnFetchFailure | src/App.jsx:23-27 | a failed fetch sets the error to "Failed to fetch resources." and ends loading; the list, form, search and theme are unchanged |
| App.HandleChange | src/App.jsx:30-35 | a field edit sets exactly the named form field to the new value; the other two fields and the rest of the state are unchanged |
| App.OnSubmitSuccess | src/App.jsx:41-44 | a successful create makes the list the list captured at submit time followed by the returned record, and empties all three form fields; error, loading, search and theme are unchanged |
| App.OnSubmitFailure | src/App.jsx:45-48 | a failed create sets the error to "Failed to add resource." and keeps the list and the form contents for a retry |
| App.HandleSearchChange | src/App.jsx:51-53 | a search edit sets the search term and changes nothing else |
| App.ToggleDarkMode | src/App.jsx:61-63 | a toggle negates the theme flag and changes nothing else |
| App.Step | src/App.jsx:17-63 | only list outcomes change the list, only edits and a successful create change the form, only fetch outcomes change loading and only to false, only failures change the error and only to their own message, only search edits change the search term, and the theme flips exactly on a toggle |
| App.Listing | src/App.jsx:92-101 | nothing is listed while loading; otherwise the listed resources are exactly the matching members of the list |
| App.ToggleTwice | src/App.jsx:61-63 | toggling the theme twice restores the whole state |
| App.RunDarkMode | src/App.jsx:61-63 | after any sequence of events the theme is flipped exactly when it was toggled an odd number of times |
| App.RunError | src/App.jsx:23-27 | no event clears the error: after any run it is the original message or one of the two failure messages |
| App.RunLoading | src/App.jsx:19-27 | once loading has ended, no sequence of events starts it again |
| App.RunAppendOnly | src/App.jsx:41-44 | without a fetch outcome, and with every create answered against the current list, the list only grows at its end, by the created records in submission order, and loading does not move |
| App.RunThemeIndependent | src/App.jsx:61-63 | two states that differ only in the theme stay that way under any sequence of events |
| App.RunSearchIndependent | src/App.jsx:51-53 | two states that differ only in the search term stay that way under any sequence of events, so the search never affects the list |
| App.FetchReplaces | src/App.jsx:19-22 | after a successful fetch the earlier list and loading flag no longer matter: runs starting from states that differ only in them coincide, given the same later events |
| App.SubmitListing | src/App.jsx:41-44 | after a successful create the listing is the captured list's matches followed by the new record exactly when it matches the search term; with the current list captured, the listing gains that record at its end |
| Scenarios.MathMatchesAlg | src/App.jsx:56-58 | the record Math / "Algebra basics" / Education matches the query "alg" through its content |
| Scenarios.MathMissesHealth | src/App.jsx:56-58 | the same record matches "health" in none of its three fields |
| Scenarios.SearchScenario | src/App.jsx:55-59 | for the record Math / "Algebra basics" / Education, the query "alg" finds it and "health" finds nothing |
| Scenarios.CaseScenario | src/App.jsx:56-58 | "ABC" and "abc" select the same resources from any list |
| Scenarios.FetchFailureScenario | src/App.jsx:10-27 | from the initial state a failed fetch yields an empty list, the fetch error, loading false and an empty listing |
| Scenarios.FetchSuccessScenario | src/App.jsx:10-22 | from the initial state a successful fetch lists every returned record |
| Scenarios.FilledForm | src/App.jsx:10-35 | after the fetch and three field edits the form holds the typed values and the list the fetched record |
| Scenarios.CreateSuccessScenario | src/App.jsx:41-44 | a successful create after filling the form appends the returned record and clears the form |
| Scenarios.CreateFailureScenario | src/App.jsx:45-48 | a failed create after filling the form keeps the list and the typed values and shows the add error |
| Scenarios.EarlySubmitScenario | src/App.jsx:23-27 | a create submitted while loading and answered before the fetch fails keeps its record: the list is the created record alone, with the fetch error shown and loading ended |
| Scenarios.StaleSubmitScenario | src/App.jsx:40-44 | a create submitted while loading captures the empty list; answered after the fetch, it leaves only the created record |

## Left out

- HTTP: the two `axios` requests and the backend URL. Each response is an
  event carrying the returned list or record, or a failure. The request body
  of a create is the current form draft; the backend's answer is taken as given.
- Response shape: the backend's JSON is taken to have the `{ id, title,
  content, category }` shape with string fields; no validation is modelled.
- React scheduling: hooks, effect timing and re-rendering. The moment a
  form is submitted is not an event of its own; it shows only in the list a
  successful create carries.
- Strings.Lower: ASCII letters only. JavaScript's `toLowerCase` follows full
  Unicode case mapping, including characters that lower-case to several.
- App.HandleChange: the source writes any input's `name` as a key of the
  draft. Only the three form inputs exist, so the model restricts names to
  `Title`, `Content` and `Category`.
- Rendering: JSX, CSS classes, the error paragraph, and the `required`
  attributes on the form inputs, which the browser enforces before submit.
- The `/login` and `/register` routes and their components. They are not part
  of this model.
- `console.error` logging on both failure paths.
