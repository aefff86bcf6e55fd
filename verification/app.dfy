/** The `App` component's state and its event handlers. Every network
    outcome arrives as an explicit event, so each handler is a pure update
    of the whole state. */
module App {
  import opened Resources
  import opened Search

  /** The component's `useState` hooks, one field each. */
  datatype State = State(
    resources: seq<Resource>,
    newResource: Draft,
    loading: bool,
    error: string,
    searchTerm: string,
    darkMode: bool)

  datatype Option<T> = None | Some(value: T)

  const FetchError: string := "Failed to fetch resources."
  const AddError: string := "Failed to add resource."

  /** The values the hooks start with: no resources, an empty form, loading,
      no error, no search, light theme. */
  const Initial: State := State([], EmptyDraft, true, "", "", false)

  /** Everything that updates the state: the two network outcomes of each
      request, and the three kinds of user input. A successful create carries,
      besides the record the backend returned, the list as it was when the
      form was submitted: the handler appends to that captured list, not to
      the list current when the answer arrives. */
  datatype Event =
    | FetchSucceeded(list: seq<Resource>)
    | FetchFailed
    | FieldEdited(name: Field, value: string)
    | SubmitSucceeded(captured: seq<Resource>, created: Resource)
    | SubmitFailed
    | SearchChanged(term: string)
    | DarkModeToggled

  /** The list request answered: its records replace the list and loading ends. */
  function OnFetchSuccess(s: State, list: seq<Resource>): (t: State)
    ensures t.resources == list && !t.loading
    ensures t.newResource == s.newResource && t.error == s.error
    ensures t.searchTerm == s.searchTerm && t.darkMode == s.darkMode
  {
    s.(resources := list, loading := false)
  }

  /** The list request failed: the fetch error is shown and loading ends; the list is untouched. */
  function OnFetchFailure(s: State): (t: State)
    ensures t.error == FetchError && !t.loading
    ensures t.resources == s.resources && t.newResource == s.newResource
    ensures t.searchTerm == s.searchTerm && t.darkMode == s.darkMode
  {
    s.(error := FetchError, loading := false)
  }

  /** `handleChange`: the named form field takes the typed value; nothing else changes. */
  function HandleChange(s: State, name: Field, value: string): (t: State)
    ensures FieldOf(t.newResource, name) == value
    ensures forall f :: f != name ==> FieldOf(t.newResource, f) == FieldOf(s.newResource, f)
    ensures t.resources == s.resources && t.loading == s.loading && t.error == s.error
    ensures t.searchTerm == s.searchTerm && t.darkMode == s.darkMode
  {
    s.(newResource := WithField(s.newResource, name, value))
  }

  /** The create request answered: the list becomes the list captured at
      submit time followed by the returned record, and the form is cleared.
      An earlier error message stays. When nothing else changed the list
      while the request was in flight, this appends to the current list. */
  function OnSubmitSuccess(s: State, captured: seq<Resource>, created: Resource): (t: State)
    ensures |t.resources| == |captured| + 1
    ensures t.resources[..|captured|] == captured
    ensures t.resources[|captured|] == created
    ensures forall f :: FieldOf(t.newResource, f) == ""
    ensures t.error == s.error && t.loading == s.loading
    ensures t.searchTerm == s.searchTerm && t.darkMode == s.darkMode
  {
    s.(resources := captured + [created], newResource := EmptyDraft)
  }

  /** The create request failed: the add error is shown; the list and the
      form keep their contents so the user can retry. */
  function OnSubmitFailure(s: State): (t: State)
    ensures t.error == AddError
    ensures t.resources == s.resources && t.newResource == s.newResource
    ensures t.loading == s.loading && t.searchTerm == s.searchTerm && t.darkMode == s.darkMode
  {
    s.(error := AddError)
  }

  /** `handleSearchChange`: only the search term changes. */
  function HandleSearchChange(s: State, term: string): (t: State)
    ensures t.searchTerm == term
    ensures t.resources == s.resources && t.newResource == s.newResource
    ensures t.loading == s.loading && t.error == s.error && t.darkMode == s.darkMode
  {
    s.(searchTerm := term)
  }

  /** `toggleDarkMode`: only the theme flag changes, to its negation. */
  function ToggleDarkMode(s: State): (t: State)
    ensures t.darkMode != s.darkMode
    ensures t.resources == s.resources && t.newResource == s.newResource
    ensures t.loading == s.loading && t.error == s.error && t.searchTerm == s.searchTerm
  {
    s.(darkMode := !s.darkMode)
  }

  /** One event applied to the state. Each part of the state has its own
      events: only the list outcomes move the list, only the fetch outcomes
      end loading, only failures set an error, and so on. */
  function Step(s: State, e: Event): (t: State)
    ensures t.resources != s.resources ==> e.FetchSucceeded? || e.SubmitSucceeded?
    ensures t.newResource != s.newResource ==> e.FieldEdited? || e.SubmitSucceeded?
    ensures t.loading != s.loading ==> (e.FetchSucceeded? || e.FetchFailed?) && !t.loading
    ensures t.error != s.error ==>
              (e.FetchFailed? && t.error == FetchError) || (e.SubmitFailed? && t.error == AddError)
    ensures t.searchTerm != s.searchTerm ==> e.SearchChanged?
    ensures t.darkMode != s.darkMode <==> e.DarkModeToggled?
  {
    match e
    case FetchSucceeded(list) => OnFetchSuccess(s, list)
    case FetchFailed => OnFetchFailure(s)
    case FieldEdited(name, value) => HandleChange(s, name, value)
    case SubmitSucceeded(captured, created) => OnSubmitSuccess(s, captured, created)
    case SubmitFailed => OnSubmitFailure(s)
    case SearchChanged(term) => HandleSearchChange(s, term)
    case DarkModeToggled => ToggleDarkMode(s)
  }

  /** The events applied one after another, oldest first. */
  function Run(s: State, es: seq<Event>): State
    decreases |es|
  {
    if |es| == 0 then s else Run(Step(s, es[0]), es[1..])
  }

  /** What the list area renders: nothing while loading, otherwise the
      filtered resources. */
  function Listing(s: State): (r: Option<seq<Resource>>)
    ensures r.None? <==> s.loading
    ensures r.Some? ==> forall x :: x in r.value <==> x in s.resources && Matches(x, s.searchTerm)
  {
    if s.loading then None else Some(Filter(s.resources, s.searchTerm))
  }

  /** Toggling the theme twice restores the state. */
  lemma ToggleTwice(s: State)
    ensures Step(Step(s, DarkModeToggled), DarkModeToggled) == s
  {
  }

  /** The number of theme toggles among the events. */
  function Toggles(es: seq<Event>): nat {
    if |es| == 0 then 0 else (if es[0].DarkModeToggled? then 1 else 0) + Toggles(es[1..])
  }

  /** After any run the theme is flipped exactly when it was toggled an odd number of times. */
  lemma {:induction false} RunDarkMode(s: State, es: seq<Event>)
    ensures Run(s, es).darkMode == (s.darkMode != (Toggles(es) % 2 == 1))
    decreases |es|
  {
    if |es| > 0 {
      RunDarkMode(Step(s, es[0]), es[1..]);
    }
  }

  predicate IsErrorMessage(m: string) {
    m == FetchError || m == AddError
  }

  /** No event clears the error: after any run it is the original message or one of the two failure messages. */
  lemma {:induction false} RunError(s: State, es: seq<Event>)
    ensures Run(s, es).error == s.error || IsErrorMessage(Run(s, es).error)
    decreases |es|
  {
    if |es| > 0 {
      RunError(Step(s, es[0]), es[1..]);
    }
  }

  /** Once loading has ended it never starts again. */
  lemma {:induction false} RunLoading(s: State, es: seq<Event>)
    requires !s.loading
    ensures !Run(s, es).loading
    decreases |es|
  {
    if |es| > 0 {
      RunLoading(Step(s, es[0]), es[1..]);
    }
  }

  predicate NoFetch(es: seq<Event>) {
    forall k :: 0 <= k < |es| ==> !es[k].FetchSucceeded? && !es[k].FetchFailed?
  }

  /** The records created by successful submits, in order. */
  function Created(es: seq<Event>): seq<Resource> {
    if |es| == 0 then []
    else (if es[0].SubmitSucceeded? then [es[0].created] else []) + Created(es[1..])
  }

  /** Every successful create in the run captured the list as it stands when
      its answer arrives: no other list update happened while it was in flight. */
  predicate FreshSubmits(s: State, es: seq<Event>)
    decreases |es|
  {
    || |es| == 0
    || ((es[0].SubmitSucceeded? ==> es[0].captured == s.resources) && FreshSubmits(Step(s, es[0]), es[1..]))
  }

  /** Without a fetch outcome, and with every create answered against the
      current list, the list only grows at its end, by the created records in
      submission order, and the loading flag does not move. */
  lemma {:induction false} RunAppendOnly(s: State, es: seq<Event>)
    requires NoFetch(es)
    requires FreshSubmits(s, es)
    ensures Run(s, es).resources == s.resources + Created(es)
    ensures Run(s, es).loading == s.loading
    decreases |es|
  {
    if |es| > 0 {
      var e, rest := es[0], es[1..];
      var t := Step(s, e);
      assert NoFetch(rest) by {
        forall k | 0 <= k < |rest| ensures !rest[k].FetchSucceeded? && !rest[k].FetchFailed? {
          assert rest[k] == es[k + 1];
        }
      }
      RunAppendOnly(t, rest);
      var added := if e.SubmitSucceeded? then [e.created] else [];
      assert Created(es) == added + Created(rest);
      assert t.resources == s.resources + added;
      assert t.loading == s.loading by {
        assert !e.FetchSucceeded? && !e.FetchFailed?;
      }
      calc {
        Run(s, es).resources;
        Run(t, rest).resources;
        (s.resources + added) + Created(rest);
        s.resources + Created(es);
      }
    }
  }

  /** Two states that differ at most in their theme flag. */
  predicate SameExceptTheme(a: State, b: State) {
    a.(darkMode := b.darkMode) == b
  }

  /** The theme is presentational: the rest of the state evolves the same whatever the theme. */
  lemma {:induction false} RunThemeIndependent(a: State, b: State, es: seq<Event>)
    requires SameExceptTheme(a, b)
    ensures SameExceptTheme(Run(a, es), Run(b, es))
    decreases |es|
  {
    if |es| > 0 {
      RunThemeIndependent(Step(a, es[0]), Step(b, es[0]), es[1..]);
    }
  }

  /** Two states that differ at most in their search term. */
  predicate SameExceptSearch(a: State, b: State) {
    a.(searchTerm := b.searchTerm) == b
  }

  /** The search term only derives a view: the rest of the state evolves the same whatever it is. */
  lemma {:induction false} RunSearchIndependent(a: State, b: State, es: seq<Event>)
    requires SameExceptSearch(a, b)
    ensures SameExceptSearch(Run(a, es), Run(b, es))
    decreases |es|
  {
    if |es| > 0 {
      RunSearchIndependent(Step(a, es[0]), Step(b, es[0]), es[1..]);
    }
  }

  /** A successful fetch forgets the previous list and loading flag: what
      follows depends only on the fetched records, the rest of the state and
      the later events (whose creates may still carry a list captured earlier). */
  lemma FetchReplaces(a: State, b: State, list: seq<Resource>, es: seq<Event>)
    requires a.newResource == b.newResource && a.error == b.error
    requires a.searchTerm == b.searchTerm && a.darkMode == b.darkMode
    ensures Run(a, [FetchSucceeded(list)] + es) == Run(b, [FetchSucceeded(list)] + es)
  {
  }

  /** After a successful submit the listing is the captured list's listing
      followed by the new record exactly when it matches the search term; when
      the captured list is the current one, the listing gains that record at its end. */
  lemma SubmitListing(s: State, captured: seq<Resource>, created: Resource)
    requires !s.loading
    ensures Listing(Step(s, SubmitSucceeded(captured, created))).value
            == Filter(captured, s.searchTerm) + (if Matches(created, s.searchTerm) then [created] else [])
    ensures captured == s.resources ==>
              Listing(Step(s, SubmitSucceeded(captured, created))).value
              == Listing(s).value + (if Matches(created, s.searchTerm) then [created] else [])
  {
  }
}
