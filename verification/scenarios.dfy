/** Concrete runs of the component: the search, fetch and create
    walk-throughs, stated on the model. */
module Scenarios {
  import opened Strings
  import opened Resources
  import opened Search
  import opened App

  const Math: Resource := Resource(1, "Math", "Algebra basics", "Education")
  const Flu: Resource := Resource(2, "Flu", "Symptoms", "Health")

  /** The algebra record matches "alg": it starts its lower-cased content. */
  lemma MathMatchesAlg()
    ensures Matches(Math, "alg")
  {
    assert LowerStr("alg") == "alg";
    assert LowerStr("Algebra basics") == "algebra basics";
    assert OccursAt("alg", LowerStr(Math.content), 0);
  }

  /** The algebra record does not match "health": the title is too short,
      and no 'h' occurs in the content or the category. */
  lemma MathMissesHealth()
    ensures !Matches(Math, "health")
  {
    var q := LowerStr("health");
    assert q == "health";
    assert LowerStr("Algebra basics") == "algebra basics";
    assert LowerStr("Education") == "education";
    assert |q| > |LowerStr(Math.title)|;
    FirstCharAbsent(q, LowerStr(Math.content));
    FirstCharAbsent(q, LowerStr(Math.category));
  }

  /** Searching "alg" finds the algebra record; searching "health" finds nothing. */
  lemma SearchScenario()
    ensures Filter([Math], "alg") == [Math]
    ensures Filter([Math], "health") == []
  {
    MathMatchesAlg();
    MathMissesHealth();
    assert [Math][..0] == [];
  }

  /** Upper-case and lower-case spellings of a query give the same results. */
  lemma CaseScenario(rs: seq<Resource>)
    ensures Filter(rs, "ABC") == Filter(rs, "abc")
  {
    assert LowerStr("ABC") == "abc" == LowerStr("abc");
    FilterCaseInsensitive(rs, "ABC", "abc");
  }

  /** A failed first fetch shows the fetch error over an empty list and ends loading. */
  lemma FetchFailureScenario()
    ensures Run(Initial, [FetchFailed]) == State([], EmptyDraft, false, FetchError, "", false)
    ensures Listing(Run(Initial, [FetchFailed])) == Some([])
  {
  }

  /** After a successful first fetch, with no search term, the whole list is shown. */
  lemma FetchSuccessScenario(list: seq<Resource>)
    ensures Listing(Run(Initial, [FetchSucceeded(list)])) == Some(list)
  {
    assert [FetchSucceeded(list)][1..] == [];
    FilterEmptyQuery(list);
  }

  /** The events of the create walk-through: the list arrives, the user
      types the three fields, and the create request ends with `outcome`. */
  function CreateRun(outcome: Event): seq<Event> {
    [FetchSucceeded([Math]), FieldEdited(Title, "Flu"), FieldEdited(Content, "Symptoms"),
     FieldEdited(Category, "Health"), outcome]
  }

  /** The state of the create walk-through just before the create outcome arrives. */
  lemma FilledForm(outcome: Event)
    ensures Run(Initial, CreateRun(outcome))
            == Step(State([Math], Draft("Flu", "Symptoms", "Health"), false, "", "", false), outcome)
  {
    var es := CreateRun(outcome);
    var s1 := Step(Initial, es[0]);
    var s2 := Step(s1, es[1]);
    var s3 := Step(s2, es[2]);
    var s4 := Step(s3, es[3]);
    assert s4 == State([Math], Draft("Flu", "Symptoms", "Health"), false, "", "", false);
    assert es[1..][1..][1..][1..][1..] == [];
    calc {
      Run(Initial, es);
      Run(s1, es[1..]);
      Run(s2, es[1..][1..]);
      Run(s3, es[1..][1..][1..]);
      Run(s4, es[1..][1..][1..][1..]);
      Step(s4, outcome);
    }
  }

  /** The create request succeeds: the returned record is appended and the form is cleared. */
  lemma CreateSuccessScenario()
    ensures
      var s := Run(Initial, CreateRun(SubmitSucceeded([Math], Flu)));
      s.resources == [Math, Flu] && s.newResource == EmptyDraft && s.error == ""
  {
    FilledForm(SubmitSucceeded([Math], Flu));
  }

  /** The create request fails: the list stays, the form keeps what was typed, and the add error shows. */
  lemma CreateFailureScenario()
    ensures
      var s := Run(Initial, CreateRun(SubmitFailed));
      s.resources == [Math] && s.newResource == Draft("Flu", "Symptoms", "Health") && s.error == AddError
  {
  }

  /** The form is usable while the list is still loading. A create submitted
      then captures the empty list; if its answer arrives after the list, the
      fetched records are dropped and only the created one remains. */
  lemma StaleSubmitScenario()
    ensures
      var es := [FetchSucceeded([Math]), SubmitSucceeded([], Flu)];
      Run(Initial, es).resources == [Flu] && !FreshSubmits(Initial, es)
  {
    var es := [FetchSucceeded([Math]), SubmitSucceeded([], Flu)];
    var s1 := Step(Initial, es[0]);
    assert s1.resources == [Math];
    assert es[1..][0] == SubmitSucceeded([], Flu) && es[1..][1..] == [];
    assert Run(Initial, es) == Run(s1, es[1..]) == Run(Step(s1, es[1..][0]), []);
    assert !FreshSubmits(s1, es[1..]);
  }

  /** A create submitted while the list is loading and answered before the
      fetch fails: the failure leaves the list alone, so the created record stays. */
  lemma EarlySubmitScenario()
    ensures
      var s := Run(Initial, [SubmitSucceeded([], Flu), FetchFailed]);
      s.resources == [Flu] && s.error == FetchError && !s.loading
  {
    var es := [SubmitSucceeded([], Flu), FetchFailed];
    var s1 := Step(Initial, es[0]);
    assert s1.resources == [Flu];
    assert es[1..][0] == FetchFailed && es[1..][1..] == [];
    assert Run(Initial, es) == Run(s1, es[1..]) == Run(Step(s1, FetchFailed), []);
  }
}
