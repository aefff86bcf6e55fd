/** The search box's derived view: the resources whose title, content or
    category contains the query, compared case-insensitively, in list order. */
module Search {
  import opened Strings
  import opened Resources

  /** A resource matches when the lower-cased query occurs in its lower-cased
      title, content or category. */
  predicate Matches(r: Resource, query: string) {
    var q := LowerStr(query);
    Substring(q, LowerStr(r.title))
    || Substring(q, LowerStr(r.content))
    || Substring(q, LowerStr(r.category))
  }

  /** `resources.filter(...)`: the matching resources, in their original order. */
  function Filter(rs: seq<Resource>, query: string): (r: seq<Resource>)
    ensures |r| <= |rs|
    ensures forall x {:trigger x in r} :: x in r <==> x in rs && Matches(x, query)
  {
    if |rs| == 0 then []
    else
      var n := |rs| - 1;
      assert rs == rs[..n] + [rs[n]];
      var kept := Filter(rs[..n], query);
      if Matches(rs[n], query) then kept + [rs[n]] else kept
  }

  ghost predicate StrictlyIncreasing(idx: seq<int>) {
    forall a, b :: 0 <= a < b < |idx| ==> idx[a] < idx[b]
  }

  /** `sub` is `rs` read at the increasing positions `idx`. */
  ghost predicate SelectsFrom(sub: seq<Resource>, rs: seq<Resource>, idx: seq<int>) {
    && |idx| == |sub|
    && StrictlyIncreasing(idx)
    && (forall k :: 0 <= k < |idx| ==> 0 <= idx[k] < |rs| && rs[idx[k]] == sub[k])
  }

  /** `idx` holds exactly the positions of `rs` whose resource matches the query. */
  ghost predicate MatchingPositions(rs: seq<Resource>, query: string, idx: seq<int>) {
    forall i :: 0 <= i < |rs| ==> (i in idx <==> Matches(rs[i], query))
  }

  /** A selection from a list is still one after an element is appended to
      the list, and it extends to one that also takes that new element. */
  lemma SelectsExtend(sub: seq<Resource>, rs: seq<Resource>, idx: seq<int>, x: Resource)
    requires SelectsFrom(sub, rs, idx)
    ensures SelectsFrom(sub, rs + [x], idx)
    ensures SelectsFrom(sub + [x], rs + [x], idx + [|rs|])
  {
  }

  /** The positions of `rs` whose resource matches, in increasing order. */
  ghost function MatchPositions(rs: seq<Resource>, query: string): seq<int> {
    if |rs| == 0 then []
    else
      var n := |rs| - 1;
      MatchPositions(rs[..n], query) + (if Matches(rs[n], query) then [n] else [])
  }

  /** The filtered list is `rs` read at the positions `MatchPositions` lists,
      and those are exactly the positions whose resource matches. */
  lemma {:induction false} FilterAtMatchPositions(rs: seq<Resource>, query: string)
    ensures SelectsFrom(Filter(rs, query), rs, MatchPositions(rs, query))
    ensures MatchingPositions(rs, query, MatchPositions(rs, query))
  {
    if |rs| > 0 {
      var n := |rs| - 1;
      var pre, x := rs[..n], rs[n];
      assert rs == pre + [x];
      FilterAtMatchPositions(pre, query);
      var idx0, kept := MatchPositions(pre, query), Filter(pre, query);
      SelectsExtend(kept, pre, idx0, x);
      var idx := MatchPositions(rs, query);
      if Matches(x, query) {
        assert idx == idx0 + [n];
        assert Filter(rs, query) == kept + [x];
      } else {
        assert idx == idx0;
        assert Filter(rs, query) == kept;
      }
      forall i | 0 <= i < |rs| ensures i in idx <==> Matches(rs[i], query) {
        if i < n {
          assert rs[i] == pre[i];
        }
      }
    }
  }

  /** The filtered list is `rs` read at exactly the positions whose resource
      matches, in increasing order: a subsequence, and no other one. */
  lemma FilterPositions(rs: seq<Resource>, query: string)
    ensures exists idx :: SelectsFrom(Filter(rs, query), rs, idx) && MatchingPositions(rs, query, idx)
  {
    FilterAtMatchPositions(rs, query);
  }

  /** The filtered list is a subsequence of the full list. */
  lemma FilterIsSubsequence(rs: seq<Resource>, query: string)
    ensures exists idx :: SelectsFrom(Filter(rs, query), rs, idx)
  {
    FilterPositions(rs, query);
  }

  /** Filtering distributes over concatenation. */
  lemma {:induction false} FilterConcat(a: seq<Resource>, b: seq<Resource>, query: string)
    ensures Filter(a + b, query) == Filter(a, query) + Filter(b, query)
    decreases |b|
  {
    if |b| == 0 {
      assert a + b == a;
    } else {
      var n := |b| - 1;
      assert (a + b)[..|a + b| - 1] == a + b[..n];
      FilterConcat(a, b[..n], query);
    }
  }

  /** Appending one resource extends the filtered list by it exactly when it matches. */
  lemma FilterAppend(rs: seq<Resource>, x: Resource, query: string)
    ensures Filter(rs + [x], query) == Filter(rs, query) + (if Matches(x, query) then [x] else [])
  {
  }

  /** Every resource matches the empty query. */
  lemma MatchesEmptyQuery(x: Resource)
    ensures Matches(x, "")
  {
    assert LowerStr("") == "";
    EmptySubstring(LowerStr(x.title));
  }

  /** An empty search term shows every resource, in order. */
  lemma {:induction false} FilterEmptyQuery(rs: seq<Resource>)
    ensures Filter(rs, "") == rs
  {
    if |rs| > 0 {
      var n := |rs| - 1;
      FilterEmptyQuery(rs[..n]);
      MatchesEmptyQuery(rs[n]);
      assert rs == rs[..n] + [rs[n]];
    }
  }

  /** Queries with the same lower-cased image select the same resources. */
  lemma {:induction false} FilterCaseInsensitive(rs: seq<Resource>, q1: string, q2: string)
    requires LowerStr(q1) == LowerStr(q2)
    ensures Filter(rs, q1) == Filter(rs, q2)
  {
    if |rs| > 0 {
      FilterCaseInsensitive(rs[..|rs| - 1], q1, q2);
    }
  }

  /** In particular, lower-casing the query first changes nothing. */
  lemma FilterLowerQuery(rs: seq<Resource>, query: string)
    ensures Filter(rs, LowerStr(query)) == Filter(rs, query)
  {
    LowerStrIdempotent(query);
    FilterCaseInsensitive(rs, LowerStr(query), query);
  }

  /** Executable form of the match test, built on the `includes` search. */
  method MatchesExec(r: Resource, query: string) returns (b: bool)
    ensures b <==> Matches(r, query)
  {
    var q := LowerStr(query);
    b := Includes(LowerStr(r.title), q);
    if !b {
      b := Includes(LowerStr(r.content), q);
    }
    if !b {
      b := Includes(LowerStr(r.category), q);
    }
  }

  /** Extending a prefix by one element extends its filtered list by that element exactly when it matches. */
  lemma FilterPrefixStep(rs: seq<Resource>, i: int, query: string, keep: bool)
    requires 0 <= i < |rs|
    requires keep == Matches(rs[i], query)
    ensures Filter(rs[..i + 1], query) == Filter(rs[..i], query) + (if keep then [rs[i]] else [])
  {
    assert rs[..i + 1] == rs[..i] + [rs[i]];
    FilterAppend(rs[..i], rs[i], query);
  }

  /** One pass over the list keeping the matching resources, as `Array.prototype.filter` does. */
  method FilterResources(rs: seq<Resource>, query: string) returns (out: seq<Resource>)
    ensures out == Filter(rs, query)
  {
    out := [];
    var i := 0;
    while i < |rs|
      invariant 0 <= i <= |rs|
      invariant out == Filter(rs[..i], query)
    {
      var keep := MatchesExec(rs[i], query);
      FilterPrefixStep(rs, i, query, keep);
      if keep {
        out := out + [rs[i]];
      }
      i := i + 1;
    }
    assert rs[..|rs|] == rs;
  }
}
