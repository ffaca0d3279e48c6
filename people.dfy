/** The candidates the widget searches and the filter over them. */
module People {
  import opened Text

  /** A candidate. `slug` is its stable key in the list; the other display
      fields (birth and death years) only feed the title and are not modelled. */
  datatype Person = Person(slug: string, name: string)

  /** Whether a person is a suggestion for the debounced query: the folded
      name contains the folded query. */
  predicate Matches(p: Person, query: string): (r: bool)
    ensures r <==> OccursIn(Lower(p.name), Lower(query))
  {
    IncludesIff(Lower(p.name), Lower(query));
    Includes(Lower(p.name), Lower(query))
  }

  /** The suggestions: the people that match, in the order of `people`. */
  function Filter(people: seq<Person>, query: string): (r: seq<Person>)
    ensures |r| <= |people|
    ensures forall k :: 0 <= k < |r| ==> Matches(r[k], query) && r[k] in people
  {
    if people == [] then []
    else if Matches(people[0], query) then [people[0]] + Filter(people[1..], query)
    else Filter(people[1..], query)
  }

  /** `sub` can be obtained from `s` by deleting elements, keeping the order of the rest. */
  predicate IsSubsequence<T(==)>(sub: seq<T>, s: seq<T>)
  {
    if sub == [] then true
    else if s == [] then false
    else (sub[0] == s[0] && IsSubsequence(sub[1..], s[1..])) || IsSubsequence(sub, s[1..])
  }

  /** The suggestions keep the relative order of the candidate list. */
  lemma {:induction false} FilterIsSubsequence(people: seq<Person>, query: string)
    ensures IsSubsequence(Filter(people, query), people)
  {
    if people != [] {
      FilterIsSubsequence(people[1..], query);
      var rest := Filter(people[1..], query);
      if Matches(people[0], query) {
        assert ([people[0]] + rest)[1..] == rest;
      } else if rest != [] {
        assert IsSubsequence(rest, people[1..]);
      }
    }
  }

  /** No matching person is dropped. */
  lemma {:induction false} FilterComplete(people: seq<Person>, query: string)
    ensures forall i :: 0 <= i < |people| && Matches(people[i], query) ==> people[i] in Filter(people, query)
  {
    if people != [] {
      FilterComplete(people[1..], query);
      forall i | 0 <= i < |people| && Matches(people[i], query)
        ensures people[i] in Filter(people, query)
      {
        if i > 0 {
          assert people[i] == people[1..][i - 1];
        }
      }
    }
  }

  /** Each person occurs in the suggestions exactly as often as in the
      candidate list when it matches, and not at all when it does not. */
  lemma {:induction false} FilterCounts(people: seq<Person>, query: string)
    ensures forall p :: multiset(Filter(people, query))[p] == if Matches(p, query) then multiset(people)[p] else 0
  {
    if people != [] {
      FilterCounts(people[1..], query);
      assert people == [people[0]] + people[1..];
      assert multiset(people) == multiset{people[0]} + multiset(people[1..]);
    }
  }

  /** When every candidate matches, the filter returns the list unchanged. */
  lemma {:induction false} FilterAllMatch(people: seq<Person>, query: string)
    requires forall i :: 0 <= i < |people| ==> Matches(people[i], query)
    ensures Filter(people, query) == people
  {
    if people != [] {
      FilterAllMatch(people[1..], query);
      assert [people[0]] + people[1..] == people;
    }
  }

  /** With an empty debounced query every person is a suggestion. */
  lemma FilterEmptyQuery(people: seq<Person>)
    ensures Filter(people, "") == people
  {
    forall i | 0 <= i < |people|
      ensures Matches(people[i], "")
    {
      IncludesEmpty(Lower(people[i].name));
    }
    FilterAllMatch(people, "");
  }

  /** Matching ignores the case of the query. */
  lemma MatchesIgnoresQueryCase(p: Person, query: string)
    ensures Matches(p, query) <==> Matches(p, Lower(query))
  {
    LowerIdempotent(query);
  }

  /** What the dropdown shows: the suggestions, or the no-suggestions notice. */
  datatype Menu = Suggestions(items: seq<Person>) | NoSuggestions

  /** The dropdown content for a candidate list and a debounced query. */
  function MenuFor(people: seq<Person>, query: string): (r: Menu)
    ensures r.NoSuggestions? <==> forall i :: 0 <= i < |people| ==> !Matches(people[i], query)
    ensures r.Suggestions? ==> r.items != [] && r.items == Filter(people, query)
  {
    FilterComplete(people, query);
    var items := Filter(people, query);
    assert |items| > 0 ==> Matches(items[0], query) && items[0] in people;
    if |items| > 0 then Suggestions(items) else NoSuggestions
  }
}
