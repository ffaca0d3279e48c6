/** The Autocomplete component: the state it keeps between renders, the
    handlers and effects that change it, and what the dropdown shows.

    The pure part (`State`, `Change`, `Pick`, `Fire`, `Step`, `Run`) says what
    each event does to the state and which values reach `onSelected`; the
    class `Autocomplete` performs the same updates field by field and is
    proved to agree with it. */
module Autocomplete {
  import opened Wrappers
  import opened People

  /** The debounce delay used when the caller passes none. */
  const DEFAULT_DEBOUNCE_DELAY := 300

  /** The component state: the three state hooks, plus the pending debounce
      timer, which carries the query value its callback will copy. */
  datatype State = State(
    query: string,
    selectedPerson: Option<Person>,
    debounceQuery: string,
    timer: Option<string>)

  /** The result of one event: the next state and the values passed to
      `onSelected`, in call order. */
  datatype Outcome = Outcome(next: State, notified: seq<Option<Person>>)

  /** The events that drive the component. */
  datatype Event = TextChanged(text: string) | PersonPicked(person: Person) | TimerFired

  /** The pending timer always captured the current query, and when no timer
      is pending the debounced query has caught up with the query. */
  predicate Consistent(s: State)
  {
    (s.timer.Some? ==> s.timer.value == s.query) &&
    (s.timer.None? ==> s.debounceQuery == s.query)
  }

  /** The query went from non-empty to empty. */
  predicate Emptied(before: string, after: string)
  {
    before != "" && after == ""
  }

  /** The state after the first render, once the mount effects have run: the
      timer is armed with the empty query, and because the query is empty the
      selection is cleared and `onSelected(null)` is called. */
  function Mount(): (r: Outcome)
    ensures r.next.query == "" && r.next.debounceQuery == "" && r.next.selectedPerson == None
    ensures r.next.timer == Some("") && r.notified == [None]
    ensures Consistent(r.next)
  {
    Outcome(State("", None, "", Some("")), [None])
  }

  /** The two effects that depend on `query`, run after a render in which the
      query differs from `previous`: the pending timer is replaced by one that
      captured the new query, and an empty query clears the selection and
      notifies `null`. When the query did not change neither effect runs. */
  function QueryEffects(previous: string, s: State): (r: Outcome)
    ensures r.next.query == s.query && r.next.debounceQuery == s.debounceQuery
    ensures r.next.timer == if s.query == previous then s.timer else Some(s.query)
    ensures r.next.selectedPerson == if Emptied(previous, s.query) then None else s.selectedPerson
    ensures r.notified == if Emptied(previous, s.query) then [None] else []
  {
    if s.query == previous then Outcome(s, [])
    else
      var armed := s.(timer := Some(s.query));
      if s.query == "" then Outcome(armed.(selectedPerson := None), [None])
      else Outcome(armed, [])
  }

  /** The input's change handler followed by the effects. */
  function Change(s: State, text: string): (r: Outcome)
    ensures r.next.query == text && r.next.selectedPerson == None
    ensures r.next.debounceQuery == s.debounceQuery
    ensures r.next.timer == if text == s.query then s.timer else Some(text)
    ensures forall k :: 0 <= k < |r.notified| ==> r.notified[k] == None
    ensures |r.notified| <= 1 && (None in r.notified <==> Emptied(s.query, text))
    ensures Consistent(s) ==> Consistent(r.next)
  {
    QueryEffects(s.query, s.(query := text, selectedPerson := None))
  }

  /** A click on a suggestion followed by the effects: the person becomes the
      selection, the query snaps to the person's name, and `onSelected` gets
      the person. */
  function Pick(s: State, p: Person): (r: Outcome)
    ensures r.next.query == p.name
    ensures r.next.selectedPerson == if Emptied(s.query, p.name) then None else Some(p)
    ensures r.next.debounceQuery == s.debounceQuery
    ensures r.next.timer == if p.name == s.query then s.timer else Some(p.name)
    ensures r.notified == if Emptied(s.query, p.name) then [Some(p), None] else [Some(p)]
    ensures Consistent(s) ==> Consistent(r.next)
  {
    var effects := QueryEffects(s.query, s.(selectedPerson := Some(p), query := p.name));
    Outcome(effects.next, [Some(p)] + effects.notified)
  }

  /** The debounce timer's callback: the captured query becomes the debounced
      query. Without a pending timer nothing happens. */
  function Fire(s: State): (r: State)
    ensures r.timer == None
    ensures r.query == s.query && r.selectedPerson == s.selectedPerson
    ensures s.timer.Some? ==> r.debounceQuery == s.timer.value
    ensures s.timer.None? ==> r.debounceQuery == s.debounceQuery
    ensures Consistent(s) ==> Consistent(r) && r.debounceQuery == s.query
  {
    match s.timer
    case None => s
    case Some(captured) => s.(debounceQuery := captured, timer := None)
  }

  /** One event. */
  function Step(s: State, e: Event): (r: Outcome)
    ensures Consistent(s) ==> Consistent(r.next)
    ensures None in r.notified <==> Emptied(s.query, r.next.query)
    ensures Emptied(s.query, r.next.query) ==> r.next.selectedPerson == None
    ensures forall k :: 0 <= k < |r.notified| && r.notified[k].Some? ==>
      e.PersonPicked? && r.notified[k] == Some(e.person)
  {
    match e
    case TextChanged(text) => Change(s, text)
    case PersonPicked(p) => Pick(s, p)
    case TimerFired => Outcome(Fire(s), [])
  }

  /** A sequence of events, with every notification they cause. */
  function Run(s: State, events: seq<Event>): (r: Outcome)
    ensures Consistent(s) ==> Consistent(r.next)
    decreases |events|
  {
    if events == [] then Outcome(s, [])
    else
      var first := Step(s, events[0]);
      var rest := Run(first.next, events[1..]);
      Outcome(rest.next, first.notified + rest.notified)
  }

  /** The query after each event of a run. */
  function Queries(s: State, events: seq<Event>): (r: seq<string>)
    ensures |r| == |events|
    decreases |events|
  {
    if events == [] then []
    else
      var next := Step(s, events[0]).next;
      [next.query] + Queries(next, events[1..])
  }

  /** A burst of typing: one text change per string. */
  function Changes(texts: seq<string>): (r: seq<Event>)
    ensures |r| == |texts|
    ensures forall k :: 0 <= k < |texts| ==> r[k] == TextChanged(texts[k])
  {
    if texts == [] then [] else [TextChanged(texts[0])] + Changes(texts[1..])
  }

  /** Running `events` and then `e` is running `events + [e]`. */
  lemma {:induction false} RunAppend(s: State, events: seq<Event>, e: Event)
    ensures Run(s, events + [e]).next == Step(Run(s, events).next, e).next
    ensures Run(s, events + [e]).notified == Run(s, events).notified + Step(Run(s, events).next, e).notified
    decreases |events|
  {
    if events == [] {
      assert [] + [e] == [e];
    } else {
      assert (events + [e])[1..] == events[1..] + [e];
      RunAppend(Step(s, events[0]).next, events[1..], e);
    }
  }

  /** The debounced query only ever holds a value the query held: its value
      before the run, the query's value before the run, or the query after
      one of the run's events. */
  lemma {:induction false} DebounceOnlyHeldValues(s: State, events: seq<Event>)
    requires Consistent(s)
    ensures Run(s, events).next.debounceQuery in [s.debounceQuery, s.query] + Queries(s, events)
    decreases |events|
  {
    if events != [] {
      var next := Step(s, events[0]).next;
      DebounceOnlyHeldValues(next, events[1..]);
      var d := Run(s, events).next.debounceQuery;
      assert d in [next.debounceQuery, next.query] + Queries(next, events[1..]);
      assert next.query == Queries(s, events)[0];
      assert Queries(next, events[1..]) == Queries(s, events)[1..];
    }
  }

  /** From mount on, the debounced query is always the empty initial query or
      a value the query took after some event. */
  lemma DebounceHeldSinceMount(events: seq<Event>)
    ensures Run(Mount().next, events).next.debounceQuery in [""] + Queries(Mount().next, events)
  {
    DebounceOnlyHeldValues(Mount().next, events);
  }

  /** During a burst of typing the debounced query does not move, the query
      ends at the last text, the selection is cleared and the timer holds
      the last text only. */
  lemma {:induction false} BurstHoldsDebounce(s: State, texts: seq<string>)
    requires Consistent(s) && texts != []
    ensures var n := Run(s, Changes(texts)).next;
      n.debounceQuery == s.debounceQuery && n.query == texts[|texts| - 1] &&
      n.selectedPerson == None && Consistent(n)
    decreases |texts|
  {
    var next := Step(s, TextChanged(texts[0])).next;
    assert Changes(texts)[1..] == Changes(texts[1..]);
    if |texts| > 1 {
      BurstHoldsDebounce(next, texts[1..]);
    }
  }

  /** A burst of typing followed by the timer firing updates the debounced
      query once, to the last text typed. */
  lemma BurstCollapses(s: State, texts: seq<string>)
    requires Consistent(s) && texts != []
    ensures Run(s, Changes(texts)).next.debounceQuery == s.debounceQuery
    ensures Run(s, Changes(texts) + [TimerFired]).next.debounceQuery == texts[|texts| - 1]
  {
    BurstHoldsDebounce(s, texts);
    RunAppend(s, Changes(texts), TimerFired);
  }

  /** Typing the same text twice has the effect of typing it once. */
  lemma ChangeIdempotent(s: State, text: string)
    ensures Change(Change(s, text).next, text).next == Change(s, text).next
    ensures Change(Change(s, text).next, text).notified == []
  {
  }

  /** The dropdown is active exactly while no person is selected. */
  predicate DropdownActive(s: State)
  {
    s.selectedPerson.None?
  }

  /** How each event moves the `is-active` flag: a text change always opens
      the dropdown, a pick closes it unless the pick emptied the query, and the
      timer leaves it as it was. */
  lemma DropdownAfterStep(s: State, e: Event)
    ensures DropdownActive(Step(s, e).next) <==>
      match e
      case TextChanged(_) => true
      case PersonPicked(p) => Emptied(s.query, p.name)
      case TimerFired => DropdownActive(s)
  {
  }

  /** One instance of the component. Each method performs a handler, the timer
      callback, or the mount, updating the fields in the order the source does
      and then running the effects that depend on `query`. */
  class Autocomplete {
    const people: seq<Person>
    const debounceDelay: int
    var query: string
    var selectedPerson: Option<Person>
    var debounceQuery: string
    /** The pending `setTimeout`, holding the query its callback captured. */
    var timer: Option<string>
    /** Every value passed to `onSelected`, oldest first. */
    ghost var notified: seq<Option<Person>>
    /** Every value `query` has held, oldest first. */
    ghost var heldQueries: seq<string>

    function Snapshot(): State
      reads this
    {
      State(query, selectedPerson, debounceQuery, timer)
    }

    /** The component invariant: the timer and the debounced query agree with
        the query, and the debounced query is a value the query once held. */
    ghost predicate Valid()
      reads this
    {
      Consistent(Snapshot()) &&
      heldQueries != [] && heldQueries[|heldQueries| - 1] == query &&
      debounceQuery in heldQueries
    }

    /** The first render and the mount effects. */
    constructor (people: seq<Person>, debounceDelay: Option<int>)
      ensures Valid()
      ensures this.people == people
      ensures this.debounceDelay == if debounceDelay.Some? then debounceDelay.value else DEFAULT_DEBOUNCE_DELAY
      ensures Snapshot() == Mount().next && notified == Mount().notified
      ensures heldQueries == [""]
    {
      this.people := people;
      this.debounceDelay := if debounceDelay.Some? then debounceDelay.value else DEFAULT_DEBOUNCE_DELAY;
      query := "";
      selectedPerson := None;
      debounceQuery := "";
      heldQueries := [""];
      notified := [];
      new;
      timer := Some(query);
      if query == "" {
        selectedPerson := None;
        notified := notified + [None];
      }
    }

    /** Runs the effects that depend on `query`, given its value before the
        handler. */
    method RunQueryEffects(previous: string)
      requires Consistent(Snapshot().(query := previous))
      requires heldQueries != [] && heldQueries[|heldQueries| - 1] == query
      requires debounceQuery in heldQueries
      modifies this
      ensures Valid()
      ensures Snapshot() == QueryEffects(previous, old(Snapshot())).next
      ensures notified == old(notified) + QueryEffects(previous, old(Snapshot())).notified
      ensures heldQueries == old(heldQueries)
    {
      if query != previous {
        timer := Some(query);
        if query == "" {
          selectedPerson := None;
          notified := notified + [None];
        }
      }
    }

    /** The input's change handler. */
    method HandleChange(text: string)
      requires Valid()
      modifies this
      ensures Valid()
      ensures Snapshot() == Change(old(Snapshot()), text).next
      ensures notified == old(notified) + Change(old(Snapshot()), text).notified
      ensures heldQueries == old(heldQueries) + [text]
      ensures query == text && selectedPerson == None && DropdownActive(Snapshot())
      ensures debounceQuery == old(debounceQuery)
    {
      var previous := query;
      query := text;
      heldQueries := heldQueries + [text];
      selectedPerson := None;
      RunQueryEffects(previous);
    }

    /** The click handler of a suggestion. */
    method HandlePersonSelect(person: Person)
      requires Valid()
      modifies this
      ensures Valid()
      ensures Snapshot() == Pick(old(Snapshot()), person).next
      ensures notified == old(notified) + Pick(old(Snapshot()), person).notified
      ensures heldQueries == old(heldQueries) + [person.name]
      ensures query == person.name && notified[|old(notified)|] == Some(person)
      ensures person.name != "" ==> selectedPerson == Some(person) && !DropdownActive(Snapshot())
    {
      var previous := query;
      selectedPerson := Some(person);
      query := person.name;
      heldQueries := heldQueries + [person.name];
      notified := notified + [Some(person)];
      RunQueryEffects(previous);
    }

    /** A click on the `k`-th listed suggestion: only people of the filtered
        list are offered, so the selection is drawn from `people`. */
    method ClickSuggestion(k: nat)
      requires Valid() && k < |Filter(people, debounceQuery)|
      modifies this
      ensures Valid()
      ensures Snapshot() == Pick(old(Snapshot()), Filter(people, old(debounceQuery))[k]).next
      ensures notified == old(notified) + Pick(old(Snapshot()), Filter(people, old(debounceQuery))[k]).notified
      ensures selectedPerson.Some? ==> selectedPerson.value in people
    {
      HandlePersonSelect(Filter(people, debounceQuery)[k]);
    }

    /** The debounce timer's callback. */
    method FireTimer()
      requires Valid()
      modifies this
      ensures Valid()
      ensures Snapshot() == Fire(old(Snapshot()))
      ensures notified == old(notified) && heldQueries == old(heldQueries)
      ensures debounceQuery == query && timer == None
    {
      if timer.Some? {
        debounceQuery := timer.value;
        timer := None;
      }
    }

    /** The dropdown content the render shows: the people matching the
        debounced query, or the notice when there are none. */
    function Dropdown(): (r: Menu)
      reads this
      ensures r.NoSuggestions? <==> forall i :: 0 <= i < |people| ==> !Matches(people[i], debounceQuery)
      ensures r.Suggestions? ==> r.items != [] && r.items == Filter(people, debounceQuery)
    {
      MenuFor(people, debounceQuery)
    }
  }
}
