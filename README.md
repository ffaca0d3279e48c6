# Autocomplete selection state machine

A Dafny model of the `Autocomplete` React component of react_autocomplete: a
search-as-you-type box over a fixed list of people. The user types a query;
after a debounce delay the debounced query filters the list (case-insensitive
substring match on the name); clicking a suggestion selects that person,
snaps the input to the person's name and reports the person to the
`onSelected` callback; whenever the query becomes empty the selection is
cleared and `onSelected(null)` is called.

Layout:

- `wrappers.dfy` — `Option`, standing for "a person or `null`".
- `text.dfy` — ASCII lower-casing and substring containment (`Includes`),
  with a proof that the search agrees with "occurs at some index".
- `people.dfy` — `Person`, the match predicate, the filter behind the
  suggestion list and the dropdown content (`MenuFor`).
- `autocomplete.dfy` — the component. A pure layer (`State`, `Change`,
  `Pick`, `Fire`, `Step`, `Run`) says what each event does to the state and
  what reaches `onSelected`. The class `Autocomplete.Autocomplete` holds the
  fields `query`, `selectedPerson`, `debounceQuery` and the pending `timer`.
  It records the values passed to `onSelected` in a ghost log `notified` and
  the values `query` has held in a ghost `heldQueries`. Its handlers update
  the fields in the order the component does, and each is proved to agree
  with the pure layer.

React's hook scheduling is made explicit. A handler runs first. Then, if the
render that follows sees a different `query`, the two effects that depend on
`query` run: the timer effect (lines 23-27) and the empty-query effect
(lines 41-46). When `query` keeps its value, neither effect runs, because
their dependency lists are unchanged. The pending `setTimeout` is a field
holding the query value its callback captured. Re-arming replaces it, which
models the `clearTimeout` cleanup. The timer's expiry is the explicit event
`TimerFired` / `FireTimer`. The delay is a parameter of the constructor
(default 300) and has no other role.

Behaviour of the component worth noting:

- The state is the query, the debounced query and the selection only: the
  input has no focus state, and the query is used as typed, untrimmed.
- The dropdown is `is-active` exactly when no person is selected, whatever
  the suggestions are.
- The "No matching suggestions" notice shows exactly when the filtered list
  is empty. An empty debounced query matches every name.
- The mount itself calls `onSelected(null)` once, because the query starts
  empty.
- The select handler accepts any person. Its only call site offers the
  filtered people, and `ClickSuggestion` models that call site.
- The delay is passed to the timer as given; no value is rejected.

## Model

| member | source | states |
|---|---|---|
| Text.LowerChar | src/components/Autocomplete.tsx:31 | the folded character is never an upper-case ASCII letter; A-Z map to a-z, everything else is unchanged |
| Text.Lower | src/components/Autocomplete.tsx:31 | folding keeps the length and folds every character in place |
| Text.LowerIdempotent | src/components/Autocomplete.tsx:31 | folding a folded string changes nothing |
| Text.IncludesIff | src/components/Autocomplete.tsx:31 | the `includes` search succeeds exactly when the needle occurs at some index of the haystack (both directions) |
| Text.IncludesEmpty | src/components/Autocomplete.tsx:31 | the empty query is contained in every name |
| People.Matches | src/components/Autocomplete.tsx:31 | a person matches a query exactly when the lower-cased query occurs at some index of the lower-cased name |
| People.Filter | src/components/Autocomplete.tsx:29-33 | the suggestions are no more than the people, and every suggestion is a person of the list whose folded name contains the folded query |
| People.FilterIsSubsequence | src/components/Autocomplete.tsx:30-32 | the suggestions are a subsequence of the people, so the list's relative order is kept |
| People.FilterComplete | src/components/Autocomplete.tsx:30-32 | every person whose folded name contains the folded query is among the suggestions |
| People.FilterCounts | src/components/Autocomplete.tsx:30-32 | a matching person occurs in the suggestions as often as in the list, a non-matching one not at all: nothing is added or dropped |
| People.FilterAllMatch | src/components/Autocomplete.tsx:30-32 | when every person matches, the filter returns the list unchanged |
| People.FilterEmptyQuery | src/components/Autocomplete.tsx:31 | with an empty debounced query the suggestions are the whole list, unchanged |
| People.MatchesIgnoresQueryCase | src/components/Autocomplete.tsx:31 | matching gives the same answer for a query and its lower-cased form |
| People.MenuFor | src/components/Autocomplete.tsx:78-103 | the no-suggestions notice shows exactly when no person matches; otherwise exactly the filtered people are listed, and there is at least one |
| Autocomplete.Mount | src/components/Autocomplete.tsx:14-16 | after mount the query and debounced query are empty, no person is selected, the timer is armed with the empty query, `onSelected(null)` was called once, and the timer/debounce consistency invariant holds |
| Autocomplete.QueryEffects | src/components/Autocomplete.tsx:23-46 | after a query change the timer is replaced by one capturing the new query, and the selection is cleared with one `null` notification exactly when the query went from non-empty to empty; with no change nothing happens |
| Autocomplete.Change | src/components/Autocomplete.tsx:18-21 | a text change sets the query to exactly the text and clears the selection. The debounced query is untouched. The timer is re-armed with the text if it differs. Only `null` is notified, once, exactly when the query was emptied. Consistency is preserved |
| Autocomplete.Pick | src/components/Autocomplete.tsx:35-39 | a pick snaps the query to the person's name and notifies the person first. The person stays selected unless the pick emptied the query; in that case the selection is cleared and `null` follows. The debounced query is untouched |
| Autocomplete.Fire | src/components/Autocomplete.tsx:24 | the timer callback copies the captured query into the debounced query and clears the timer; under consistency the debounced query becomes the current query; with no timer nothing changes |
| Autocomplete.Step | src/components/Autocomplete.tsx:41-46 | every event keeps consistency. `null` is notified exactly when the event emptied the query, and the selection is then none. A person is only ever notified by a pick of that person |
| Autocomplete.Run | src/components/Autocomplete.tsx:23-27 | any sequence of events keeps the timer/debounce consistency invariant |
| Autocomplete.RunAppend | src/components/Autocomplete.tsx:18-46 | running events and then one more is the same as running the longer sequence, state and notifications alike |
| Autocomplete.DebounceOnlyHeldValues | src/components/Autocomplete.tsx:23-27 | after any run the debounced query equals its starting value, the starting query, or a value the query took after one of the events |
| Autocomplete.DebounceHeldSinceMount | src/components/Autocomplete.tsx:16-27 | from mount on, the debounced query is always the initial empty query or a value the query actually held |
| Autocomplete.BurstHoldsDebounce | src/components/Autocomplete.tsx:18-27 | during a burst of text changes the debounced query does not move. The query ends at the last text and the selection is none |
| Autocomplete.BurstCollapses | src/components/Autocomplete.tsx:23-27 | a burst of changes followed by the timer firing updates the debounced query once, to the last text and never an intermediate one |
| Autocomplete.ChangeIdempotent | src/components/Autocomplete.tsx:18-27 | typing the same text twice leaves the state as typing it once, and the second time notifies nothing |
| Autocomplete.DropdownAfterStep | src/components/Autocomplete.tsx:68-70 | the dropdown (`is-active`, on exactly when no person is selected) is open after any text change; after a pick it is open only if the pick emptied the query; the timer leaves it as it was |
| Autocomplete.Autocomplete.constructor | src/components/Autocomplete.tsx:12-16 | a fresh component has empty query and debounced query, no selection, a timer armed with the empty query, the delay given or 300, and one `null` notification from the mount effect |
| Autocomplete.Autocomplete.RunQueryEffects | src/components/Autocomplete.tsx:23-46 | the field updates of the two query effects agree with `QueryEffects` and re-establish the component invariant |
| Autocomplete.Autocomplete.HandleChange | src/components/Autocomplete.tsx:18-21 | sets `query` to the text and `selectedPerson` to none, leaves `debounceQuery`, and logs the notifications of `Change`. The invariant (debounced query is a value the query held) is kept |
| Autocomplete.Autocomplete.HandlePersonSelect | src/components/Autocomplete.tsx:35-39 | sets `query` to the name and logs the person. For a non-empty name the person is selected and the dropdown closes. The new state is that of `Pick` |
| Autocomplete.Autocomplete.ClickSuggestion | src/components/Autocomplete.tsx:84 | clicking the k-th listed suggestion picks that person, and any resulting selection is a member of `people` |
| Autocomplete.Autocomplete.Dropdown | src/components/Autocomplete.tsx:78-103 | the rendered menu shows the no-suggestions notice exactly when no person matches the debounced query, and otherwise lists exactly the filtered people, at least one |
| Autocomplete.Autocomplete.FireTimer | src/components/Autocomplete.tsx:24 | the debounced query catches up with the query, the timer is cleared, and nothing is notified |

## Left out

- Rendering: the JSX, CSS classes, `classNames`, and the title built from a person's `born` and `died` fields. `Person` keeps only `slug` and `name`.
- React machinery: `React.memo`, `useMemo` caching, and the re-run of effects when the `people`, `debounceDelay` or `onSelected` props change identity. Props are fixed for an instance.
- Real time: `setTimeout`'s delay is only stored. The expiry is the explicit `TimerFired` event, so the model does not say when that event occurs.
- Tear-down: the cleanup that clears the pending timer when the component unmounts is not modelled. The model has no end of life.
- `toLocaleLowerCase`: only ASCII A-Z are folded. Locale-specific and non-ASCII case mappings are not modelled.
- The host page `src/App.tsx`, which only passes the dataset and a state setter as `onSelected`.
