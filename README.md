# QuranicFlash study session, modelled in Dafny

QuranicFlash is a flashcard app for Quranic vocabulary. Its app component
keeps one study session. On the home screen the user picks a word-count
limit (10, 30, 50, 100 or 300) and then a category: Noun, Verb, Particle, or
the mixed review "All". `startSession` resets the view and shows a loading
state. It then schedules a loading timer that builds the deck:

- filter the static vocabulary by category;
- sort it by frequency rank, where a missing or zero rank counts as 9999;
- keep the first `limit` entries;
- for "All", do this for nouns, verbs and particles in turn and concatenate the three;
- shuffle the result in place.

On the study screen:

- Next and Prev unflip the card.
- They replace the single pending navigation timer. When that timer fires, it moves the index one step forward (wrapping after the last card) or one step back.
- Flip toggles the card.
- Back returns to the home screen.

The project has three modules:

- `Types` (`types.dfy`): the vocabulary entry and the word categories.
- `DeckBuilder` (`deck_builder.dfy`): the deck built by the loading timer. The filter, the stable rank sort and the top-N slice are pure functions. The shuffle is a method over an array. Lemmas state what the deck holds and in which order.
- `Session` (`session.dfy`): the component state and its timers. There is a pure transition function per handler and per timer, an event-run semantics, the invariants that runs preserve, and a `class Session` whose fields are the component's state variables. Each method is proved to take the state to the corresponding transition function of the old state.

The two timer kinds are part of the state:

- `pendingNav` is the one timer held in `flipTimeoutRef`.
- `pendingBuilds` is the queue of loading timers, oldest first. No handler cancels these.

The random source of the shuffle is a parameter, `coins`. It supplies the comparator answers.

## Model

| member | source | states |
|---|---|---|
| DeckBuilder.OfCategory | App.tsx:57 | every entry occurs in the result as often as in the store when its category is the one asked for, and never otherwise |
| DeckBuilder.OfCategoryCount | App.tsx:57 | the filtered sequence has exactly as many entries as the store has of that category |
| DeckBuilder.OfCategoryAppend | App.tsx:57 | the filter of a concatenation is the filter of the first part followed by the filter of the second, so the filter keeps store order |
| DeckBuilder.OfCategorySingle | App.tsx:57 | one entry passes the filter exactly when its category is the one asked for |
| DeckBuilder.RankKey | App.tsx:45 | the key `frequencyRank \|\| 9999`: the rank when it is present and non-zero, otherwise 9999 (definition, no contract) |
| DeckBuilder.SortByRank | App.tsx:45 | the sort by `frequencyRank \|\| 9999` returns a permutation of its input in ascending key order |
| DeckBuilder.InsertSorted | App.tsx:58 | inserting one entry into a key-sorted sequence keeps it sorted |
| DeckBuilder.InsertStable | App.tsx:58 | insertion puts the new entry ahead of the entries with the same key and keeps their order |
| DeckBuilder.SortStable | App.tsx:58 | the sort is stable: for every key, the entries with that key appear in the same order as in the input |
| DeckBuilder.SortedAgreeingEqual | App.tsx:58 | two key-sorted sequences that agree on the order within every key are equal |
| DeckBuilder.StableSortUnique | App.tsx:58 | any key-sorted order that keeps the input order within each key is exactly `SortByRank`, so the model of the stable sort is the only one |
| DeckBuilder.PrefixHoldsLowest | App.tsx:59 | in a key-sorted sequence, an entry left out of a prefix has a key no smaller than any entry in the prefix |
| DeckBuilder.TopN | App.tsx:56-59 | one category's slice: filter the store by category, sort by rank key, keep the first min(limit, length) entries (definition, no contract) |
| DeckBuilder.TopNSize | App.tsx:56-59 | the top-N slice of one category has min(limit, count of that category) entries, in ascending key order |
| DeckBuilder.TopNWithin | App.tsx:56-59 | the slice holds only entries of that category, each at most as often as in the store |
| DeckBuilder.TopNCutRanksLower | App.tsx:56-59 | an entry of the category with a copy cut from the slice ranks no better than any entry kept in it |
| DeckBuilder.TopNKeepsLowest | App.tsx:56-59 | a cut entry of the category ranks no better than any kept one; when the slice is shorter than the limit, nothing of the category is cut |
| DeckBuilder.TopNOrdered | App.tsx:56-59 | the slice is in deck order (single category, ascending key) |
| DeckBuilder.BuildOrdered | App.tsx:47-60 | the deck before the shuffle: the slice of the chosen category, or the noun, verb and particle slices concatenated for "All" (definition, no contract) |
| DeckBuilder.BuildOrderedSize | App.tsx:47-60 | the unshuffled deck has min(limit, count) entries for one category, and the sum over nouns, verbs and particles for "All" |
| DeckBuilder.AllMultiplicity | App.tsx:49-53 | in the mixed review, an entry occurs as often as in its own category's slice, and an adjective never occurs |
| DeckBuilder.BuildOrderedWithin | App.tsx:47-60 | every entry belongs to the selection (Adjective never belongs to "All"), and the deck is a sub-multiset of the store |
| DeckBuilder.ConcatOrdered | App.tsx:53 | concatenating two deck-ordered sequences whose categories come in order keeps deck order |
| DeckBuilder.MixedOrdered | App.tsx:49-53 | the mixed deck before the shuffle is nouns, then verbs, then particles, each in ascending key order |
| DeckBuilder.BuildOrderedOrder | App.tsx:47-60 | before the shuffle the deck runs nouns, then verbs, then particles, each in ascending key order |
| DeckBuilder.BuildOrderedKeepsLowest | App.tsx:47-60 | within each selected category, an entry that was cut ranks no better than any entry kept of that category |
| DeckBuilder.MixedKeepsLowest | App.tsx:49-53 | in the mixed deck, an entry with a copy cut ranks no better than any kept entry of its own category |
| DeckBuilder.UniqueIdsOccurOnce | types.ts:9 | in a sequence with pairwise distinct ids, no entry occurs twice |
| DeckBuilder.SubMultisetUniqueIds | types.ts:9 | a sub-multiset of a sequence with distinct ids also has distinct ids |
| DeckBuilder.Shuffle | App.tsx:63 | the in-place comparator-driven sort of the array leaves it a permutation of its old contents, whatever the comparator answers |
| DeckBuilder.ShuffledCopy | App.tsx:63 | copying the unshuffled deck into an array and shuffling it yields a permutation of the unshuffled deck |
| DeckBuilder.BuildDeck | App.tsx:42-63 | the loading timer's deck is a permutation of the filtered, sorted, sliced deck (`BuildOrdered`) |
| DeckBuilder.SameEntries | App.tsx:42-63 | any permutation of the unshuffled deck, so the deck `BuildDeck` returns, has min(limit, count) entries per selected category, holds only selected categories, takes no entry more often than the store, and has distinct ids when the store does |
| Session.Admissible | App.tsx:146-236 | when an event can happen: start and limit buttons only on the home screen (App.tsx:100, 130, 155), Back only on the study screen (App.tsx:181, 211), Next and Flip disabled on an empty deck (App.tsx:228, 236), Prev also on the first card (App.tsx:219), a timer only when scheduled, and a build only as a shuffle of the deck for its captured request (definition, no contract) |
| Session.InitialSettled | App.tsx:10-21 | the initial state (home screen, empty deck, limit 50, no timers) satisfies the session invariant |
| Session.StepKeepsInvariant | App.tsx:30-94 | every admissible handler or timer keeps the index non-negative, the limit among the offered choices, loading only with a build pending, a step back only above the first card, and no navigation pending on the home screen |
| Session.RunKeepsInvariant | App.tsx:30-94 | those facts hold after every admissible run of events |
| Session.StartKeepsSettled | App.tsx:30-41 | starting from the home screen with no build pending reaches a state whose single pending build matches the chosen category and limit |
| Session.FinishKeepsSettled | App.tsx:41-67 | a build landing on a settled state leaves the deck a permutation of the build for the current category and limit, with the index in range |
| Session.NextKeepsSettled | App.tsx:70-82 | Next keeps the index in range and plans a step forward only when it stays inside the deck |
| Session.PrevKeepsSettled | App.tsx:84-94 | Prev keeps the settled state |
| Session.FireKeepsSettled | App.tsx:75-92 | the navigation timer firing (forward, wrap or back) keeps the index inside the deck |
| Session.ViewKeepsSettled | App.tsx:181 | Flip (App.tsx:205, 229), Back (App.tsx:181, 211) and a limit change (App.tsx:130) keep the settled state |
| Session.StepKeepsSettled | App.tsx:30-94 | every admissible event keeps the settled state, except a start while a build is still pending |
| Session.QuietRunKeepsSettled | App.tsx:30-94 | along a run that never starts a session over a pending build, the index stays in range and the deck is the one for the current category and limit |
| Session.CurrentWord | App.tsx:97 | the card shown: the entry at the index when the deck is non-empty and the index is inside it, otherwise none (definition, no contract) |
| Session.CurrentWordSettled | App.tsx:97 | in a settled state a card is shown exactly when the deck is non-empty, and it is the card at the index |
| Session.RunAppend | App.tsx:30-94 | running two event sequences one after the other equals running their concatenation, and is admissible exactly when both halves are |
| Session.ScenarioNouns | App.tsx:56-59 | for a store [n1, n2, v1] with two nouns in key order and one verb, the noun deck before the shuffle is [n1, n2] |
| Session.ScenarioVerbs | App.tsx:56-59 | for the same store, the verb deck before the shuffle is [v1] |
| Session.TwoStarts | App.tsx:30-41 | start nouns, go back, start verbs are admissible and leave both builds pending, the noun build first |
| Session.StaleBuildBefore | App.tsx:41 | for any store whose noun deck is [n1, n2]: start nouns, go back, start verbs, and the noun build lands first, showing the noun deck in the verb session |
| Session.StaleBuildAfter | App.tsx:75-80 | for any store whose verb deck is [v1]: a Next pressed on that two-card deck fires after the verb deck has landed, and moves the index to 1 |
| Session.StaleBuildLands | App.tsx:41-67 | the whole run is admissible, and it ends with the one-card verb deck at index 1 and no card shown |
| Session.StartReplacingKeepsSettled | App.tsx:31-32 | a start that replaces the pending build keeps the settled state from the home screen |
| Session.CorrectedRunKeepsSettled | App.tsx:30-41 | with the corrected start, every admissible run keeps the index in range and the deck current |
| Session.NextCycles | App.tsx:76-80 | pressing Next k times (each timer firing) moves the index to (i + k) mod n, leaves the deck unchanged, and leaves the card unflipped with nothing pending |
| Session.NextOnEmpty | App.tsx:76-80 | on an empty deck, Next with its timer moves the index to 0, the wrap branch, and leaves the deck unchanged |
| Session.NextOnce | App.tsx:76-80 | one Next with its timer firing moves the index to i + 1, or to 0 from the last card, which is (i + 1) mod n |
| Session.PrevClamps | App.tsx:84-93 | pressing Prev k times moves the index to max(i - k, 0), and on the first card changes nothing |
| Session.Session.constructor | App.tsx:10-21 | the fields start as the initial state |
| Session.Session.StartSession | App.tsx:30-41 | the new state is `Start` of the old one: category set, loading, index 0, unflipped, empty deck, navigation cancelled, a build queued with the current limit |
| Session.Session.BuildTimerFires | App.tsx:41-67 | the oldest build runs: the deck becomes a permutation of the build for its captured selection and limit, loading ends and that timer leaves the queue |
| Session.Session.HandleNext | App.tsx:70-82 | the new state is `Next` of the old one: unflipped, the pending navigation replaced by a forward step, or by a wrap on the last card |
| Session.Session.HandlePrev | App.tsx:84-94 | the new state is `Prev` of the old one: above the first card unflipped with a step back pending, otherwise unchanged |
| Session.Session.NavTimerFires | App.tsx:75-92 | the pending navigation step is applied to the current index, and the slot is cleared |
| Session.Session.ToggleFlip | App.tsx:229 | only the flip flag changes, to its negation |
| Session.Session.GoBack | App.tsx:181 | the category becomes none and the pending navigation is cancelled by the effect cleanup; deck, index and builds are kept |
| Session.Session.SetWordCountLimit | App.tsx:130 | only the word-count limit changes |

## Left out

- The JSX rendering is not modelled: layout, icons, the "~N words total" descriptions and the card counter at App.tsx:190. What the screens allow is captured by `Session.Admissible`: which buttons exist on which screen, and which are disabled.
- The Flashcard and VerbConjugationModal components and the Gemini service are not part of this model. Neither is the `selectedVerb` state (App.tsx:15, 206, 246-251), which opens the verb details modal and does not touch the session.
- The vocabulary data file is not part of this model. The store is a parameter (`store`).
- The types at types.ts:20-41 are not used by the core and are not modelled. vite.config.ts is build configuration.
- Timer durations (400 ms and 200 ms) are not modelled. Timers are events that may fire in any admissible order. The model only keeps that timers of one kind fire in the order they were scheduled.
- React batching, re-renders and effect scheduling are not modelled. Handlers act on the last rendered state, which the model takes to be the current state. The Advance/Wrap choice of `handleNext` is made when Next is pressed, as the closure does.
- `frequencyRank` is a JavaScript number. It is modelled as an integer, so fractional and NaN ranks are not covered. Following the code, a rank of 0 sorts like a missing rank (9999), and ranks above 9999 sort after unranked entries.
- DeckBuilder.Shuffle does not model the distribution of `Math.random() - 0.5` or the engine's own sort algorithm. It is an insertion-sort pass whose comparator answers come from `coins`. Only the permutation property is claimed, and that holds for any comparator answers.
- Session.QuietRunKeepsSettled: the range and freshness invariant is proved only for runs that never start a session while a build is pending. With the code as written the stronger claim fails; see Findings.
- Session.Session.HandleNext and Session.Session.HandlePrev are stated as state transitions. Their card-level effect (cycling forward, clamping back) is proved on the pure functions by Session.NextCycles and Session.PrevClamps.

## Findings

| source | as written | input that shows it | evidently intended | confidence | as-written member | corrected member |
|---|---|---|---|---|---|---|
| App.tsx:41 | the loading timer scheduled by `startSession` is never cancelled; only the navigation timer is cleared (App.tsx:32) | store [n1 noun rank 1, n2 noun rank 2, v1 verb rank 1]; start Noun, Back, start Verb within 400 ms; the noun build lands and shows [n1, n2] in the verb session; Next pressed there fires after the verb deck [v1] has landed, leaving index 1 and no card | a new session discards the previous session's pending build, so no stale deck is shown (the comments at App.tsx:31 and App.tsx:38) | medium, not executed | Session.StaleBuildLands | Session.CorrectedRunKeepsSettled |
