/**
 * The deck builder that the loading timer of `startSession` runs: filter the
 * vocabulary store by category, sort by frequency rank, keep the first
 * `limit` entries (for the mixed review: nouns, then verbs, then particles),
 * then shuffle the result in place.
 */
module DeckBuilder {
  import opened Types

  /** Sort key given to entries whose rank is absent or 0: `frequencyRank || 9999`. */
  const MissingRank: int := 9999

  /** The key compared by `rankSort`: the rank when it is present and non-zero, else 9999. */
  function RankKey(w: QuranWord): int {
    match w.frequencyRank
    case Some(r) => if r != 0 then r else MissingRank
    case None => MissingRank
  }

  function Min(a: nat, b: nat): nat {
    if a <= b then a else b
  }

  /** Position of a category in the mixed review: nouns, then verbs, then particles. */
  function CategoryOrder(c: WordCategory): nat {
    match c
    case Noun => 0
    case Verb => 1
    case Particle => 2
    case Adjective => 3
  }

  /** Whether entries of category `c` take part in a session started for `sel`. */
  predicate Selects(sel: Selection, c: WordCategory) {
    match sel
    case All => c != Adjective
    case Only(d) => c == d
  }

  // ---------------------------------------------------------------------------
  // Filtering

  /** Number of entries of `s` with category `c`, counted one at a time. */
  function CountOf(s: seq<QuranWord>, c: WordCategory): nat {
    if s == [] then 0 else (if s[0].category == c then 1 else 0) + CountOf(s[1..], c)
  }

  /** `s.filter(w => w.category === c)`: a fresh sequence, in store order. */
  function OfCategory(s: seq<QuranWord>, c: WordCategory): (r: seq<QuranWord>)
    ensures forall w: QuranWord :: multiset(r)[w] == if w.category == c then multiset(s)[w] else 0
  {
    if s == [] then []
    else
      assert s == [s[0]] + s[1..];
      var rest := OfCategory(s[1..], c);
      if s[0].category == c then [s[0]] + rest else rest
  }

  lemma {:induction false} OfCategoryCount(s: seq<QuranWord>, c: WordCategory)
    ensures |OfCategory(s, c)| == CountOf(s, c)
  {
    if s != [] {
      OfCategoryCount(s[1..], c);
    }
  }

  /** Filtering keeps store order: the filter of a concatenation is the concatenation of the filters. */
  lemma {:induction false} OfCategoryAppend(a: seq<QuranWord>, b: seq<QuranWord>, c: WordCategory)
    ensures OfCategory(a + b, c) == OfCategory(a, c) + OfCategory(b, c)
  {
    if a == [] {
      assert a + b == b;
    } else {
      assert (a + b)[1..] == a[1..] + b;
      OfCategoryAppend(a[1..], b, c);
    }
  }

  /** The filter of one entry is that entry when its category is the one asked for, and empty otherwise. */
  lemma OfCategorySingle(w: QuranWord, c: WordCategory)
    ensures OfCategory([w], c) == if w.category == c then [w] else []
  {
    assert [w][1..] == [];
  }

  // ---------------------------------------------------------------------------
  // Sorting by rank

  predicate SortedByRank(s: seq<QuranWord>) {
    forall i, j :: 0 <= i < j < |s| ==> RankKey(s[i]) <= RankKey(s[j])
  }

  /** Places `w` before the first entry whose key is not smaller, so that `w` stays ahead of its ties. */
  function Insert(w: QuranWord, s: seq<QuranWord>): (r: seq<QuranWord>)
    ensures multiset(r) == multiset(s) + multiset{w}
  {
    if s == [] then [w]
    else if RankKey(w) <= RankKey(s[0]) then [w] + s
    else
      assert s == [s[0]] + s[1..];
      [s[0]] + Insert(w, s[1..])
  }

  lemma {:induction false} InsertSorted(w: QuranWord, s: seq<QuranWord>)
    requires SortedByRank(s)
    ensures SortedByRank(Insert(w, s))
  {
    if s != [] && RankKey(w) > RankKey(s[0]) {
      var rest := Insert(w, s[1..]);
      InsertSorted(w, s[1..]);
      forall i | 0 <= i < |rest| ensures RankKey(s[0]) <= RankKey(rest[i]) {
        assert rest[i] in multiset(rest);
        assert rest[i] in multiset(s[1..]) || rest[i] == w;
      }
    }
  }

  /**
   * `sort(rankSort)`: the stable sort ascending by `RankKey`. The comparator
   * `(a.frequencyRank || 9999) - (b.frequencyRank || 9999)` is consistent and
   * the sort of the language is stable, so ties keep their store order.
   */
  function SortByRank(s: seq<QuranWord>): (r: seq<QuranWord>)
    ensures multiset(r) == multiset(s)
    ensures SortedByRank(r)
  {
    if s == [] then []
    else
      assert s == [s[0]] + s[1..];
      InsertSorted(s[0], SortByRank(s[1..]));
      Insert(s[0], SortByRank(s[1..]))
  }

  /** The entries of `s` whose key is `k`, in their order in `s`. */
  function WithKey(s: seq<QuranWord>, k: int): seq<QuranWord> {
    if s == [] then [] else (if RankKey(s[0]) == k then [s[0]] else []) + WithKey(s[1..], k)
  }

  lemma {:induction false} InsertStable(w: QuranWord, s: seq<QuranWord>, k: int)
    ensures WithKey(Insert(w, s), k) == if RankKey(w) == k then [w] + WithKey(s, k) else WithKey(s, k)
  {
    if s == [] {
    } else if RankKey(w) <= RankKey(s[0]) {
      assert ([w] + s)[1..] == s;
    } else {
      var rest := Insert(w, s[1..]);
      InsertStable(w, s[1..], k);
      assert ([s[0]] + rest)[1..] == rest;
    }
  }

  /** Sorting keeps the relative order of entries with equal keys. */
  lemma {:induction false} SortStable(s: seq<QuranWord>, k: int)
    ensures WithKey(SortByRank(s), k) == WithKey(s, k)
  {
    if s != [] {
      var sortedTail := SortByRank(s[1..]);
      assert SortByRank(s) == Insert(s[0], sortedTail);
      SortStable(s[1..], k);
      InsertStable(s[0], sortedTail, k);
      assert WithKey(s, k) == (if RankKey(s[0]) == k then [s[0]] else []) + WithKey(s[1..], k);
    }
  }

  lemma {:induction false} WithKeyMember(s: seq<QuranWord>, k: int, x: QuranWord)
    requires x in WithKey(s, k)
    ensures x in s && RankKey(x) == k
  {
    if s != [] && x in WithKey(s[1..], k) {
      WithKeyMember(s[1..], k, x);
    }
  }

  /** Two key-sorted sequences that agree on the order of every group of equal keys are equal. */
  lemma {:induction false} SortedAgreeingEqual(r: seq<QuranWord>, t: seq<QuranWord>)
    requires SortedByRank(r) && SortedByRank(t)
    requires forall k :: WithKey(r, k) == WithKey(t, k)
    ensures r == t
    decreases |r|
  {
    assert r == [] <==> t == [] by {
      if r != [] { assert WithKey(r, RankKey(r[0])) != []; }
      if t != [] { assert WithKey(t, RankKey(t[0])) != []; }
    }
    if r != [] {
      var a, b := RankKey(r[0]), RankKey(t[0]);
      WithKeyMember(t, a, WithKey(t, a)[0]);
      WithKeyMember(r, b, WithKey(r, b)[0]);
      assert a == b;
      assert WithKey(r, a) == [r[0]] + WithKey(r[1..], a);
      assert WithKey(t, a) == [t[0]] + WithKey(t[1..], a);
      forall k ensures WithKey(r[1..], k) == WithKey(t[1..], k) {
        if k == a {
          assert ([r[0]] + WithKey(r[1..], a))[1..] == WithKey(r[1..], a);
          assert ([t[0]] + WithKey(t[1..], a))[1..] == WithKey(t[1..], a);
        } else {
          assert WithKey(r, k) == WithKey(r[1..], k);
          assert WithKey(t, k) == WithKey(t[1..], k);
        }
      }
      SortedAgreeingEqual(r[1..], t[1..]);
      assert r == [r[0]] + r[1..] && t == [t[0]] + t[1..];
    }
  }

  /**
   * Any sort that is ascending by key and keeps ties in their input order
   * (as the sort of the language does) yields exactly `SortByRank`.
   */
  lemma StableSortUnique(s: seq<QuranWord>, r: seq<QuranWord>)
    requires SortedByRank(r)
    requires forall k :: WithKey(r, k) == WithKey(s, k)
    ensures r == SortByRank(s)
  {
    forall k ensures WithKey(r, k) == WithKey(SortByRank(s), k) {
      SortStable(s, k);
    }
    SortedAgreeingEqual(r, SortByRank(s));
  }

  // ---------------------------------------------------------------------------
  // Top-N selection and the combined deck

  /** `filter(category === c).sort(rankSort).slice(0, limit)`. */
  function TopN(store: seq<QuranWord>, c: WordCategory, limit: nat): seq<QuranWord> {
    var sorted := SortByRank(OfCategory(store, c));
    sorted[..Min(limit, |sorted|)]
  }

  /** In a sequence sorted by key, an entry with a copy beyond the prefix `s[..k]` has no smaller key than any entry of the prefix. */
  lemma PrefixHoldsLowest(s: seq<QuranWord>, k: nat, w: QuranWord, x: QuranWord)
    requires SortedByRank(s) && k <= |s|
    requires multiset(s[..k])[w] < multiset(s)[w] && x in s[..k]
    ensures RankKey(x) <= RankKey(w)
  {
    assert s == s[..k] + s[k..];
    assert w in multiset(s[k..]);
    var j :| 0 <= j < |s[k..]| && s[k..][j] == w;
    var i :| 0 <= i < k && s[..k][i] == x;
    assert s[i] == x && s[k + j] == w;
  }

  /** The top-`limit` slice of one category has min(limit, count) entries, in ascending key order. */
  lemma TopNSize(store: seq<QuranWord>, c: WordCategory, limit: nat)
    ensures |TopN(store, c, limit)| == Min(limit, CountOf(store, c))
    ensures SortedByRank(TopN(store, c, limit))
  {
    var filtered := OfCategory(store, c);
    var sorted := SortByRank(filtered);
    OfCategoryCount(store, c);
    assert |sorted| == |filtered| by {
      assert |multiset(sorted)| == |multiset(filtered)|;
    }
  }

  /** The top-`limit` slice holds only entries of its category, none more often than the store. */
  lemma TopNWithin(store: seq<QuranWord>, c: WordCategory, limit: nat)
    ensures forall w: QuranWord :: multiset(TopN(store, c, limit))[w] <= if w.category == c then multiset(store)[w] else 0
    ensures forall w :: w in TopN(store, c, limit) ==> w.category == c
  {
    var filtered := OfCategory(store, c);
    var sorted := SortByRank(filtered);
    var r := TopN(store, c, limit);
    PrefixWithin(sorted, Min(limit, |sorted|));
    assert multiset(r) <= multiset(filtered);
    forall w: QuranWord ensures multiset(r)[w] <= if w.category == c then multiset(store)[w] else 0 {
      assert multiset(r)[w] <= multiset(filtered)[w];
    }
  }

  /** A prefix holds no entry more often than the whole sequence. */
  lemma PrefixWithin(s: seq<QuranWord>, k: nat)
    requires k <= |s|
    ensures multiset(s[..k]) <= multiset(s)
  {
    assert s == s[..k] + s[k..];
  }

  /** One cut entry `w` against one kept entry `x` of the same category. */
  lemma TopNCutRanksLower(store: seq<QuranWord>, c: WordCategory, limit: nat, w: QuranWord, x: QuranWord)
    requires multiset(TopN(store, c, limit))[w] < multiset(store)[w] && w.category == c
    requires x in TopN(store, c, limit)
    ensures RankKey(x) <= RankKey(w)
  {
    var sorted := SortByRank(OfCategory(store, c));
    PrefixHoldsLowest(sorted, Min(limit, |sorted|), w, x);
  }

  /**
   * No entry of the category that was cut off (some copy of it left out) has
   * a smaller key than a kept one; and when fewer than `limit` are kept,
   * nothing of the category was left out.
   */
  lemma TopNKeepsLowest(store: seq<QuranWord>, c: WordCategory, limit: nat)
    ensures forall w: QuranWord, x: QuranWord ::
      w.category == c && multiset(TopN(store, c, limit))[w] < multiset(store)[w] && x in TopN(store, c, limit)
      ==> RankKey(x) <= RankKey(w)
    ensures |TopN(store, c, limit)| < limit ==>
      forall w: QuranWord :: w.category == c ==> multiset(TopN(store, c, limit))[w] == multiset(store)[w]
  {
    var sorted := SortByRank(OfCategory(store, c));
    var r := TopN(store, c, limit);
    forall w: QuranWord, x: QuranWord | w.category == c && multiset(r)[w] < multiset(store)[w] && x in r
      ensures RankKey(x) <= RankKey(w)
    {
      TopNCutRanksLower(store, c, limit, w, x);
    }
    if |r| < limit {
      assert r == sorted;
    }
  }

  /** The deck before the shuffle: one top-`limit` slice, or three concatenated for `'All'`. */
  function BuildOrdered(store: seq<QuranWord>, sel: Selection, limit: nat): seq<QuranWord> {
    match sel
    case All => TopN(store, Noun, limit) + TopN(store, Verb, limit) + TopN(store, Particle, limit)
    case Only(c) => TopN(store, c, limit)
  }

  /** Expected deck size: min(limit, count) for one category, summed over the three mixed ones. */
  function DeckSize(store: seq<QuranWord>, sel: Selection, limit: nat): nat {
    match sel
    case All =>
      Min(limit, CountOf(store, Noun)) + Min(limit, CountOf(store, Verb)) + Min(limit, CountOf(store, Particle))
    case Only(c) => Min(limit, CountOf(store, c))
  }

  /** `x` may precede `y` in an unshuffled deck: earlier category, or same category and key not larger. */
  predicate InDeckOrder(x: QuranWord, y: QuranWord) {
    CategoryOrder(x.category) < CategoryOrder(y.category)
    || (x.category == y.category && RankKey(x) <= RankKey(y))
  }

  /** The unshuffled deck has min(limit, count) entries per selected category. */
  lemma BuildOrderedSize(store: seq<QuranWord>, sel: Selection, limit: nat)
    ensures |BuildOrdered(store, sel, limit)| == DeckSize(store, sel, limit)
  {
    match sel
    case Only(c) =>
      TopNSize(store, c, limit);
    case All =>
      TopNSize(store, Noun, limit);
      TopNSize(store, Verb, limit);
      TopNSize(store, Particle, limit);
  }

  /** In the mixed deck, each entry is counted in the slice of its own category only. */
  lemma AllMultiplicity(store: seq<QuranWord>, limit: nat, w: QuranWord)
    ensures multiset(BuildOrdered(store, All, limit))[w] ==
      if w.category == Adjective then 0 else multiset(TopN(store, w.category, limit))[w]
  {
    var nouns, verbs, particles := TopN(store, Noun, limit), TopN(store, Verb, limit), TopN(store, Particle, limit);
    TopNWithin(store, Noun, limit);
    TopNWithin(store, Verb, limit);
    TopNWithin(store, Particle, limit);
    assert multiset(BuildOrdered(store, All, limit)) == multiset(nouns) + multiset(verbs) + multiset(particles);
    if w.category != Noun { assert w !in nouns; }
    if w.category != Verb { assert w !in verbs; }
    if w.category != Particle { assert w !in particles; }
  }

  /**
   * The unshuffled deck holds only entries of the selected categories (never
   * an adjective in the mixed review) and no entry more often than the store.
   */
  lemma BuildOrderedWithin(store: seq<QuranWord>, sel: Selection, limit: nat)
    ensures forall w :: w in BuildOrdered(store, sel, limit) ==> Selects(sel, w.category)
    ensures multiset(BuildOrdered(store, sel, limit)) <= multiset(store)
  {
    var r := BuildOrdered(store, sel, limit);
    match sel
    case Only(c) =>
      TopNWithin(store, c, limit);
    case All =>
      forall w: QuranWord ensures multiset(r)[w] <= multiset(store)[w] && (w in r ==> w.category != Adjective) {
        AllMultiplicity(store, limit, w);
        if w.category != Adjective {
          TopNWithin(store, w.category, limit);
        }
      }
  }

  predicate DeckOrdered(s: seq<QuranWord>) {
    forall i, j :: 0 <= i < j < |s| ==> InDeckOrder(s[i], s[j])
  }

  lemma SliceOrdered(s: seq<QuranWord>, c: WordCategory)
    requires SortedByRank(s) && forall w :: w in s ==> w.category == c
    ensures DeckOrdered(s)
  {
    forall i, j | 0 <= i < j < |s| ensures InDeckOrder(s[i], s[j]) {
      assert s[i] in s && s[j] in s;
    }
  }

  lemma {:induction false} ConcatOrdered(a: seq<QuranWord>, b: seq<QuranWord>)
    requires DeckOrdered(a) && DeckOrdered(b)
    requires forall x, y :: x in a && y in b ==> CategoryOrder(x.category) < CategoryOrder(y.category)
    ensures DeckOrdered(a + b)
  {
    var r := a + b;
    forall i, j | 0 <= i < j < |r| ensures InDeckOrder(r[i], r[j]) {
      if j < |a| {
        assert r[i] == a[i] && r[j] == a[j];
      } else if i >= |a| {
        assert r[i] == b[i - |a|] && r[j] == b[j - |a|];
      } else {
        assert r[i] == a[i] && r[j] == b[j - |a|];
        assert r[i] in a && r[j] in b;
      }
    }
  }

  lemma TopNOrdered(store: seq<QuranWord>, c: WordCategory, limit: nat)
    ensures DeckOrdered(TopN(store, c, limit))
    ensures forall w :: w in TopN(store, c, limit) ==> w.category == c
  {
    TopNSize(store, c, limit);
    TopNWithin(store, c, limit);
    SliceOrdered(TopN(store, c, limit), c);
  }

  /** Before the shuffle the deck runs through nouns, verbs, particles in turn, each in ascending key order. */
  lemma BuildOrderedOrder(store: seq<QuranWord>, sel: Selection, limit: nat)
    ensures forall i, j :: 0 <= i < j < |BuildOrdered(store, sel, limit)| ==>
      InDeckOrder(BuildOrdered(store, sel, limit)[i], BuildOrdered(store, sel, limit)[j])
  {
    match sel
    case Only(c) =>
      TopNOrdered(store, c, limit);
    case All =>
      MixedOrdered(store, limit);
  }

  /** The mixed deck: nouns before verbs before particles, each slice ordered. */
  lemma MixedOrdered(store: seq<QuranWord>, limit: nat)
    ensures DeckOrdered(BuildOrdered(store, All, limit))
  {
    var nouns, verbs, particles := TopN(store, Noun, limit), TopN(store, Verb, limit), TopN(store, Particle, limit);
    TopNOrdered(store, Noun, limit);
    TopNOrdered(store, Verb, limit);
    TopNOrdered(store, Particle, limit);
    ConcatOrdered(nouns, verbs);
    var front := nouns + verbs;
    forall x: QuranWord | x in front ensures CategoryOrder(x.category) <= 1 {
      assert x in nouns || x in verbs;
    }
    ConcatOrdered(front, particles);
  }

  /**
   * Within each selected category, an entry that was cut off (some copy of it
   * left out of the deck) has no smaller key than any kept entry of that category.
   */
  lemma BuildOrderedKeepsLowest(store: seq<QuranWord>, sel: Selection, limit: nat)
    ensures forall w: QuranWord, x: QuranWord ::
      Selects(sel, w.category) && multiset(BuildOrdered(store, sel, limit))[w] < multiset(store)[w]
      && x in BuildOrdered(store, sel, limit) && x.category == w.category
      ==> RankKey(x) <= RankKey(w)
  {
    var r := BuildOrdered(store, sel, limit);
    forall w: QuranWord, x: QuranWord |
      Selects(sel, w.category) && multiset(r)[w] < multiset(store)[w] && x in r && x.category == w.category
      ensures RankKey(x) <= RankKey(w)
    {
      if sel.All? {
        MixedKeepsLowest(store, limit, w, x);
      } else {
        TopNKeepsLowest(store, w.category, limit);
      }
    }
  }

  /** In the mixed deck, a cut entry ranks no better than any kept entry of its own category. */
  lemma MixedKeepsLowest(store: seq<QuranWord>, limit: nat, w: QuranWord, x: QuranWord)
    requires w.category != Adjective && multiset(BuildOrdered(store, All, limit))[w] < multiset(store)[w]
    requires x in BuildOrdered(store, All, limit) && x.category == w.category
    ensures RankKey(x) <= RankKey(w)
  {
    var r, slice := BuildOrdered(store, All, limit), TopN(store, w.category, limit);
    AllMultiplicity(store, limit, w);
    AllMultiplicity(store, limit, x);
    assert x in multiset(r);
    assert x in multiset(slice);
    TopNCutRanksLower(store, w.category, limit, w, x);
  }

  // ---------------------------------------------------------------------------
  // Uniqueness of entries

  predicate UniqueIds(s: seq<QuranWord>) {
    forall i, j :: 0 <= i < j < |s| ==> s[i].id != s[j].id
  }

  lemma {:induction false} UniqueIdsOccurOnce(s: seq<QuranWord>, w: QuranWord)
    requires UniqueIds(s)
    ensures multiset(s)[w] <= 1
  {
    if s != [] {
      assert s == [s[0]] + s[1..];
      UniqueIdsOccurOnce(s[1..], w);
      if s[0] == w {
        assert w !in s[1..];
      }
    }
  }

  lemma RepeatedOccursTwice(s: seq<QuranWord>, i: nat, j: nat)
    requires i < j < |s| && s[i] == s[j]
    ensures multiset(s)[s[i]] >= 2
  {
    assert s == s[..j] + [s[j]] + s[j + 1..];
    assert s[..j][i] == s[i];
  }

  /** A sequence drawn from a store with unique ids, without repetition, has unique ids. */
  lemma SubMultisetUniqueIds(a: seq<QuranWord>, b: seq<QuranWord>)
    requires multiset(a) <= multiset(b) && UniqueIds(b)
    ensures UniqueIds(a)
  {
    forall i, j | 0 <= i < j < |a| ensures a[i].id != a[j].id {
      if a[i] == a[j] {
        RepeatedOccursTwice(a, i, j);
        UniqueIdsOccurOnce(b, a[i]);
      } else {
        assert a[i] in multiset(b) && a[j] in multiset(b);
        var p :| 0 <= p < |b| && b[p] == a[i];
        var q :| 0 <= q < |b| && b[q] == a[j];
        assert p != q;
        if p < q { } else { }
      }
    }
  }

  // ---------------------------------------------------------------------------
  // Shuffle and the whole build

  /**
   * The in-place shuffle `finalDeck.sort(() => Math.random() - 0.5)`, as a
   * comparison sort whose comparator answers come from `coins` (true: the
   * pair is out of order); once `coins` is used up every answer is false.
   */
  method Shuffle(a: array<QuranWord>, coins: seq<bool>)
    modifies a
    ensures multiset(a[..]) == old(multiset(a[..]))
  {
    var used := 0;
    var i := 1;
    while i < a.Length
      invariant multiset(a[..]) == old(multiset(a[..]))
    {
      var j := i;
      while j > 0
        invariant 0 <= j <= i < a.Length
        invariant multiset(a[..]) == old(multiset(a[..]))
      {
        var outOfOrder := used < |coins| && coins[used];
        used := used + 1;
        if !outOfOrder {
          break;
        }
        a[j - 1], a[j] := a[j], a[j - 1];
        j := j - 1;
      }
      i := i + 1;
    }
  }

  /**
   * The body of the loading timer up to `setDeck`: the unshuffled deck is
   * built into a fresh array (`let finalDeck`), which is then shuffled. The
   * result holds the same entries as `BuildOrdered`, in some order; what
   * that implies for the deck is `SameEntries`.
   */
  method BuildDeck(store: seq<QuranWord>, sel: Selection, limit: nat, coins: seq<bool>) returns (deck: seq<QuranWord>)
    ensures multiset(deck) == multiset(BuildOrdered(store, sel, limit))
  {
    var ordered := BuildOrdered(store, sel, limit);
    deck := ShuffledCopy(ordered, coins);
  }

  /** Copies `ordered` into a fresh array and shuffles that array in place. */
  method ShuffledCopy(ordered: seq<QuranWord>, coins: seq<bool>) returns (deck: seq<QuranWord>)
    ensures multiset(deck) == multiset(ordered)
  {
    var finalDeck := new QuranWord[|ordered|](i requires 0 <= i < |ordered| => ordered[i]);
    assert finalDeck[..] == ordered;
    Shuffle(finalDeck, coins);
    deck := finalDeck[..];
  }

  /**
   * Any rearrangement of the unshuffled deck, and so the deck `BuildDeck`
   * returns, has its size, only selected categories, no entry more often
   * than the store, and distinct ids when the store has them.
   */
  lemma SameEntries(deck: seq<QuranWord>, store: seq<QuranWord>, sel: Selection, limit: nat)
    requires multiset(deck) == multiset(BuildOrdered(store, sel, limit))
    ensures |deck| == DeckSize(store, sel, limit)
    ensures multiset(deck) <= multiset(store)
    ensures forall w :: w in deck ==> Selects(sel, w.category)
    ensures UniqueIds(store) ==> UniqueIds(deck)
  {
    var ordered := BuildOrdered(store, sel, limit);
    BuildOrderedSize(store, sel, limit);
    BuildOrderedWithin(store, sel, limit);
    assert |deck| == |multiset(deck)| == |ordered|;
    forall w | w in deck ensures Selects(sel, w.category) {
      assert w in multiset(ordered);
    }
    if UniqueIds(store) {
      SubMultisetUniqueIds(deck, store);
    }
  }
}
