/**
 * The study-session state machine of the app component: the chosen
 * category, the deck, the current position, the flip flag and the loading
 * flag, together with the two kinds of timer the handlers schedule. The
 * transitions are pure functions over `SessionState`; the class `Session`
 * holds the same state in fields and its methods are proved to follow them.
 */
module Session {
  import opened Types
  import opened DeckBuilder

  /** Word-count limits offered on the home screen. */
  const LimitChoices: set<nat> := {10, 30, 50, 100, 300}

  /** The word-count limit before the user picks one. */
  const DefaultLimit: nat := 50

  /** The index change a navigation timer applies when it fires. */
  datatype NavStep =
    | Advance  // `prev => prev + 1`
    | Wrap     // back to the first card
    | Retreat  // `prev => prev - 1`

  /** A deck build scheduled by `startSession`, with the selection and the limit it captured. */
  datatype BuildRequest = BuildRequest(selection: Selection, limit: nat)

  /**
   * The component state plus its timers. `pendingNav` is the one timer held
   * in `flipTimeoutRef`; `pendingBuilds` are the loading timers, which no
   * handler ever cancels, oldest first.
   */
  datatype SessionState = SessionState(
    category: Option<Selection>,
    deck: seq<QuranWord>,
    currentIndex: int,
    flipped: bool,
    loading: bool,
    wordCountLimit: nat,
    pendingNav: Option<NavStep>,
    pendingBuilds: seq<BuildRequest>)

  function Initial(): SessionState {
    SessionState(None, [], 0, false, false, DefaultLimit, None, [])
  }

  // ---------------------------------------------------------------------------
  // Transitions

  /** `startSession(cat)`: cancel the navigation timer, reset the view, schedule a build. */
  function Start(s: SessionState, sel: Selection): SessionState {
    s.(category := Some(sel), loading := true, currentIndex := 0, flipped := false, deck := [],
       pendingNav := None, pendingBuilds := s.pendingBuilds + [BuildRequest(sel, s.wordCountLimit)])
  }

  /** The oldest loading timer fires with the deck it built: `setDeck`, `setLoading(false)`. */
  function FinishBuild(s: SessionState, built: seq<QuranWord>): SessionState {
    if s.pendingBuilds == [] then s
    else s.(deck := built, loading := false, pendingBuilds := s.pendingBuilds[1..])
  }

  /** `handleNext`: unflip, and replace any pending navigation by a step forward that wraps after the last card. */
  function Next(s: SessionState): SessionState {
    s.(flipped := false, pendingNav := Some(if s.currentIndex < |s.deck| - 1 then Advance else Wrap))
  }

  /** `handlePrev`: only away from the first card, unflip and replace any pending navigation by a step back. */
  function Prev(s: SessionState): SessionState {
    if s.currentIndex > 0 then s.(flipped := false, pendingNav := Some(Retreat)) else s
  }

  /** The navigation timer fires. */
  function FireNav(s: SessionState): SessionState {
    match s.pendingNav
    case None => s
    case Some(step) =>
      var i := match step
        case Advance => s.currentIndex + 1
        case Wrap => 0
        case Retreat => s.currentIndex - 1;
      s.(currentIndex := i, pendingNav := None)
  }

  /** `setFlipped(!flipped)`. */
  function Flip(s: SessionState): SessionState {
    s.(flipped := !s.flipped)
  }

  /**
   * "Back": `setCategory(null)`. The effect keyed on `category` then runs its
   * cleanup, which cancels the navigation timer. Deck and index are kept.
   */
  function Back(s: SessionState): SessionState {
    s.(category := None, pendingNav := None)
  }

  /** A limit button on the home screen: `setWordCountLimit(n)`. */
  function ChooseLimit(s: SessionState, n: nat): SessionState {
    s.(wordCountLimit := n)
  }

  /** The card shown: `deck.length > 0 ? deck[currentIndex] : undefined`. */
  function CurrentWord(s: SessionState): Option<QuranWord> {
    if |s.deck| > 0 && 0 <= s.currentIndex < |s.deck| then Some(s.deck[s.currentIndex]) else None
  }

  // ---------------------------------------------------------------------------
  // Events and runs

  datatype Event =
    | StartEv(selection: Selection)
    | NextEv
    | PrevEv
    | FlipEv
    | BackEv
    | LimitEv(limit: nat)
    | NavFires
    | BuildFires(built: seq<QuranWord>)

  function Step(s: SessionState, e: Event): SessionState {
    match e
    case StartEv(sel) => Start(s, sel)
    case NextEv => Next(s)
    case PrevEv => Prev(s)
    case FlipEv => Flip(s)
    case BackEv => Back(s)
    case LimitEv(n) => ChooseLimit(s, n)
    case NavFires => FireNav(s)
    case BuildFires(built) => FinishBuild(s, built)
  }

  /**
   * When an event can happen: category and limit buttons exist only on the
   * home screen (no category), the study controls only on the study screen;
   * Next and Flip are disabled on an empty deck, Prev also on the first card;
   * a timer fires only when scheduled, and a build yields a shuffle of the
   * deck for the selection and limit that the timer captured.
   */
  predicate Admissible(store: seq<QuranWord>, s: SessionState, e: Event) {
    match e
    case StartEv(_) => s.category == None
    case LimitEv(n) => s.category == None && n in LimitChoices
    case NextEv => s.category != None && |s.deck| > 0
    case PrevEv => s.category != None && |s.deck| > 0 && s.currentIndex != 0
    case FlipEv => s.category != None && |s.deck| > 0
    case BackEv => s.category != None
    case NavFires => s.pendingNav != None
    case BuildFires(built) =>
      s.pendingBuilds != []
      && multiset(built) == multiset(BuildOrdered(store, s.pendingBuilds[0].selection, s.pendingBuilds[0].limit))
  }

  function Run(s: SessionState, es: seq<Event>): SessionState
    decreases |es|
  {
    if es == [] then s else Run(Step(s, es[0]), es[1..])
  }

  predicate AdmissibleRun(store: seq<QuranWord>, s: SessionState, es: seq<Event>)
    decreases |es|
  {
    es == [] || (Admissible(store, s, es[0]) && AdmissibleRun(store, Step(s, es[0]), es[1..]))
  }

  /** An admissible run in which no session is started while a loading timer is still pending. */
  predicate QuietRun(store: seq<QuranWord>, s: SessionState, es: seq<Event>)
    decreases |es|
  {
    es == []
    || (Admissible(store, s, es[0]) && !(es[0].StartEv? && s.pendingBuilds != [])
        && QuietRun(store, Step(s, es[0]), es[1..]))
  }

  // ---------------------------------------------------------------------------
  // Invariants

  /** Facts that hold in every reachable state. */
  predicate Invariant(s: SessionState) {
    && s.currentIndex >= 0
    && (s.pendingNav == Some(Retreat) ==> s.currentIndex > 0)
    && s.wordCountLimit in LimitChoices
    && (s.loading ==> s.pendingBuilds != [])
    && (s.category == None ==> s.pendingNav == None)
  }

  /** The index points into the deck (or is 0 for an empty deck), now and after a pending step forward. */
  predicate InRange(s: SessionState) {
    && (|s.deck| == 0 ==> s.currentIndex == 0)
    && (|s.deck| > 0 ==> 0 <= s.currentIndex < |s.deck|)
    && (s.pendingNav == Some(Advance) ==> s.currentIndex + 1 < |s.deck|)
  }

  /**
   * At most one build in flight, and the state agrees with it: while it is
   * pending the deck is empty at index 0 and loading; once it has landed the
   * deck is a shuffle of the build for the current category and limit.
   */
  predicate Settled(store: seq<QuranWord>, s: SessionState) {
    && Invariant(s)
    && InRange(s)
    && |s.pendingBuilds| <= 1
    && (|s.pendingBuilds| == 1 ==>
          && s.deck == [] && s.currentIndex == 0 && s.loading && s.pendingNav != Some(Advance)
          && (s.category.Some? ==>
                s.category.value == s.pendingBuilds[0].selection && s.pendingBuilds[0].limit == s.wordCountLimit))
    && (s.pendingBuilds == [] ==>
          && !s.loading
          && (s.category.Some? ==>
                multiset(s.deck) == multiset(BuildOrdered(store, s.category.value, s.wordCountLimit))))
  }

  lemma InitialSettled(store: seq<QuranWord>)
    ensures Settled(store, Initial())
  {
  }

  lemma StepKeepsInvariant(store: seq<QuranWord>, s: SessionState, e: Event)
    requires Invariant(s) && Admissible(store, s, e)
    ensures Invariant(Step(s, e))
  {
  }

  /** Every state reached by admissible events from a state satisfying `Invariant` satisfies it. */
  lemma {:induction false} RunKeepsInvariant(store: seq<QuranWord>, s: SessionState, es: seq<Event>)
    requires Invariant(s) && AdmissibleRun(store, s, es)
    ensures Invariant(Run(s, es))
    decreases |es|
  {
    if es != [] {
      StepKeepsInvariant(store, s, es[0]);
      RunKeepsInvariant(store, Step(s, es[0]), es[1..]);
    }
  }

  lemma StartKeepsSettled(store: seq<QuranWord>, s: SessionState, sel: Selection)
    requires Settled(store, s) && s.category == None && s.pendingBuilds == []
    ensures Settled(store, Start(s, sel))
  {
  }

  lemma FinishKeepsSettled(store: seq<QuranWord>, s: SessionState, built: seq<QuranWord>)
    requires Settled(store, s) && Admissible(store, s, BuildFires(built))
    ensures Settled(store, FinishBuild(s, built))
  {
    var t := FinishBuild(s, built);
    assert t.pendingBuilds == [] && t.currentIndex == 0 && t.deck == built;
    assert t.category.Some? ==> t.category.value == s.pendingBuilds[0].selection;
  }

  lemma NextKeepsSettled(store: seq<QuranWord>, s: SessionState)
    requires Settled(store, s) && Admissible(store, s, NextEv)
    ensures Settled(store, Next(s))
  {
  }

  lemma PrevKeepsSettled(store: seq<QuranWord>, s: SessionState)
    requires Settled(store, s) && Admissible(store, s, PrevEv)
    ensures Settled(store, Prev(s))
  {
  }

  lemma FireKeepsSettled(store: seq<QuranWord>, s: SessionState)
    requires Settled(store, s) && Admissible(store, s, NavFires)
    ensures Settled(store, FireNav(s))
  {
    var t := FireNav(s);
    assert t.deck == s.deck && t.pendingBuilds == s.pendingBuilds && t.pendingNav == None;
    assert t.category == s.category && t.loading == s.loading && t.wordCountLimit == s.wordCountLimit;
    match s.pendingNav.value {
      case Advance => assert t.currentIndex == s.currentIndex + 1;
      case Wrap => assert t.currentIndex == 0;
      case Retreat => assert t.currentIndex == s.currentIndex - 1;
    }
  }

  lemma ViewKeepsSettled(store: seq<QuranWord>, s: SessionState, e: Event)
    requires Settled(store, s) && Admissible(store, s, e)
    requires e.FlipEv? || e.BackEv? || e.LimitEv?
    ensures Settled(store, Step(s, e))
  {
  }

  /** Every admissible event keeps the state settled, except a start while a build is still pending. */
  lemma StepKeepsSettled(store: seq<QuranWord>, s: SessionState, e: Event)
    requires Settled(store, s) && Admissible(store, s, e)
    requires !(e.StartEv? && s.pendingBuilds != [])
    ensures Settled(store, Step(s, e))
  {
    match e
    case StartEv(sel) => StartKeepsSettled(store, s, sel);
    case BuildFires(built) => FinishKeepsSettled(store, s, built);
    case NextEv => NextKeepsSettled(store, s);
    case PrevEv => PrevKeepsSettled(store, s);
    case NavFires => FireKeepsSettled(store, s);
    case FlipEv => ViewKeepsSettled(store, s, e);
    case BackEv => ViewKeepsSettled(store, s, e);
    case LimitEv(_) => ViewKeepsSettled(store, s, e);
  }

  /** Along a run that never starts a session over a pending build, the index stays in range. */
  lemma {:induction false} QuietRunKeepsSettled(store: seq<QuranWord>, s: SessionState, es: seq<Event>)
    requires Settled(store, s) && QuietRun(store, s, es)
    ensures Settled(store, Run(s, es))
    decreases |es|
  {
    if es != [] {
      StepKeepsSettled(store, s, es[0]);
      QuietRunKeepsSettled(store, Step(s, es[0]), es[1..]);
    }
  }

  /** In a settled state a card is shown exactly when the deck is non-empty, and it is the one at the index. */
  lemma CurrentWordSettled(store: seq<QuranWord>, s: SessionState)
    requires Settled(store, s)
    ensures CurrentWord(s).Some? <==> |s.deck| > 0
    ensures |s.deck| > 0 ==> CurrentWord(s) == Some(s.deck[s.currentIndex])
  {
  }

  // ---------------------------------------------------------------------------
  // Overlapping builds

  lemma RunCons(store: seq<QuranWord>, s: SessionState, e: Event, es: seq<Event>)
    ensures Run(s, [e] + es) == Run(Step(s, e), es)
    ensures AdmissibleRun(store, s, [e] + es) <==> Admissible(store, s, e) && AdmissibleRun(store, Step(s, e), es)
  {
    assert ([e] + es)[0] == e && ([e] + es)[1..] == es;
  }

  /** Running two event sequences one after the other is running their concatenation. */
  lemma {:induction false} RunAppend(store: seq<QuranWord>, s: SessionState, a: seq<Event>, b: seq<Event>)
    ensures Run(s, a + b) == Run(Run(s, a), b)
    ensures AdmissibleRun(store, s, a + b) <==> AdmissibleRun(store, s, a) && AdmissibleRun(store, Run(s, a), b)
    decreases |a|
  {
    if a == [] {
      assert a + b == b;
    } else {
      RunAppend(store, Step(s, a[0]), a[1..], b);
      assert a + b == [a[0]] + (a[1..] + b);
      RunCons(store, s, a[0], a[1..] + b);
    }
  }

  /** An entry with only an id, a category and a rank. */
  function Entry(id: string, c: WordCategory, rank: int): QuranWord {
    QuranWord(id, "", "", "", c, None, Some(rank), None, None)
  }

  /** Sorting two entries that are already in key order leaves them in place. */
  lemma SortPair(a: QuranWord, b: QuranWord)
    requires RankKey(a) <= RankKey(b)
    ensures SortByRank([a, b]) == [a, b]
  {
    assert [a, b][1..] == [b] && [b][1..] == [];
    assert SortByRank([b]) == [b];
  }

  /** Store [n1, n2, v1] with two nouns in key order and one verb: the noun deck is [n1, n2]. */
  lemma ScenarioNouns(n1: QuranWord, n2: QuranWord, v1: QuranWord)
    requires n1.category == Noun && n2.category == Noun && v1.category == Verb && RankKey(n1) <= RankKey(n2)
    ensures BuildOrdered([n1, n2, v1], Only(Noun), DefaultLimit) == [n1, n2]
  {
    FilterNouns(n1, n2, v1);
    SortPair(n1, n2);
    TopNWhole([n1, n2, v1], Noun, DefaultLimit, [n1, n2]);
  }

  lemma FilterNouns(n1: QuranWord, n2: QuranWord, v1: QuranWord)
    requires n1.category == Noun && n2.category == Noun && v1.category == Verb
    ensures OfCategory([n1, n2, v1], Noun) == [n1, n2]
  {
    assert [n1, n2, v1][1..] == [n2, v1];
    assert [n2, v1][1..] == [v1];
    assert [v1][1..] == [];
    assert OfCategory([v1], Noun) == [];
    assert OfCategory([n2, v1], Noun) == [n2];
  }

  /** For the same store the verb deck is [v1]. */
  lemma ScenarioVerbs(n1: QuranWord, n2: QuranWord, v1: QuranWord)
    requires n1.category == Noun && n2.category == Noun && v1.category == Verb
    ensures BuildOrdered([n1, n2, v1], Only(Verb), DefaultLimit) == [v1]
  {
    FilterVerbs(n1, n2, v1);
    SortSingle(v1);
    TopNWhole([n1, n2, v1], Verb, DefaultLimit, [v1]);
  }

  lemma FilterVerbs(n1: QuranWord, n2: QuranWord, v1: QuranWord)
    requires n1.category == Noun && n2.category == Noun && v1.category == Verb
    ensures OfCategory([n1, n2, v1], Verb) == [v1]
  {
    assert [n1, n2, v1][1..] == [n2, v1];
    assert [n2, v1][1..] == [v1];
    assert [v1][1..] == [];
    assert OfCategory([v1], Verb) == [v1];
    assert OfCategory([n2, v1], Verb) == [v1];
  }

  lemma SortSingle(w: QuranWord)
    ensures SortByRank([w]) == [w]
  {
    assert [w][1..] == [];
    assert SortByRank([w][1..]) == [];
  }

  /** When the filtered entries are already in key order and within the limit, the slice is all of them. */
  lemma TopNWhole(store: seq<QuranWord>, c: WordCategory, limit: nat, s: seq<QuranWord>)
    requires OfCategory(store, c) == s && SortByRank(s) == s && |s| <= limit
    ensures TopN(store, c, limit) == s
  {
  }

  /** A run of three events, step by step. */
  lemma RunThree(store: seq<QuranWord>, s: SessionState, a: Event, b: Event, c: Event)
    ensures Run(s, [a, b, c]) == Step(Step(Step(s, a), b), c)
    ensures AdmissibleRun(store, s, [a, b, c]) <==>
      Admissible(store, s, a) && Admissible(store, Step(s, a), b) && Admissible(store, Step(Step(s, a), b), c)
  {
    assert [a, b, c] == [a] + [b, c] && [b, c] == [b] + [c] && [c] == [c] + [];
    RunCons(store, s, a, [b, c]);
    RunCons(store, Step(s, a), b, [c]);
    RunCons(store, Step(Step(s, a), b), c, []);
  }

  /** A run of four events, step by step. */
  lemma RunFour(store: seq<QuranWord>, s: SessionState, a: Event, b: Event, c: Event, d: Event)
    ensures Run(s, [a, b, c, d]) == Run(Step(s, a), [b, c, d])
    ensures AdmissibleRun(store, s, [a, b, c, d]) <==>
      Admissible(store, s, a) && AdmissibleRun(store, Step(s, a), [b, c, d])
  {
    assert [a, b, c, d] == [a] + [b, c, d];
    RunCons(store, s, a, [b, c, d]);
  }

  /** Start nouns, go back, start verbs: the noun build is the first to land, under the verb session. */
  lemma StaleBuildBefore(store: seq<QuranWord>, n1: QuranWord, n2: QuranWord)
    requires BuildOrdered(store, Only(Noun), DefaultLimit) == [n1, n2]
    ensures
      var before := [StartEv(Only(Noun)), BackEv, StartEv(Only(Verb)), BuildFires([n1, n2])];
      && AdmissibleRun(store, Initial(), before)
      && Run(Initial(), before) == Initial().(
           category := Some(Only(Verb)), deck := [n1, n2], loading := false,
           pendingBuilds := [BuildRequest(Only(Verb), DefaultLimit)])
  {
    var s1 := Start(Initial(), Only(Noun));
    TwoStarts(store);
    var s3 := Initial().(category := Some(Only(Verb)), loading := true,
                         pendingBuilds := [BuildRequest(Only(Noun), DefaultLimit), BuildRequest(Only(Verb), DefaultLimit)]);
    assert Admissible(store, s3, BuildFires([n1, n2]));
    RunFour(store, Initial(), StartEv(Only(Noun)), BackEv, StartEv(Only(Verb)), BuildFires([n1, n2]));
    RunThree(store, s1, BackEv, StartEv(Only(Verb)), BuildFires([n1, n2]));
  }

  /** Start nouns, go back, start verbs: both builds are pending, oldest first. */
  lemma TwoStarts(store: seq<QuranWord>)
    ensures Admissible(store, Initial(), StartEv(Only(Noun)))
    ensures Step(Initial(), StartEv(Only(Noun))) == Start(Initial(), Only(Noun))
    ensures Admissible(store, Start(Initial(), Only(Noun)), BackEv)
    ensures Admissible(store, Back(Start(Initial(), Only(Noun))), StartEv(Only(Verb)))
    ensures Step(Step(Start(Initial(), Only(Noun)), BackEv), StartEv(Only(Verb))) ==
      Initial().(category := Some(Only(Verb)), loading := true,
                 pendingBuilds := [BuildRequest(Only(Noun), DefaultLimit), BuildRequest(Only(Verb), DefaultLimit)])
  {
    assert Start(Initial(), Only(Noun)).pendingBuilds == [BuildRequest(Only(Noun), DefaultLimit)];
  }

  /** From there, Next on the two-card noun deck is applied after the one-card verb deck has landed. */
  lemma StaleBuildAfter(store: seq<QuranWord>, n1: QuranWord, n2: QuranWord, v1: QuranWord, s4: SessionState)
    requires BuildOrdered(store, Only(Verb), DefaultLimit) == [v1]
    requires s4 == Initial().(category := Some(Only(Verb)), deck := [n1, n2], loading := false,
                              pendingBuilds := [BuildRequest(Only(Verb), DefaultLimit)])
    ensures
      var after := [NextEv, BuildFires([v1]), NavFires];
      && AdmissibleRun(store, s4, after)
      && Run(s4, after).deck == [v1]
      && Run(s4, after).currentIndex == 1
  {
    var s5 := Next(s4);
    var s6 := FinishBuild(s5, [v1]);
    assert s5.pendingNav == Some(Advance) && s5.pendingBuilds == s4.pendingBuilds;
    assert Admissible(store, s5, BuildFires([v1]));
    assert FireNav(s6).currentIndex == 1 && FireNav(s6).deck == [v1];
    RunThree(store, s4, NextEv, BuildFires([v1]), NavFires);
  }

  /**
   * The loading timer is never cancelled. Start nouns, go back, start verbs
   * within the loading delay: the noun build lands while the verb session is
   * shown (`before`); a Next pressed then is applied after the verb build has
   * landed, and the index leaves the one-card verb deck, so no card is shown.
   */
  lemma StaleBuildLands()
    ensures
      var n1, n2, v1 := Entry("n1", Noun, 1), Entry("n2", Noun, 2), Entry("v1", Verb, 1);
      var store := [n1, n2, v1];
      var before := [StartEv(Only(Noun)), BackEv, StartEv(Only(Verb)), BuildFires([n1, n2])];
      var after := [NextEv, BuildFires([v1]), NavFires];
      && AdmissibleRun(store, Initial(), before + after)
      && Run(Initial(), before).category == Some(Only(Verb))
      && Run(Initial(), before).deck == [n1, n2]
      && Run(Initial(), before + after).deck == [v1]
      && Run(Initial(), before + after).currentIndex == 1
      && CurrentWord(Run(Initial(), before + after)) == None
  {
    var n1, n2, v1 := Entry("n1", Noun, 1), Entry("n2", Noun, 2), Entry("v1", Verb, 1);
    var before := [StartEv(Only(Noun)), BackEv, StartEv(Only(Verb)), BuildFires([n1, n2])];
    var after := [NextEv, BuildFires([v1]), NavFires];
    ScenarioNouns(n1, n2, v1);
    ScenarioVerbs(n1, n2, v1);
    StaleBuildBefore([n1, n2, v1], n1, n2);
    StaleBuildAfter([n1, n2, v1], n1, n2, v1, Run(Initial(), before));
    RunAppend([n1, n2, v1], Initial(), before, after);
  }

  /**
   * `startSession` as evidently intended: the loading timer is cancelled like
   * the navigation timer, so a new start replaces the pending build.
   */
  function StartReplacing(s: SessionState, sel: Selection): SessionState {
    Start(s, sel).(pendingBuilds := [BuildRequest(sel, s.wordCountLimit)])
  }

  function CorrectedStep(s: SessionState, e: Event): SessionState {
    if e.StartEv? then StartReplacing(s, e.selection) else Step(s, e)
  }

  function CorrectedRun(s: SessionState, es: seq<Event>): SessionState
    decreases |es|
  {
    if es == [] then s else CorrectedRun(CorrectedStep(s, es[0]), es[1..])
  }

  predicate CorrectedAdmissibleRun(store: seq<QuranWord>, s: SessionState, es: seq<Event>)
    decreases |es|
  {
    es == [] || (Admissible(store, s, es[0]) && CorrectedAdmissibleRun(store, CorrectedStep(s, es[0]), es[1..]))
  }

  lemma StartReplacingKeepsSettled(store: seq<QuranWord>, s: SessionState, sel: Selection)
    requires Settled(store, s) && s.category == None
    ensures Settled(store, StartReplacing(s, sel))
  {
  }

  /** With the corrected start, every admissible run keeps the index in range and the deck current. */
  lemma {:induction false} CorrectedRunKeepsSettled(store: seq<QuranWord>, s: SessionState, es: seq<Event>)
    requires Settled(store, s) && CorrectedAdmissibleRun(store, s, es)
    ensures Settled(store, CorrectedRun(s, es))
    decreases |es|
  {
    if es != [] {
      if es[0].StartEv? {
        StartReplacingKeepsSettled(store, s, es[0].selection);
      } else {
        StepKeepsSettled(store, s, es[0]);
      }
      CorrectedRunKeepsSettled(store, CorrectedStep(s, es[0]), es[1..]);
    }
  }

  // ---------------------------------------------------------------------------
  // Navigation

  /** Pressing Next and letting its timer fire, `k` times. */
  function NextTimes(s: SessionState, k: nat): SessionState
    decreases k
  {
    if k == 0 then s else NextTimes(FireNav(Next(s)), k - 1)
  }

  /** Pressing Prev and letting its timer fire, `k` times. */
  function PrevTimes(s: SessionState, k: nat): SessionState
    decreases k
  {
    if k == 0 then s else PrevTimes(FireNav(Prev(s)), k - 1)
  }

  /** Next is circular: after `k` steps the index is `(i + k) mod n`, and the deck is unchanged. */
  lemma {:induction false} NextCycles(s: SessionState, k: nat)
    requires |s.deck| > 0 && 0 <= s.currentIndex < |s.deck|
    ensures NextTimes(s, k).deck == s.deck
    ensures NextTimes(s, k).currentIndex == (s.currentIndex + k) % |s.deck|
    ensures k > 0 ==> !NextTimes(s, k).flipped && NextTimes(s, k).pendingNav == None
    decreases k
  {
    if k > 0 {
      var n, i := |s.deck|, s.currentIndex;
      var t := FireNav(Next(s));
      NextOnce(s);
      assert t.deck == s.deck && 0 <= t.currentIndex < n;
      NextCycles(t, k - 1);
      ModAddOne(i, k - 1, n);
      assert NextTimes(s, k) == NextTimes(t, k - 1);
      assert NextTimes(s, k).currentIndex == ((i + 1) % n + (k - 1)) % n;
    }
  }

  /** On an empty deck the wrap target is the first card, so Next with its timer leaves the index at 0. */
  lemma NextOnEmpty(s: SessionState)
    requires |s.deck| == 0 && s.currentIndex >= 0
    ensures FireNav(Next(s)).currentIndex == 0 && FireNav(Next(s)).deck == s.deck
  {
  }

  /** One press of Next, its timer firing: the index moves to `(i + 1) mod n`. */
  lemma NextOnce(s: SessionState)
    requires |s.deck| > 0 && 0 <= s.currentIndex < |s.deck|
    ensures FireNav(Next(s)).deck == s.deck
    ensures FireNav(Next(s)).currentIndex == (s.currentIndex + 1) % |s.deck|
    ensures FireNav(Next(s)).currentIndex == if s.currentIndex < |s.deck| - 1 then s.currentIndex + 1 else 0
    ensures !FireNav(Next(s)).flipped && FireNav(Next(s)).pendingNav == None
  {
    var n := |s.deck|;
    if s.currentIndex < n - 1 {
      ModUnique(s.currentIndex + 1, n, 0, s.currentIndex + 1);
    } else {
      ModUnique(s.currentIndex + 1, n, 1, 0);
    }
  }

  lemma ModAddOne(i: int, k: nat, n: nat)
    requires 0 <= i < n
    ensures ((i + 1) % n + k) % n == (i + k + 1) % n
  {
    if i + 1 == n {
      ModUnique(i + 1, n, 1, 0);
      ModShift(k, n);
    } else {
      ModUnique(i + 1, n, 0, i + 1);
    }
  }

  lemma ModShift(k: nat, n: nat)
    requires n > 0
    ensures (k + n) % n == k % n
  {
    var q, r := k / n, k % n;
    assert k == q * n + r;
    ModUnique(k + n, n, q + 1, r);
  }

  /** Euclidean remainder is determined by any quotient-remainder split. */
  lemma ModUnique(x: int, n: int, q: int, r: int)
    requires n > 0 && 0 <= r < n && x == q * n + r
    ensures x % n == r
  {
    var d, m := x / n, x % n;
    assert x == d * n + m;
    assert (q - d) * n == m - r;
    SmallMultiple(q - d, n, m - r);
  }

  /** The only multiple of `n` strictly between `-n` and `n` is 0. */
  lemma SmallMultiple(e: int, n: int, v: int)
    requires n > 0 && e * n == v && -n < v < n
    ensures e == 0
  {
    if e >= 1 {
      MultipleAtLeast(e, n);
      assert false;
    } else if e <= -1 {
      MultipleAtLeast(-e, n);
      assert false;
    }
  }

  lemma {:induction false} MultipleAtLeast(e: int, n: int)
    requires e >= 1 && n > 0
    ensures e * n >= n
    decreases e
  {
    if e > 1 {
      MultipleAtLeast(e - 1, n);
      assert e * n == (e - 1) * n + n;
    }
  }

  /** Prev clamps: after `k` steps the index is `max(i - k, 0)`; at the first card it changes nothing. */
  lemma {:induction false} PrevClamps(s: SessionState, k: nat)
    requires s.currentIndex >= 0 && s.pendingNav == None
    ensures PrevTimes(s, k).deck == s.deck
    ensures PrevTimes(s, k).currentIndex == if s.currentIndex >= k then s.currentIndex - k else 0
    ensures s.currentIndex == 0 ==> PrevTimes(s, k) == s
    decreases k
  {
    if k > 0 {
      PrevClamps(FireNav(Prev(s)), k - 1);
    }
  }

  // ---------------------------------------------------------------------------
  // The session object

  /** The app component's state, updated in place by its handlers and timers. */
  class Session {
    const store: seq<QuranWord>
    var category: Option<Selection>
    var deck: seq<QuranWord>
    var currentIndex: int
    var flipped: bool
    var loading: bool
    var wordCountLimit: nat
    var flipTimeout: Option<NavStep>
    var buildTimeouts: seq<BuildRequest>

    function State(): SessionState
      reads this
    {
      SessionState(category, deck, currentIndex, flipped, loading, wordCountLimit, flipTimeout, buildTimeouts)
    }

    constructor(store: seq<QuranWord>)
      ensures this.store == store && State() == Initial()
    {
      this.store := store;
      category := None;
      deck := [];
      currentIndex := 0;
      flipped := false;
      loading := false;
      wordCountLimit := DefaultLimit;
      flipTimeout := None;
      buildTimeouts := [];
    }

    method StartSession(sel: Selection)
      modifies this
      ensures State() == Start(old(State()), sel)
    {
      flipTimeout := None;
      category := Some(sel);
      loading := true;
      currentIndex := 0;
      flipped := false;
      deck := [];
      buildTimeouts := buildTimeouts + [BuildRequest(sel, wordCountLimit)];
    }

    /** The oldest loading timer fires; `coins` stands for the random source of the shuffle. */
    method BuildTimerFires(coins: seq<bool>)
      requires buildTimeouts != []
      modifies this
      ensures multiset(deck) == multiset(BuildOrdered(store, old(buildTimeouts)[0].selection, old(buildTimeouts)[0].limit))
      ensures State() == FinishBuild(old(State()), deck)
    {
      ghost var before := State();
      var request := buildTimeouts[0];
      var finalDeck := BuildDeck(store, request.selection, request.limit, coins);
      deck := finalDeck;
      loading := false;
      buildTimeouts := buildTimeouts[1..];
      assert before.pendingBuilds[0] == request;
      assert State() == before.(deck := finalDeck, loading := false, pendingBuilds := before.pendingBuilds[1..]);
    }

    method HandleNext()
      modifies this
      ensures State() == Next(old(State()))
    {
      flipped := false;
      if currentIndex < |deck| - 1 {
        flipTimeout := Some(Advance);
      } else {
        flipTimeout := Some(Wrap);
      }
    }

    method HandlePrev()
      modifies this
      ensures State() == Prev(old(State()))
    {
      if currentIndex > 0 {
        flipped := false;
        flipTimeout := Some(Retreat);
      }
    }

    method NavTimerFires()
      requires flipTimeout != None
      modifies this
      ensures State() == FireNav(old(State()))
    {
      match flipTimeout.value {
        case Advance => currentIndex := currentIndex + 1;
        case Wrap => currentIndex := 0;
        case Retreat => currentIndex := currentIndex - 1;
      }
      flipTimeout := None;
    }

    method ToggleFlip()
      modifies this
      ensures State() == Flip(old(State()))
    {
      flipped := !flipped;
    }

    method GoBack()
      modifies this
      ensures State() == Back(old(State()))
    {
      category := None;
      flipTimeout := None;
    }

    method SetWordCountLimit(n: nat)
      modifies this
      ensures State() == ChooseLimit(old(State()), n)
    {
      wordCountLimit := n;
    }
  }
}
