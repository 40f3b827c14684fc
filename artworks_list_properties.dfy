/** What the controller's handlers promise, one at a time and over any sequence of them. */
module ArtworksListProperties {
  import opened Wrappers
  import opened ArtworksQuery
  import opened ArtworksList

  /** A new controller queries page 1 of the unfiltered list with the fixed page size. */
  lemma InitialQuery()
    ensures Variables(Init()) == QueryVariables(20, 1, None)
  {
  }

  /** Committing a search goes to page 1 whatever the page was, and leaves the input text alone. */
  lemma CommitResetsPage(s: Snapshot)
    ensures Apply(s, CommitSearch).page == 1
    ensures Apply(s, CommitSearch).input == s.input
    ensures s.input == "" ==> Apply(s, CommitSearch).term == None
    ensures s.input != "" ==> Apply(s, CommitSearch).term == Some(s.input)
  {
  }

  /** Whitespace is not empty: a blank input commits as a term of its own. */
  lemma BlankInputIsCommitted(s: Snapshot)
    requires s.input == "  "
    ensures Apply(s, CommitSearch).term == Some("  ")
  {
  }

  /** Committing "david bowie" from page 3 queries page 1 with that term. */
  lemma NewSearchFromPageThree(s: Snapshot)
    requires s.page == 3
    ensures Variables(Apply(Apply(s, SetInput("david bowie")), CommitSearch))
            == QueryVariables(20, 1, Some("david bowie"))
  {
  }

  /** Next goes to `previousPage + 2` whatever the current page; twice against one result is once. */
  lemma NextIgnoresPage(s: Snapshot, t: Snapshot, data: Option<QueryData>)
    requires s.input == t.input && s.term == t.term
    ensures Apply(s, Next(data)).page == DerivePrevious(data) + 2
    ensures Apply(s, Next(data)) == Apply(t, Next(data))
    ensures Apply(Apply(s, Next(data)), Next(data)) == Apply(s, Next(data))
  {
  }

  /** With no cursor reported yet, Next goes to page 2. */
  lemma NextFromFirstResult(s: Snapshot, data: Option<QueryData>)
    requires PreviousCursor(data).None?
    ensures Apply(s, Next(data)).page == 2
  {
  }

  /** Next then Prev against the same result ends on the reported previous page, not the one in between. */
  lemma NextThenPrev(s: Snapshot, data: Option<QueryData>)
    ensures Apply(Apply(s, Next(data)), Prev(data)).page == DerivePrevious(data)
    ensures Apply(Apply(s, Next(data)), Prev(data)) == Apply(s, Prev(data))
  {
  }

  /** Prev with `previousPage == 0` (no cursor, or a cursor of 0) sets page 0: the page is not clamped. */
  lemma PrevCanReachPageZero(s: Snapshot, data: Option<QueryData>)
    requires PreviousCursor(data) in {None, Some(0)}
    ensures Apply(s, Prev(data)).page == 0
  {
  }

  /** Paging changes the page only: input text and committed term are kept. */
  lemma PagingKeepsSearch(s: Snapshot, data: Option<QueryData>)
    ensures Apply(s, Next(data)).input == s.input && Apply(s, Next(data)).term == s.term
    ensures Apply(s, Prev(data)).input == s.input && Apply(s, Prev(data)).term == s.term
  {
  }

  /** Typing changes the input text only, so the query is unchanged. */
  lemma SetInputKeepsQuery(s: Snapshot, text: string)
    ensures Apply(s, SetInput(text)).input == text
    ensures Variables(Apply(s, SetInput(text))) == Variables(s)
  {
  }

  /** The paging handlers read the result only through its derived `previousPage`. */
  lemma PagingReadsOnlyPrevious(s: Snapshot, d1: Option<QueryData>, d2: Option<QueryData>)
    requires DerivePrevious(d1) == DerivePrevious(d2)
    ensures Apply(s, Next(d1)) == Apply(s, Next(d2))
    ensures Apply(s, Prev(d1)) == Apply(s, Prev(d2))
  {
  }

  /** Running two sequences of handlers one after the other. */
  lemma {:induction false} RunAppend(s: Snapshot, a: seq<Event>, b: seq<Event>)
    ensures Run(s, a + b) == Run(Run(s, a), b)
    decreases |a|
  {
    if a == [] {
      assert a + b == b;
    } else {
      assert (a + b)[0] == a[0];
      assert (a + b)[1..] == a[1..] + b;
      RunAppend(Apply(s, a[0]), a[1..], b);
    }
  }

  /** The last handler of a sequence acts on the state the ones before it left. */
  lemma RunLast(s: Snapshot, es: seq<Event>)
    requires es != []
    ensures Run(s, es) == Apply(Run(s, es[..|es| - 1]), es[|es| - 1])
  {
    var front := es[..|es| - 1];
    assert es == front + [es[|es| - 1]];
    RunAppend(s, front, [es[|es| - 1]]);
  }

  /** Any amount of typing leaves the query untouched; the input ends as the last text typed. */
  lemma {:induction false} TypingKeepsQuery(s: Snapshot, es: seq<Event>)
    requires forall i :: 0 <= i < |es| ==> es[i].SetInput?
    ensures Variables(Run(s, es)) == Variables(s)
    ensures es != [] ==> Run(s, es).input == es[|es| - 1].text
    decreases |es|
  {
    if es != [] {
      assert forall i :: 0 <= i < |es[1..]| ==> es[1..][i] == es[i + 1];
      TypingKeepsQuery(Apply(s, es[0]), es[1..]);
    }
  }

  /** Without a commit, the committed term never changes, however the user types or pages. */
  lemma {:induction false} NoCommitKeepsTerm(s: Snapshot, es: seq<Event>)
    requires forall i :: 0 <= i < |es| ==> !es[i].CommitSearch?
    ensures Run(s, es).term == s.term
    decreases |es|
  {
    if es != [] {
      assert forall i :: 0 <= i < |es[1..]| ==> es[1..][i] == es[i + 1];
      NoCommitKeepsTerm(Apply(s, es[0]), es[1..]);
    }
  }

  /** Paging alone never touches the search state. */
  lemma {:induction false} PagingOnlyKeepsSearch(s: Snapshot, es: seq<Event>)
    requires forall i :: 0 <= i < |es| ==> es[i].Next? || es[i].Prev?
    ensures Run(s, es).input == s.input && Run(s, es).term == s.term
    decreases |es|
  {
    if es != [] {
      assert forall i :: 0 <= i < |es[1..]| ==> es[1..][i] == es[i + 1];
      PagingOnlyKeepsSearch(Apply(s, es[0]), es[1..]);
    }
  }

  /** The empty string is never committed as a term: it always becomes "no term". */
  lemma {:induction false} NeverCommitsEmptyTerm(s: Snapshot, es: seq<Event>)
    requires s.term != Some("")
    ensures Run(s, es).term != Some("")
    decreases |es|
  {
    if es != [] {
      NeverCommitsEmptyTerm(Apply(s, es[0]), es[1..]);
    }
  }

  /** A trace that ends with a commit always queries page 1 with the committed input. */
  lemma {:induction false} LastCommitDecidesQuery(s: Snapshot, es: seq<Event>)
    requires es != [] && es[|es| - 1].CommitSearch?
    ensures Run(s, es).page == 1
    ensures Run(s, es).term == CommittedTerm(Run(s, es[..|es| - 1]).input)
  {
    var front := es[..|es| - 1];
    assert es == front + [CommitSearch];
    RunAppend(s, front, [CommitSearch]);
  }

  /** A handler whose result cannot take a page below 1, whatever page it starts from. */
  predicate KeepsPagePositive(e: Event)
  {
    match e
    case Next(data) => DerivePrevious(data) >= -1
    case Prev(data) => DerivePrevious(data) >= 1
    case _ => true
  }

  /**
   * One handler keeps `page >= 1` from every state with `page >= 1` exactly when
   * `KeepsPagePositive` holds of it; in particular Prev with `previousPage == 0` does not.
   */
  lemma StepPagePositive(e: Event)
    ensures (forall s: Snapshot :: s.page >= 1 ==> Apply(s, e).page >= 1) <==> KeepsPagePositive(e)
  {
    if !KeepsPagePositive(e) {
      var start := Snapshot(1, "", None);
      assert Apply(start, e).page < 1;
    }
  }

  /** The page stays at least 1 over any trace whose paging handlers all read a safe cursor. */
  lemma {:induction false} PagePositive(s: Snapshot, es: seq<Event>)
    requires s.page >= 1
    requires forall i :: 0 <= i < |es| ==> KeepsPagePositive(es[i])
    ensures Run(s, es).page >= 1
    decreases |es|
  {
    if es != [] {
      assert forall i :: 0 <= i < |es[1..]| ==> es[1..][i] == es[i + 1];
      PagePositive(Apply(s, es[0]), es[1..]);
    }
  }

  /** From a new controller, one Prev before any cursor is reported already queries page 0. */
  lemma PrevFromStartQueriesPageZero()
    ensures Variables(Run(Init(), [Prev(None)])).page == 0
  {
  }

  /** A one-result scenario: total 10, cursor 0, two items are derived as reported. */
  lemma CompleteResultScenario(a: Edge, b: Edge)
    ensures DeriveTotal(Some(Complete(10, 0, [a, b]))) == 10
    ensures DerivePrevious(Some(Complete(10, 0, [a, b]))) == 0
    ensures DeriveItems(Some(Complete(10, 0, [a, b]))) == [a, b]
  {
  }
}
