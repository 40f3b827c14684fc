/**
 * The pagination and search controller of the artworks list.
 *
 * Its state is three cells: the page to query, the uncommitted text of the search
 * input, and the committed search term (unset until a search is committed). The
 * query variables are built from the page and the committed term; the handlers
 * read the current query result only through its derived `previousPage`.
 *
 * `Snapshot`, `Apply` and `Run` describe the controller as a state machine over
 * values; the class `ListController` is the controller itself, whose handlers
 * overwrite its fields and are specified by `Apply`.
 */
module ArtworksList {
  import opened Wrappers
  import opened ArtworksQuery

  /** The fixed page size of every query. */
  const PAGE_SIZE: int := 20

  /** The variables of the list query. */
  datatype QueryVariables = QueryVariables(pageSize: int, page: int, term: Option<string>)

  /** The controller's three state cells. */
  datatype Snapshot = Snapshot(page: int, input: string, term: Option<string>)

  /** A handler invocation; the paging handlers see the query result current at that moment. */
  datatype Event =
    | CommitSearch
    | Next(data: Option<QueryData>)
    | Prev(data: Option<QueryData>)
    | SetInput(text: string)

  /** What the list view receives from the controller. */
  datatype ListView = ListView(artworks: seq<Edge>, loading: bool, previousPage: int,
                               searchInputValue: string, total: int)

  /** The state of a freshly created controller. */
  function Init(): (s: Snapshot)
    ensures s.page == 1 && s.input == "" && s.term.None?
  {
    Snapshot(1, "", None)
  }

  /**
   * `searchInputValue || undefined`: the empty string, and only the empty string,
   * commits as "no term"; any other text, whitespace included, commits as it is.
   */
  function CommittedTerm(text: string): (t: Option<string>)
    ensures t.None? <==> text == ""
    ensures t.Some? ==> t.value == text
  {
    if text == "" then None else Some(text)
  }

  /** The query variables of a state: always the fixed page size, with the state's page and term. */
  function Variables(s: Snapshot): (v: QueryVariables)
    ensures v.pageSize == PAGE_SIZE
    ensures v.page == s.page && v.term == s.term
  {
    QueryVariables(PAGE_SIZE, s.page, s.term)
  }

  /**
   * The effect of one handler invocation: commit sets the term and page 1, Next and
   * Prev set the page from the result's `previousPage`, SetInput sets the input;
   * every other cell is kept.
   */
  function Apply(s: Snapshot, e: Event): (r: Snapshot)
    ensures e.CommitSearch? ==> r.page == 1 && r.term == CommittedTerm(s.input) && r.input == s.input
    ensures e.Next? ==> r.page == DerivePrevious(e.data) + 2 && r.input == s.input && r.term == s.term
    ensures e.Prev? ==> r.page == DerivePrevious(e.data) && r.input == s.input && r.term == s.term
    ensures e.SetInput? ==> r.input == e.text && r.page == s.page && r.term == s.term
  {
    match e
    case CommitSearch => s.(term := CommittedTerm(s.input), page := 1)
    case Next(data) => s.(page := DerivePrevious(data) + 2)
    case Prev(data) => s.(page := DerivePrevious(data))
    case SetInput(text) => s.(input := text)
  }

  /**
   * The effect of a sequence of handler invocations, first to last: no handler
   * changes nothing, one handler is `Apply` (see `RunAppend` and `RunLast` for longer ones).
   */
  function Run(s: Snapshot, es: seq<Event>): (r: Snapshot)
    ensures es == [] ==> r == s
    ensures |es| == 1 ==> r == Apply(s, es[0])
    decreases |es|
  {
    if es == [] then s else Run(Apply(s, es[0]), es[1..])
  }

  class ListController {
    var page: int
    var searchInputValue: string
    var searchTerm: Option<string>

    /** The controller's state cells as a value. */
    function State(): Snapshot
      reads this
    {
      Snapshot(page, searchInputValue, searchTerm)
    }

    /** A new controller: page 1, empty input, no committed term. */
    constructor ()
      ensures page == 1 && searchInputValue == "" && searchTerm.None?
      ensures State() == Init()
    {
      page := 1;
      searchInputValue := "";
      searchTerm := None;
    }

    /** The variables the controller queries with. */
    function QueryVars(): (v: QueryVariables)
      reads this
      ensures v.pageSize == PAGE_SIZE && v.page == page && v.term == searchTerm
    {
      Variables(State())
    }

    /** The fields the controller hands to the list view, for the current result and loading flag. */
    function View(data: Option<QueryData>, loading: bool): (v: ListView)
      reads this
      ensures v.artworks == DeriveItems(data) && v.previousPage == DerivePrevious(data)
      ensures v.total == DeriveTotal(data)
      ensures v.loading == loading && v.searchInputValue == searchInputValue
    {
      ListView(DeriveItems(data), loading, DerivePrevious(data), searchInputValue, DeriveTotal(data))
    }

    /** `handleNewTerm`: commit the input as the search term and go back to page 1. */
    method CommitSearch()
      modifies this
      ensures searchTerm == CommittedTerm(old(searchInputValue)) && page == 1
      ensures searchInputValue == old(searchInputValue)
      ensures State() == Apply(old(State()), Event.CommitSearch)
    {
      var term := CommittedTerm(searchInputValue);
      searchTerm := term;
      page := 1;
    }

    /** `handleNext`: go to the page two past the reported previous page. */
    method Next(data: Option<QueryData>)
      modifies this
      ensures page == DerivePrevious(data) + 2
      ensures searchInputValue == old(searchInputValue) && searchTerm == old(searchTerm)
      ensures State() == Apply(old(State()), Event.Next(data))
    {
      var nextPage := DerivePrevious(data) + 2;
      page := nextPage;
    }

    /** `handlePrev`: go to the reported previous page, 0 included. */
    method Prev(data: Option<QueryData>)
      modifies this
      ensures page == DerivePrevious(data)
      ensures searchInputValue == old(searchInputValue) && searchTerm == old(searchTerm)
      ensures State() == Apply(old(State()), Event.Prev(data))
    {
      page := DerivePrevious(data);
    }

    /** `setSearchInputValue`: change the uncommitted text only. */
    method SetInput(text: string)
      modifies this
      ensures searchInputValue == text
      ensures page == old(page) && searchTerm == old(searchTerm)
      ensures QueryVars() == old(QueryVars())
      ensures State() == Apply(old(State()), Event.SetInput(text))
    {
      searchInputValue := text;
    }
  }
}
