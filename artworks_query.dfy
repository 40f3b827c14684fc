/**
 * The query result the list controller reads, and the three fields it derives from it.
 *
 * The result has the shape
 *   data.filter_artworks.{counts.total, filtered_artworks.{edges, pageCursors.previous.page}}
 * where every link that the controller reads with optional chaining (`?.`) is an `Option`.
 * `counts` is read without optional chaining, so it is a plain field: whenever
 * `filter_artworks` is present, so is `counts`.
 */
module ArtworksQuery {
  import opened Wrappers

  /** One list item, which the controller passes through without reading it. */
  datatype Edge = Edge(id: string, href: string, title: string, imageUrl: string)

  datatype Previous = Previous(page: Option<int>)
  datatype PageCursors = PageCursors(previous: Option<Previous>)
  datatype FilteredArtworks = FilteredArtworks(edges: Option<seq<Edge>>, pageCursors: Option<PageCursors>)
  datatype Counts = Counts(total: Option<int>)
  datatype FilterArtworks = FilterArtworks(filteredArtworks: Option<FilteredArtworks>, counts: Counts)
  datatype QueryData = QueryData(filterArtworks: Option<FilterArtworks>)

  /** `data?.filter_artworks?.filtered_artworks`: the filtered-artworks node, when every link is present. */
  function Filtered(data: Option<QueryData>): (r: Option<FilteredArtworks>)
    ensures r.Some? <==> data.Some? && data.value.filterArtworks.Some?
                         && data.value.filterArtworks.value.filteredArtworks.Some?
    ensures r.Some? ==> r.value == data.value.filterArtworks.value.filteredArtworks.value
  {
    match data
    case None => None
    case Some(d) =>
      match d.filterArtworks
      case None => None
      case Some(fa) => fa.filteredArtworks
  }

  /** `...?.pageCursors?.previous?.page`: the reported previous-page cursor, when every link is present. */
  function PreviousCursor(data: Option<QueryData>): (r: Option<int>)
    ensures r.Some? <==> Filtered(data).Some? && Filtered(data).value.pageCursors.Some?
                         && Filtered(data).value.pageCursors.value.previous.Some?
                         && Filtered(data).value.pageCursors.value.previous.value.page.Some?
    ensures r.Some? ==> r == Filtered(data).value.pageCursors.value.previous.value.page
  {
    match Filtered(data)
    case None => None
    case Some(f) =>
      match f.pageCursors
      case None => None
      case Some(pc) =>
        match pc.previous
        case None => None
        case Some(p) => p.page
  }

  /** `...?.filtered_artworks?.edges`: the reported items, when every link is present. */
  function ReportedEdges(data: Option<QueryData>): (r: Option<seq<Edge>>)
    ensures r.Some? <==> Filtered(data).Some? && Filtered(data).value.edges.Some?
    ensures r.Some? ==> r == Filtered(data).value.edges
  {
    match Filtered(data)
    case None => None
    case Some(f) => f.edges
  }

  /** `data?.filter_artworks?.counts.total`: the reported total, when every link is present. */
  function ReportedTotal(data: Option<QueryData>): (r: Option<int>)
    ensures r.Some? <==> data.Some? && data.value.filterArtworks.Some?
                         && data.value.filterArtworks.value.counts.total.Some?
    ensures r.Some? ==> r == data.value.filterArtworks.value.counts.total
  {
    match data
    case None => None
    case Some(d) =>
      match d.filterArtworks
      case None => None
      case Some(fa) => fa.counts.total
  }

  /** The derived `artworks`: the reported edges, or the empty sequence. */
  function DeriveItems(data: Option<QueryData>): (r: seq<Edge>)
    ensures ReportedEdges(data).None? ==> r == []
    ensures ReportedEdges(data).Some? ==> r == ReportedEdges(data).value
  {
    ReportedEdges(data).GetOr([])
  }

  /** The derived `previousPage`: the reported cursor, or 0. */
  function DerivePrevious(data: Option<QueryData>): (r: int)
    ensures PreviousCursor(data).None? ==> r == 0
    ensures PreviousCursor(data).Some? ==> r == PreviousCursor(data).value
  {
    PreviousCursor(data).GetOr(0)
  }

  /** The derived `total`: the reported count, or 0. */
  function DeriveTotal(data: Option<QueryData>): (r: int)
    ensures ReportedTotal(data).None? ==> r == 0
    ensures ReportedTotal(data).Some? ==> r == ReportedTotal(data).value
  {
    ReportedTotal(data).GetOr(0)
  }

  /** A fully populated result: every link on the three paths the controller reads is present. */
  function Complete(total: int, previous: int, items: seq<Edge>): (d: QueryData)
    ensures ReportedEdges(Some(d)) == Some(items)
    ensures PreviousCursor(Some(d)) == Some(previous)
    ensures ReportedTotal(Some(d)) == Some(total)
  {
    QueryData(Some(FilterArtworks(
      Some(FilteredArtworks(Some(items), Some(PageCursors(Some(Previous(Some(previous))))))),
      Counts(Some(total)))))
  }

  /** Deriving from a complete result gives back exactly the reported values. */
  lemma DeriveComplete(total: int, previous: int, items: seq<Edge>)
    ensures DeriveTotal(Some(Complete(total, previous, items))) == total
    ensures DerivePrevious(Some(Complete(total, previous, items))) == previous
    ensures DeriveItems(Some(Complete(total, previous, items))) == items
  {
  }

  /** Before the first result resolves, every derived field has its empty value. */
  lemma DeriveNoResult()
    ensures DeriveItems(None) == [] && DerivePrevious(None) == 0 && DeriveTotal(None) == 0
  {
  }

  /** A missing link anywhere on the cursor path gives `previousPage == 0`. */
  lemma PreviousDefaults(counts: Counts, edges: Option<seq<Edge>>)
    ensures DerivePrevious(None) == 0
    ensures DerivePrevious(Some(QueryData(None))) == 0
    ensures DerivePrevious(Some(QueryData(Some(FilterArtworks(None, counts))))) == 0
    ensures DerivePrevious(Some(QueryData(Some(FilterArtworks(Some(FilteredArtworks(edges, None)), counts))))) == 0
    ensures DerivePrevious(Some(QueryData(Some(FilterArtworks(
              Some(FilteredArtworks(edges, Some(PageCursors(None)))), counts))))) == 0
    ensures DerivePrevious(Some(QueryData(Some(FilterArtworks(
              Some(FilteredArtworks(edges, Some(PageCursors(Some(Previous(None)))))), counts))))) == 0
  {
  }

  /** A missing link anywhere on the edges path gives the empty list of artworks. */
  lemma ItemsDefaults(counts: Counts, cursors: Option<PageCursors>)
    ensures DeriveItems(None) == []
    ensures DeriveItems(Some(QueryData(None))) == []
    ensures DeriveItems(Some(QueryData(Some(FilterArtworks(None, counts))))) == []
    ensures DeriveItems(Some(QueryData(Some(FilterArtworks(Some(FilteredArtworks(None, cursors)), counts))))) == []
  {
  }

  /**
   * The total is 0 exactly when no result, no `filter_artworks`, no `counts.total`,
   * or a reported total of 0.
   */
  lemma TotalDefaults(data: Option<QueryData>)
    ensures DeriveTotal(data) == 0 <==>
      data.None? || data.value.filterArtworks.None?
      || data.value.filterArtworks.value.counts.total in {None, Some(0)}
  {
  }

  /**
   * A partial result still derives what it does report: the items of a first page
   * without cursors, the total of a result without the filtered-artworks node.
   */
  lemma PartialResultValues(items: seq<Edge>, counts: Counts, filtered: Option<FilteredArtworks>, total: int)
    ensures DeriveItems(Some(QueryData(Some(FilterArtworks(Some(FilteredArtworks(Some(items), None)), counts))))) == items
    ensures DeriveTotal(Some(QueryData(Some(FilterArtworks(filtered, Counts(Some(total))))))) == total
  {
  }

  /** `previousPage` depends on nothing but the cursor path: not on the items, nor on the total. */
  lemma PreviousReadsOnlyCursor(data: Option<QueryData>, items: Option<seq<Edge>>, counts: Counts)
    requires Filtered(data).Some?
    ensures DerivePrevious(Some(QueryData(Some(FilterArtworks(
              Some(Filtered(data).value.(edges := items)), counts))))) == DerivePrevious(data)
  {
  }
}
