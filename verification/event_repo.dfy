/** The pure logic of the Postgres event repository: splitting an event's
    endpoint list into insert batches, the first-occurrence operator
    rewrite that turns the descending page templates into ascending ones,
    and the filter composition and page trimming of `LoadEventsPaged`.
    The database itself is a parameter: the rows a query returns and the
    count it yields are given to the model. */
module EventRepo {
  import opened Wrappers
  import opened Seqs
  import opened Paging

  /** How many event-endpoint rows one insert statement carries. */
  const PartitionSize: nat := 30000

  /** One row of the event-to-endpoint join table. */
  datatype EventEndpoint = EventEndpoint(eventID: string, endpointID: string)

  /** The join rows for `endpoints`, each carrying the event's id. */
  function Rows(eventUID: string, endpoints: seq<string>): (r: seq<EventEndpoint>)
    ensures |r| == |endpoints|
    ensures forall k :: 0 <= k < |r| ==> r[k] == EventEndpoint(eventUID, endpoints[k])
  {
    Map(endpoints, (e: string) => EventEndpoint(eventUID, e))
  }

  /** A reference definition of chunking: consecutive slices of `size`
      elements, the last one possibly shorter, none empty. */
  function Chunks<T>(s: seq<T>, size: nat): (r: seq<seq<T>>)
    requires size > 0
    ensures Flatten(r) == s
    ensures forall k :: 0 <= k < |r| ==> 0 < |r[k]| <= size
    ensures forall k :: 0 <= k < |r| - 1 ==> |r[k]| == size
    decreases |s|
  {
    if |s| == 0 then []
    else if |s| <= size then
      assert Flatten([s]) == s + Flatten([]);
      [s]
    else
      assert s == s[..size] + s[size..];
      [s[..size]] + Chunks(s[size..], size)
  }

  /** Slices of one list satisfying the chunking shape are determined by
      the list: any two such slicings are equal. */
  lemma {:induction false} ChunkingUnique<T>(a: seq<seq<T>>, b: seq<seq<T>>, size: nat)
    requires size > 0
    requires Flatten(a) == Flatten(b)
    requires forall k :: 0 <= k < |a| ==> 0 < |a[k]| <= size
    requires forall k :: 0 <= k < |a| - 1 ==> |a[k]| == size
    requires forall k :: 0 <= k < |b| ==> 0 < |b[k]| <= size
    requires forall k :: 0 <= k < |b| - 1 ==> |b[k]| == size
    ensures a == b
    decreases |a|
  {
    if |a| == 0 || |b| == 0 {
    } else {
      FirstChunkLength(a, size);
      FirstChunkLength(b, size);
      assert Flatten(a) == a[0] + Flatten(a[1..]);
      assert Flatten(b) == b[0] + Flatten(b[1..]);
      assert a[0] == Flatten(a)[..|a[0]|];
      assert b[0] == Flatten(b)[..|b[0]|];
      assert Flatten(a[1..]) == Flatten(a)[|a[0]|..];
      assert Flatten(b[1..]) == Flatten(b)[|b[0]|..];
      ChunkingUnique(a[1..], b[1..], size);
      assert a == [a[0]] + a[1..];
      assert b == [b[0]] + b[1..];
    }
  }

  /** The first slice of a chunking is as long as the whole list, up to
      the chunk size. */
  lemma FirstChunkLength<T>(a: seq<seq<T>>, size: nat)
    requires size > 0 && |a| > 0
    requires forall k :: 0 <= k < |a| ==> 0 < |a[k]| <= size
    requires forall k :: 0 <= k < |a| - 1 ==> |a[k]| == size
    ensures |a[0]| == if |Flatten(a)| < size then |Flatten(a)| else size
  {
    assert Flatten(a) == a[0] + Flatten(a[1..]);
    if |a| == 1 {
      assert Flatten(a[1..]) == [];
    }
  }

  /** The batches `CreateEvent` inserts: the loop advances `i` by the
      partition size and clamps the running end `j` to the list length. */
  method InsertBatches(eventUID: string, endpoints: seq<string>) returns (batches: seq<seq<EventEndpoint>>)
    ensures Flatten(batches) == Rows(eventUID, endpoints)
    ensures forall k :: 0 <= k < |batches| ==> 0 < |batches[k]| <= PartitionSize
    ensures forall k :: 0 <= k < |batches| - 1 ==> |batches[k]| == PartitionSize
    ensures forall k, m :: 0 <= k < |batches| && 0 <= m < |batches[k]| ==> batches[k][m].eventID == eventUID
    ensures |endpoints| == 0 <==> |batches| == 0
    ensures batches == Chunks(Rows(eventUID, endpoints), PartitionSize)
  {
    batches := [];
    var i := 0;
    var j := 0;
    while i < |endpoints|
      invariant 0 <= i
      invariant i < |endpoints| ==> j == i
      invariant Flatten(batches) == Rows(eventUID, endpoints[..Min(i, |endpoints|)])
      invariant forall k :: 0 <= k < |batches| ==> 0 < |batches[k]| <= PartitionSize
      invariant forall k :: 0 <= k < |batches| - 1 ==> |batches[k]| == PartitionSize
      invariant i < |endpoints| ==> forall k :: 0 <= k < |batches| ==> |batches[k]| == PartitionSize
      invariant i == 0 <==> |batches| == 0
      decreases |endpoints| - i
    {
      j := j + PartitionSize;
      if j > |endpoints| {
        j := |endpoints|;
      }
      var batch := Rows(eventUID, endpoints[i..j]);
      AppendBatch(eventUID, endpoints, batches, i, j);
      batches := batches + [batch];
      i := i + PartitionSize;
      assert Min(i, |endpoints|) == j;
    }
    assert endpoints[..|endpoints|] == endpoints;
    forall k, m | 0 <= k < |batches| && 0 <= m < |batches[k]|
      ensures batches[k][m].eventID == eventUID
    {
      FlattenMember(batches, k, m);
    }
    InsertBatchesAreChunks(eventUID, endpoints, batches);
  }

  /** Appending the rows of the next slice extends the flattened prefix. */
  lemma AppendBatch(eventUID: string, endpoints: seq<string>, batches: seq<seq<EventEndpoint>>, i: nat, j: nat)
    requires i < j <= |endpoints|
    requires Flatten(batches) == Rows(eventUID, endpoints[..i])
    ensures Flatten(batches + [Rows(eventUID, endpoints[i..j])]) == Rows(eventUID, endpoints[..j])
  {
    var batch := Rows(eventUID, endpoints[i..j]);
    FlattenAppend(batches, [batch]);
    assert Flatten([batch]) == batch + Flatten([]);
    assert endpoints[..j] == endpoints[..i] + endpoints[i..j];
    MapAppend(endpoints[..i], endpoints[i..j], (e: string) => EventEndpoint(eventUID, e));
  }

  function Min(a: int, b: int): int
  {
    if a < b then a else b
  }

  /** Every element of a member list occurs in the flattening. */
  lemma {:induction false} FlattenMember<T>(ss: seq<seq<T>>, k: nat, m: nat)
    requires k < |ss| && m < |ss[k]|
    ensures ss[k][m] in Flatten(ss)
  {
    if k == 0 {
      assert Flatten(ss) == ss[0] + Flatten(ss[1..]);
      assert Flatten(ss)[m] == ss[0][m];
    } else {
      FlattenMember(ss[1..], k - 1, m);
      assert Flatten(ss) == ss[0] + Flatten(ss[1..]);
    }
  }

  /** The batches are exactly the reference chunking of the join rows. */
  lemma InsertBatchesAreChunks(eventUID: string, endpoints: seq<string>, batches: seq<seq<EventEndpoint>>)
    requires Flatten(batches) == Rows(eventUID, endpoints)
    requires forall k :: 0 <= k < |batches| ==> 0 < |batches[k]| <= PartitionSize
    requires forall k :: 0 <= k < |batches| - 1 ==> |batches[k]| == PartitionSize
    ensures batches == Chunks(Rows(eventUID, endpoints), PartitionSize)
  {
    ChunkingUnique(batches, Chunks(Rows(eventUID, endpoints), PartitionSize), PartitionSize);
  }

  // ---------------------------------------------------------------------
  // Page-query templates. Only the keyset comparison on the cursor
  // matters here; the surrounding text is kept with its whitespace
  // collapsed.

  const ForwardHead: string := "WITH events AS ( %s %s AND ev.id "
  const BackwardHead: string := ForwardHead
  const PageTail: string := " :cursor GROUP BY ev.id, s.id ORDER BY ev.id %s LIMIT :limit ) SELECT * FROM events ORDER BY id %s"
  const CountHead: string := " AND ev.id "
  const CountTail: string := " :cursor GROUP BY ev.id ORDER BY ev.id %s LIMIT 1"

  /** Descending forward pages take ids at or below the cursor. */
  const ForwardTemplate: string := ForwardHead + "<=" + PageTail
  /** Descending backward pages take ids at or above the cursor. */
  const BackwardTemplate: string := BackwardHead + ">=" + PageTail
  /** The rows before a page are those with a larger id. */
  const CountTemplate: string := CountHead + ">" + CountTail

  const Ascending: string := "ASC"

  /** `getFwdEventPageQuery`. */
  function ForwardPageQuery(sortOrder: string): (r: string)
    ensures sortOrder != Ascending ==> r == ForwardTemplate
    ensures sortOrder == Ascending ==> r == ReplaceFirst(ForwardTemplate, "<=", ">=")
  {
    if sortOrder == Ascending then ReplaceFirst(ForwardTemplate, "<=", ">=") else ForwardTemplate
  }

  /** `getBackwardEventPageQuery`. */
  function BackwardPageQuery(sortOrder: string): (r: string)
    ensures sortOrder != Ascending ==> r == BackwardTemplate
    ensures sortOrder == Ascending ==> r == ReplaceFirst(BackwardTemplate, ">=", "<=")
  {
    if sortOrder == Ascending then ReplaceFirst(BackwardTemplate, ">=", "<=") else BackwardTemplate
  }

  /** `getCountDeliveriesPrevRowQuery`. */
  function CountPrevRowQuery(sortOrder: string): (r: string)
    ensures sortOrder != Ascending ==> r == CountTemplate
    ensures sortOrder == Ascending ==> r == ReplaceFirst(CountTemplate, ">", "<")
  {
    if sortOrder == Ascending then ReplaceFirst(CountTemplate, ">", "<") else CountTemplate
  }

  /** For ascending order the keyset comparison flips and nothing else in
      the template changes: forward pages read ids at or above the cursor,
      backward pages ids at or below it, and the count looks at smaller ids. */
  lemma AscendingFlipsCursorComparison()
    ensures ForwardPageQuery(Ascending) == ForwardHead + ">=" + PageTail
    ensures BackwardPageQuery(Ascending) == BackwardHead + "<=" + PageTail
    ensures CountPrevRowQuery(Ascending) == CountHead + "<" + CountTail
  {
    AscendingForwardQuery();
    AscendingBackwardQuery();
    AscendingCountQuery();
  }

  lemma AscendingForwardQuery()
    ensures ForwardPageQuery(Ascending) == ForwardHead + ">=" + PageTail
  {
    assert '<' !in ForwardHead;
    ReplaceFirstAt(ForwardHead, "<=", ">=", PageTail);
  }

  lemma AscendingBackwardQuery()
    ensures BackwardPageQuery(Ascending) == BackwardHead + "<=" + PageTail
  {
    assert '>' !in BackwardHead;
    ReplaceFirstAt(BackwardHead, ">=", "<=", PageTail);
  }

  lemma AscendingCountQuery()
    ensures CountPrevRowQuery(Ascending) == CountHead + "<" + CountTail
  {
    assert '>' !in CountHead;
    ReplaceFirstAt(CountHead, ">", "<", CountTail);
  }

  // ---------------------------------------------------------------------
  // LoadEventsPaged

  datatype EventFilter = EventFilter(
    endpointID: string,
    endpointIDs: seq<string>,
    sourceIDs: seq<string>,
    query: string,
    idempotencyKey: string,
    createdAtStart: int,
    createdAtEnd: int,
    pageable: Pageable)

  /** The WHERE-clause fragments, in the order they are concatenated. */
  datatype Fragment = BaseFilter | SourceFilter | EndpointFilter | SearchFilter

  /** The table a page is read from. */
  datatype EventTable = Events | EventsSearch

  /** Everything the page query is built from. */
  datatype PageQuery = PageQuery(
    template: string,
    table: EventTable,
    fragments: seq<Fragment>,
    preOrder: string,
    sortOrder: string,
    endpointIDs: seq<string>,
    sourceIDs: seq<string>,
    cursor: string)

  /** The query counting the rows that precede the page. */
  datatype CountQuery = CountQuery(
    template: string,
    table: EventTable,
    fragments: seq<Fragment>,
    cursor: string)

  datatype Event = Event(uid: string, projectID: string, eventType: string, sourceID: string)

  /** What the repository returns: the page content plus the inputs of the
      pagination metadata (the ids of every fetched row and the number of
      rows before the page). */
  datatype Page = Page(events: seq<Event>, ids: seq<string>, prevRowCount: int)

  /** A single endpoint id that `blank` does not reject is appended to the
      list; `blank` stands for the emptiness test the repository applies to
      request strings. */
  function EffectiveEndpointIDs(f: EventFilter, blank: string -> bool): (r: seq<string>)
    ensures |r| >= |f.endpointIDs| && r[..|f.endpointIDs|] == f.endpointIDs
    ensures forall x :: x in r <==> x in f.endpointIDs || (x == f.endpointID && !blank(x))
    ensures |r| > 0 <==> |f.endpointIDs| > 0 || !blank(f.endpointID)
  {
    if !blank(f.endpointID) then f.endpointIDs + [f.endpointID] else f.endpointIDs
  }

  /** The caller's filter after `LoadEventsPaged`, on every path: the
      repository writes the effective endpoint list back into the filter it
      was handed, and changes nothing else. */
  function FilterAfterLoad(f: EventFilter, blank: string -> bool): (g: EventFilter)
    ensures g.endpointIDs == EffectiveEndpointIDs(f, blank)
    ensures g.(endpointIDs := f.endpointIDs) == f
  {
    f.(endpointIDs := EffectiveEndpointIDs(f, blank))
  }

  /** A caller that hands the same filter to a second load sees the single
      endpoint id appended once more: the second query names it twice. */
  lemma ReusedFilterRepeatsEndpoint(f: EventFilter, reverse: string -> string, blank: string -> bool)
    requires !blank(f.endpointID)
    ensures FilterAfterLoad(FilterAfterLoad(f, blank), blank).endpointIDs == f.endpointIDs + [f.endpointID, f.endpointID]
    ensures BuildPageQuery(FilterAfterLoad(f, blank), reverse, blank).endpointIDs == f.endpointIDs + [f.endpointID, f.endpointID]
  {
    var g := FilterAfterLoad(f, blank);
    assert g.endpointIDs == f.endpointIDs + [f.endpointID];
    assert g.endpointID == f.endpointID;
    assert EffectiveEndpointIDs(g, blank) == f.endpointIDs + [f.endpointID] + [f.endpointID];
  }

  /** The filter fragments for a request; the base filter always comes
      first. */
  function Fragments(f: EventFilter, blank: string -> bool): (r: seq<Fragment>)
    ensures |r| > 0 && r[0] == BaseFilter
    ensures SourceFilter in r <==> |f.sourceIDs| > 0
    ensures EndpointFilter in r <==> |EffectiveEndpointIDs(f, blank)| > 0
    ensures SearchFilter in r <==> !blank(f.query)
    ensures BaseFilter !in r[1..]
  {
    [BaseFilter]
      + (if |f.sourceIDs| > 0 then [SourceFilter] else [])
      + (if |EffectiveEndpointIDs(f, blank)| > 0 then [EndpointFilter] else [])
      + (if !blank(f.query) then [SearchFilter] else [])
  }

  /** The table searched: the tokenised copy exactly when there is a query. */
  function Table(f: EventFilter, blank: string -> bool): (t: EventTable)
    ensures t == EventsSearch <==> !blank(f.query)
  {
    if !blank(f.query) then EventsSearch else Events
  }

  /** The page query of `LoadEventsPaged`; `reverse` stands for
      `reverseOrder`. */
  function BuildPageQuery(f: EventFilter, reverse: string -> string, blank: string -> bool): (q: PageQuery)
    ensures q.template == (if f.pageable.direction == Next then ForwardPageQuery(f.pageable.sortOrder)
                           else BackwardPageQuery(f.pageable.sortOrder))
    ensures q.fragments == Fragments(f, blank)
    ensures q.table == EventsSearch <==> !blank(f.query)
    ensures q.preOrder == (if f.pageable.direction == Prev then reverse(f.pageable.sortOrder) else f.pageable.sortOrder)
    ensures q.sortOrder == f.pageable.sortOrder
    ensures q.endpointIDs == EffectiveEndpointIDs(f, blank)
  {
    var template := if f.pageable.direction == Next then ForwardPageQuery(f.pageable.sortOrder)
                    else BackwardPageQuery(f.pageable.sortOrder);
    var preOrder := if f.pageable.direction == Prev then reverse(f.pageable.sortOrder) else f.pageable.sortOrder;
    PageQuery(template, Table(f, blank), Fragments(f, blank), preOrder, f.pageable.sortOrder,
              EffectiveEndpointIDs(f, blank), f.sourceIDs, f.pageable.cursor)
  }

  /** The count query, issued only for a non-empty page: its cursor is the
      first row's id. */
  function BuildCountQuery(f: EventFilter, first: Event, blank: string -> bool): (q: CountQuery)
    ensures q.cursor == first.uid
    ensures q.fragments == Fragments(f, blank)
    ensures q.table == EventsSearch <==> !blank(f.query)
    ensures q.template == CountPrevRowQuery(f.pageable.sortOrder)
  {
    CountQuery(CountPrevRowQuery(f.pageable.sortOrder), Table(f, blank), Fragments(f, blank), first.uid)
  }

  /** `LoadEventsPaged`: `runPage` and `runCount` stand for the database.
      The count is read only when the page is non-empty; a count query
      that yields no row leaves the count at zero. The write-back into the
      caller's filter is `FilterAfterLoad`. */
  function LoadEventsPaged(
    f: EventFilter,
    reverse: string -> string,
    blank: string -> bool,
    runPage: PageQuery -> Result<seq<Event>, string>,
    runCount: CountQuery -> Result<Option<int>, string>): (r: Result<Page, string>)
    requires f.pageable.perPage >= 0
    ensures r.Success? <==>
              var rows := runPage(BuildPageQuery(f, reverse, blank));
              rows.Success? && (|rows.value| == 0 || runCount(BuildCountQuery(f, rows.value[0], blank)).Success?)
    ensures runPage(BuildPageQuery(f, reverse, blank)).Failure? ==>
              r == Failure(runPage(BuildPageQuery(f, reverse, blank)).error)
    ensures r.Success? ==>
              var rows := runPage(BuildPageQuery(f, reverse, blank)).value;
              && r.value.ids == TrimPage(rows, (e: Event) => e.uid, f.pageable.perPage).1
              && r.value.events == TrimPage(rows, (e: Event) => e.uid, f.pageable.perPage).0
              && (|rows| == 0 ==> r.value.prevRowCount == 0)
    ensures r.Success? && |runPage(BuildPageQuery(f, reverse, blank)).value| > 0 ==>
              var first := runPage(BuildPageQuery(f, reverse, blank)).value[0];
              r.value.prevRowCount == runCount(BuildCountQuery(f, first, blank)).value.GetOr(0)
  {
    var rows :- runPage(BuildPageQuery(f, reverse, blank));
    var count :- if |rows| > 0 then runCount(BuildCountQuery(f, rows[0], blank)) else Success(None);
    var trimmed := TrimPage(rows, (e: Event) => e.uid, f.pageable.perPage);
    Success(Page(trimmed.0, trimmed.1, count.GetOr(0)))
  }

  /** The page a successful load returns is the fetched rows in order, less
      at most the one extra row fetched to detect a next page; and the ids
      cover every fetched row, the page's own events first. */
  lemma LoadedPageIsPrefix(
    f: EventFilter,
    reverse: string -> string,
    blank: string -> bool,
    runPage: PageQuery -> Result<seq<Event>, string>,
    runCount: CountQuery -> Result<Option<int>, string>)
    requires f.pageable.perPage >= 0
    requires LoadEventsPaged(f, reverse, blank, runPage, runCount).Success?
    ensures var p := LoadEventsPaged(f, reverse, blank, runPage, runCount).value;
            var rows := runPage(BuildPageQuery(f, reverse, blank)).value;
            && p.events <= rows
            && |p.events| == (if |rows| > f.pageable.perPage then |rows| - 1 else |rows|)
            && |p.ids| == |rows|
            && forall k :: 0 <= k < |p.events| ==> p.ids[k] == p.events[k].uid
  {
    var p := LoadEventsPaged(f, reverse, blank, runPage, runCount).value;
    var rows := runPage(BuildPageQuery(f, reverse, blank)).value;
    if |rows| > f.pageable.perPage {
      assert rows == p.events + [rows[|rows| - 1]];
      forall k | 0 <= k < |p.events| ensures p.ids[k] == p.events[k].uid {
        assert rows[k] == p.events[k];
      }
    }
  }
}
