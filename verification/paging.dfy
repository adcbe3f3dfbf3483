/** Keyset pagination shared by the event and subscription repositories:
    a page is fetched with one look-ahead row, every fetched id is handed
    to the pagination metadata, and the look-ahead row is removed from the
    content. */
module Paging {
  import opened Seqs

  datatype Direction = Next | Prev

  /** The paging request. `sortOrder` is what `SortOrder()` reports and
      `cursor` what `Cursor()` reports. */
  datatype Pageable = Pageable(perPage: int, direction: Direction, sortOrder: string, cursor: string)

  /** The content of a page and the ids passed to the pagination metadata.
      When more than `perPage` rows came back exactly the last one is
      dropped from the content; the ids still include it. With a negative
      `perPage` and no rows the source slices at -1 and panics, so that
      one combination is excluded. */
  function TrimPage<T>(rows: seq<T>, uid: T -> string, perPage: int): (r: (seq<T>, seq<string>))
    requires perPage >= 0 || |rows| > 0
    ensures |r.1| == |rows| && forall k :: 0 <= k < |rows| ==> r.1[k] == uid(rows[k])
    ensures |rows| > perPage ==> |rows| > 0 && r.0 + [rows[|rows| - 1]] == rows
    ensures |rows| <= perPage ==> r.0 == rows
  {
    var ids := Map(rows, uid);
    if |rows| > perPage then
      assert rows == rows[..|rows| - 1] + [rows[|rows| - 1]];
      (rows[..|rows| - 1], ids)
    else (rows, ids)
  }
}
