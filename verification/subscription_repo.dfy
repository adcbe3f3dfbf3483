/** The pure logic of the SQLite subscription repository: normalising
    empty configurations to nil, the keyset-pagination loops that load
    subscription configurations batch by batch, the broadcast loop, the
    guards around create/update/delete, the filter composition of the
    paged listing and the nil short-circuit of the filter tests.

    The table is an abstract sequence of rows sorted by id (the order
    `ORDER BY id` reads them in); a query with cursor `c` and limit `n`
    returns the first `n` selected rows whose id is greater than `c`.
    Counts, affected-row numbers, flattening and comparison are inputs. */
module SubscriptionRepo {
  import opened Wrappers
  import opened Seqs
  import opened Keys
  import opened Paging

  // ---------------------------------------------------------------------
  // Data model

  datatype AlertConfig = AlertConfig(count: int, threshold: string)
  datatype RetryConfig = RetryConfig(retryType: string, duration: int, retryCount: int)
  datatype RateLimitConfig = RateLimitConfig(count: int, duration: int)

  /** The zero values the stored configurations are compared with. */
  const EmptyAlertConfig: AlertConfig := AlertConfig(0, "")
  const EmptyRetryConfig: RetryConfig := RetryConfig("", 0, 0)
  const EmptyRateLimitConfig: RateLimitConfig := RateLimitConfig(0, 0)

  /** A flattened JSON document: dotted paths to rendered values. */
  type Doc = map<string, string>

  datatype FilterConfig = FilterConfig(eventTypes: seq<string>, headers: Doc, body: Doc, isFlattened: bool)

  datatype Subscription = Subscription(
    uid: string,
    name: string,
    projectID: string,
    endpointID: string,
    sourceID: string,
    deviceID: string,
    filterConfig: FilterConfig,
    alertConfig: Option<AlertConfig>,
    retryConfig: Option<RetryConfig>,
    rateLimitConfig: Option<RateLimitConfig>,
    updatedAt: int,
    deletedAt: Option<int>)

  datatype RepoError =
    | NotAuthorisedToAccessDocument
    | SubscriptionNotCreated
    | SubscriptionNotUpdated
    | SubscriptionNotDeleted
    | SubscriptionNotFound
    | FlattenFailed(message: string)
    | UnknownFilterType(message: string)
    | IndexOutOfRange
    | Database(message: string)

  // ---------------------------------------------------------------------
  // nullifyEmptyConfig

  /** No configuration is present with its zero value. */
  predicate Normalised(s: Subscription)
  {
    && s.alertConfig != Some(EmptyAlertConfig)
    && s.retryConfig != Some(EmptyRetryConfig)
    && s.rateLimitConfig != Some(EmptyRateLimitConfig)
  }

  /** Replaces each configuration that equals its zero value by nil. */
  function NullifyEmptyConfig(s: Subscription): (r: Subscription)
    ensures r.uid == s.uid
  {
    var s1 := if s.alertConfig == Some(EmptyAlertConfig) then s.(alertConfig := None) else s;
    var s2 := if s1.retryConfig == Some(EmptyRetryConfig) then s1.(retryConfig := None) else s1;
    if s2.rateLimitConfig == Some(EmptyRateLimitConfig) then s2.(rateLimitConfig := None) else s2
  }

  /** A configuration becomes nil exactly when it is nil or equal to its
      zero value; a present one is kept as it is, every other field is
      left alone, the result is normalised, and normalised input is
      returned unchanged (so normalising is idempotent). */
  lemma NullifyEmptyConfigSpec(s: Subscription)
    ensures var r := NullifyEmptyConfig(s);
            && (r.alertConfig.None? <==> s.alertConfig.None? || s.alertConfig == Some(EmptyAlertConfig))
            && (r.retryConfig.None? <==> s.retryConfig.None? || s.retryConfig == Some(EmptyRetryConfig))
            && (r.rateLimitConfig.None? <==> s.rateLimitConfig.None? || s.rateLimitConfig == Some(EmptyRateLimitConfig))
            && (r.alertConfig.Some? ==> r.alertConfig == s.alertConfig)
            && (r.retryConfig.Some? ==> r.retryConfig == s.retryConfig)
            && (r.rateLimitConfig.Some? ==> r.rateLimitConfig == s.rateLimitConfig)
            && r.(alertConfig := s.alertConfig, retryConfig := s.retryConfig, rateLimitConfig := s.rateLimitConfig) == s
            && Normalised(r)
            && (Normalised(s) ==> r == s)
            && NullifyEmptyConfig(r) == r
  {
  }

  /** `nullifyEmptyConfig` applied to every scanned row. */
  function NormaliseAll(s: seq<Subscription>): (r: seq<Subscription>)
    ensures |r| == |s|
  {
    if |s| == 0 then [] else [NullifyEmptyConfig(s[0])] + NormaliseAll(s[1..])
  }

  lemma {:induction false} NormaliseAllAt(s: seq<Subscription>, i: nat)
    requires i < |s|
    ensures NormaliseAll(s)[i] == NullifyEmptyConfig(s[i])
  {
    if i > 0 {
      NormaliseAllAt(s[1..], i - 1);
    }
  }

  lemma {:induction false} NormaliseAllAppend(a: seq<Subscription>, b: seq<Subscription>)
    ensures NormaliseAll(a + b) == NormaliseAll(a) + NormaliseAll(b)
  {
    if |a| == 0 {
      assert a + b == b;
    } else {
      assert (a + b)[1..] == a[1..] + b;
      NormaliseAllAppend(a[1..], b);
    }
  }

  /** Normalising twice is normalising once. */
  lemma NullifyIdempotent(s: Subscription)
    ensures NullifyEmptyConfig(NullifyEmptyConfig(s)) == NullifyEmptyConfig(s)
  {
  }

  // ---------------------------------------------------------------------
  // The table and its queries

  /** Rows in strictly increasing id order. */
  predicate SortedById(t: seq<Subscription>)
  {
    forall i, j :: 0 <= i < j < |t| ==> Less(t[i].uid, t[j].uid)
  }

  /** Which rows a loading query selects, apart from the cursor. */
  datatype Selection =
    | ProjectConfigs(projectIDs: seq<string>)
    | UpdatedSince(projectIDs: seq<string>, since: int)
    | DeletedSince(projectIDs: seq<string>, since: int)
    | ForBroadcast(projectID: string, eventType: string)

  predicate Selects(q: Selection, s: Subscription)
  {
    match q
    case ProjectConfigs(ids) => s.deletedAt.None? && s.projectID in ids
    case UpdatedSince(ids, since) => s.deletedAt.None? && s.updatedAt > since && s.projectID in ids
    case DeletedSince(ids, since) => s.deletedAt.Some? && s.deletedAt.value > since && s.projectID in ids
    case ForBroadcast(pid, et) =>
      && (et in s.filterConfig.eventTypes || "*" in s.filterConfig.eventTypes)
      && s.projectID == pid && s.deletedAt.None?
  }

  /** The selected rows with an id above `cursor`, in table order. */
  function After(t: seq<Subscription>, q: Selection, cursor: string): (r: seq<Subscription>)
    ensures |r| <= |t|
  {
    if |t| == 0 then []
    else (if Selects(q, t[0]) && Less(cursor, t[0].uid) then [t[0]] else []) + After(t[1..], q, cursor)
  }

  /** At most `n` leading elements. */
  function Take<T>(s: seq<T>, n: nat): (r: seq<T>)
    ensures |r| == if |s| <= n then |s| else n
    ensures r == s[..|r|]
  {
    if |s| <= n then s else s[..n]
  }

  /** One page of a query: `LIMIT n` after `id > cursor`. */
  function Page(t: seq<Subscription>, q: Selection, cursor: string, n: nat): seq<Subscription>
  {
    Take(After(t, q, cursor), n)
  }

  /** The cursor every loop starts from. */
  const InitialCursor: string := "0"

  lemma {:induction false} AfterMember(t: seq<Subscription>, q: Selection, c: string, x: Subscription)
    requires x in After(t, q, c)
    ensures x in t && Selects(q, x) && Less(c, x.uid)
  {
    if |t| > 0 {
      if x != t[0] || !(Selects(q, t[0]) && Less(c, t[0].uid)) {
        AfterMember(t[1..], q, c, x);
      }
    }
  }

  /** Two cursors that agree on every row give the same rows. */
  lemma {:induction false} AfterSameCursor(t: seq<Subscription>, q: Selection, c1: string, c2: string)
    requires forall i :: 0 <= i < |t| ==> (Less(c1, t[i].uid) <==> Less(c2, t[i].uid))
    ensures After(t, q, c1) == After(t, q, c2)
  {
    if |t| > 0 {
      AfterSameCursor(t[1..], q, c1, c2);
    }
  }

  /** A row above `x` in a sorted table cannot precede it. */
  lemma HeadBelowMember(t: seq<Subscription>, x: Subscription)
    requires SortedById(t) && |t| > 0 && x in t[1..]
    ensures Less(t[0].uid, x.uid) && !Less(x.uid, t[0].uid)
  {
    var i :| 0 <= i < |t[1..]| && t[1..][i] == x;
    assert t[i + 1] == x;
    LessAsymmetric(t[0].uid, x.uid);
  }

  /** Restarting from the id of a sorted table's first row, when that row
      is selected, skips exactly that row. */
  lemma AfterFromHead(t: seq<Subscription>, q: Selection, c: string)
    requires SortedById(t) && |t| > 0 && Less(c, t[0].uid)
    ensures After(t, q, t[0].uid) == After(t[1..], q, c)
  {
    var h := t[0];
    var rest := t[1..];
    LessIrreflexive(h.uid);
    forall i | 0 <= i < |rest|
      ensures Less(h.uid, rest[i].uid) <==> Less(c, rest[i].uid)
    {
      assert rest[i] == t[i + 1];
      LessTransitive(c, h.uid, rest[i].uid);
    }
    AfterSameCursor(rest, q, h.uid, c);
    assert After(t, q, h.uid) == After(rest, q, h.uid);
  }

  /** Restarting from the id of a later selected row never picks up a
      sorted table's first row. */
  lemma AfterSkipsHead(t: seq<Subscription>, q: Selection, c: string, x: Subscription)
    requires SortedById(t) && |t| > 0 && x in After(t[1..], q, c)
    ensures After(t, q, x.uid) == After(t[1..], q, x.uid)
  {
    AfterMember(t[1..], q, c, x);
    HeadBelowMember(t, x);
  }

  /** Restarting from the id of the k-th selected row yields exactly the
      selected rows after it: this is why the cursor may be the last id
      collected. */
  lemma {:induction false} AfterSuffix(t: seq<Subscription>, q: Selection, c: string, k: nat)
    requires SortedById(t)
    requires 0 < k <= |After(t, q, c)|
    ensures After(t, q, After(t, q, c)[k - 1].uid) == After(t, q, c)[k..]
    decreases |t|, 1
  {
    if Selects(q, t[0]) && Less(c, t[0].uid) {
      if k == 1 {
        AfterFromHead(t, q, c);
        var F := After(t, q, c);
        assert F == [t[0]] + After(t[1..], q, c);
        assert F[0] == t[0] && F[1..] == After(t[1..], q, c);
      } else {
        AfterSuffixPastHead(t, q, c, k);
      }
    } else {
      AfterSuffixSkippedHead(t, q, c, k);
    }
  }

  /** `AfterSuffix` past a selected first row. */
  lemma {:induction false} AfterSuffixPastHead(t: seq<Subscription>, q: Selection, c: string, k: nat)
    requires SortedById(t) && |t| > 0 && Selects(q, t[0]) && Less(c, t[0].uid)
    requires 1 < k <= |After(t, q, c)|
    ensures After(t, q, After(t, q, c)[k - 1].uid) == After(t, q, c)[k..]
    decreases |t|, 0
  {
    var F' := After(t[1..], q, c);
    AfterCons(t, q, c);
    ConsShift(t[0], F', k);
    SortedTail(t);
    AfterSuffix(t[1..], q, c, k - 1);
    AfterSkipsHead(t, q, c, F'[k - 2]);
  }

  /** `AfterSuffix` when the first row is not selected. */
  lemma {:induction false} AfterSuffixSkippedHead(t: seq<Subscription>, q: Selection, c: string, k: nat)
    requires SortedById(t) && |t| > 0 && !(Selects(q, t[0]) && Less(c, t[0].uid))
    requires 0 < k <= |After(t, q, c)|
    ensures After(t, q, After(t, q, c)[k - 1].uid) == After(t, q, c)[k..]
    decreases |t|, 0
  {
    var F' := After(t[1..], q, c);
    AfterCons(t, q, c);
    SortedTail(t);
    AfterSuffix(t[1..], q, c, k);
    AfterSkipsHead(t, q, c, F'[k - 1]);
  }

  /** One step of `After`. */
  lemma AfterCons(t: seq<Subscription>, q: Selection, c: string)
    requires |t| > 0
    ensures Selects(q, t[0]) && Less(c, t[0].uid) ==> After(t, q, c) == [t[0]] + After(t[1..], q, c)
    ensures !(Selects(q, t[0]) && Less(c, t[0].uid)) ==> After(t, q, c) == After(t[1..], q, c)
  {
  }

  /** Indexing past a prepended element. */
  lemma ConsShift<T>(h: T, s: seq<T>, k: nat)
    requires 1 < k <= |s| + 1
    ensures ([h] + s)[k - 1] == s[k - 2] && ([h] + s)[k..] == s[k - 1..]
  {
  }

  lemma SortedTail(t: seq<Subscription>)
    requires SortedById(t) && |t| > 0
    ensures SortedById(t[1..])
  {
  }

  /** The selected rows of a sorted table are sorted. */
  lemma {:induction false} AfterSorted(t: seq<Subscription>, q: Selection, c: string)
    requires SortedById(t)
    ensures SortedById(After(t, q, c))
    decreases |t|
  {
    if |t| > 0 {
      var rest := t[1..];
      assert SortedById(rest);
      AfterSorted(rest, q, c);
      var F' := After(rest, q, c);
      if Selects(q, t[0]) && Less(c, t[0].uid) {
        var F := [t[0]] + F';
        forall i, j | 0 <= i < j < |F|
          ensures Less(F[i].uid, F[j].uid)
        {
          if i == 0 {
            assert F[j] == F'[j - 1];
            AfterMember(rest, q, c, F'[j - 1]);
            HeadBelowMember(t, F'[j - 1]);
          } else {
            assert F[i] == F'[i - 1] && F[j] == F'[j - 1];
          }
        }
      }
    }
  }

  // ---------------------------------------------------------------------
  // LoadAllSubscriptionConfig / fetchChangedSubscriptionConfig

  /** `math.Ceil(count / pageSize)` on integers. */
  function CeilDiv(count: nat, pageSize: nat): (r: nat)
    requires pageSize > 0
    ensures r * pageSize >= count
    ensures r > 0 ==> (r - 1) * pageSize < count
  {
    var r := (count + pageSize - 1) / pageSize;
    assert r * pageSize + (count + pageSize - 1) % pageSize == count + pageSize - 1;
    r
  }

  /** The batch loop. Each batch reads one page after `cursor` with the
      page query `page`, stores its rows normalised into the slots `acc`
      has not yet filled, and moves the cursor to the id of the last row
      stored so far. Writing past the `count` slots allocated up front is
      an index-out-of-range panic. */
  function CollectBatches(page: string -> seq<Subscription>, count: nat, batches: nat, cursor: string,
                          acc: seq<Subscription>): (r: Result<seq<Subscription>, RepoError>)
    requires |acc| <= count
    ensures r.Success? ==> |acc| <= |r.value| <= count && r.value[..|acc|] == acc
    ensures r.Failure? ==> r.error == IndexOutOfRange
    decreases batches
  {
    if batches == 0 then Success(acc)
    else
      var rows := page(cursor);
      if |acc| + |rows| > count then Failure(IndexOutOfRange)
      else
        var acc' := acc + NormaliseAll(rows);
        var cursor' := if |acc'| > 0 then acc'[|acc'| - 1].uid else cursor;
        var r := CollectBatches(page, count, batches - 1, cursor', acc');
        assert r.Success? ==> r.value[..|acc|] == r.value[..|acc'|][..|acc|];
        r
  }

  function ProjectIDs(q: Selection): seq<string>
  {
    match q
    case ProjectConfigs(ids) => ids
    case UpdatedSince(ids, _) => ids
    case DeletedSince(ids, _) => ids
    case ForBroadcast(pid, _) => [pid]
  }

  /** The shared body of `LoadAllSubscriptionConfig` and
      `fetchChangedSubscriptionConfig`; `count` is what the count query
      returned. */
  function LoadSelected(t: seq<Subscription>, q: Selection, count: nat, pageSize: nat): (r: Result<seq<Subscription>, RepoError>)
    requires pageSize > 0
    ensures |ProjectIDs(q)| == 0 ==> r == Success([])
    ensures count == 0 ==> r == Success([])
    ensures r.Success? ==> |r.value| <= count
  {
    if |ProjectIDs(q)| == 0 then Success([])
    else if count == 0 then Success([])
    else CollectBatches(c => Page(t, q, c, pageSize), count, CeilDiv(count, pageSize), InitialCursor, [])
  }

  /** The count query's outcome: with no project ids the query is never
      issued; a failed count is returned as the loader's error; otherwise
      the batches are collected. */
  function LoadCounted(t: seq<Subscription>, q: Selection, count: Result<nat, string>, pageSize: nat): (r: Result<seq<Subscription>, RepoError>)
    requires pageSize > 0
    ensures |ProjectIDs(q)| == 0 ==> r == Success([])
    ensures |ProjectIDs(q)| > 0 && count.Failure? ==> r == Failure(Database(count.error))
    ensures count.Success? ==> r == LoadSelected(t, q, count.value, pageSize)
    ensures count.Success? && SortedById(t) ==> LoadsSelection(t, q, count.value, r)
  {
    if |ProjectIDs(q)| == 0 then Success([])
    else
      match count
      case Failure(e) => Failure(Database(e))
      case Success(n) => LoadSelectedCorrect(t, q, n, pageSize); LoadSelected(t, q, n, pageSize)
  }

  /** `LoadAllSubscriptionConfig`: the live subscriptions of the given
      projects. On a table read in id order the result is the start of
      that selection, normalised, and all of it when the count covers it. */
  function LoadAllSubscriptionConfig(t: seq<Subscription>, projectIDs: seq<string>, count: Result<nat, string>, pageSize: nat): (r: Result<seq<Subscription>, RepoError>)
    requires pageSize > 0
    ensures |projectIDs| == 0 || count == Success(0) ==> r == Success([])
    ensures |projectIDs| > 0 && count.Failure? ==> r == Failure(Database(count.error))
    ensures count.Success? && SortedById(t) ==> LoadsSelection(t, ProjectConfigs(projectIDs), count.value, r)
  {
    LoadCounted(t, ProjectConfigs(projectIDs), count, pageSize)
  }

  /** `FetchUpdatedSubscriptions`: the live subscriptions of the given
      projects updated after `since`. */
  function FetchUpdatedSubscriptions(t: seq<Subscription>, projectIDs: seq<string>, since: int, count: Result<nat, string>, pageSize: nat): (r: Result<seq<Subscription>, RepoError>)
    requires pageSize > 0
    ensures |projectIDs| == 0 || count == Success(0) ==> r == Success([])
    ensures |projectIDs| > 0 && count.Failure? ==> r == Failure(Database(count.error))
    ensures count.Success? && SortedById(t) ==> LoadsSelection(t, UpdatedSince(projectIDs, since), count.value, r)
  {
    LoadCounted(t, UpdatedSince(projectIDs, since), count, pageSize)
  }

  /** `FetchDeletedSubscriptions`: the subscriptions of the given projects
      deleted after `since`. */
  function FetchDeletedSubscriptions(t: seq<Subscription>, projectIDs: seq<string>, since: int, count: Result<nat, string>, pageSize: nat): (r: Result<seq<Subscription>, RepoError>)
    requires pageSize > 0
    ensures |projectIDs| == 0 || count == Success(0) ==> r == Success([])
    ensures |projectIDs| > 0 && count.Failure? ==> r == Failure(Database(count.error))
    ensures count.Success? && SortedById(t) ==> LoadsSelection(t, DeletedSince(projectIDs, since), count.value, r)
  {
    LoadCounted(t, DeletedSince(projectIDs, since), count, pageSize)
  }

  /** What a batch loader promises on a table read in id order: a
      successful result is the start of the selection, normalised, and it
      is the whole selection when the count covers it. */
  predicate LoadsSelection(t: seq<Subscription>, q: Selection, count: nat, r: Result<seq<Subscription>, RepoError>)
  {
    var F := After(t, q, InitialCursor);
    && (r.Success? ==> |r.value| <= |F| && r.value == NormaliseAll(F[..|r.value|]))
    && (|ProjectIDs(q)| > 0 && count >= |F| ==> r == Success(NormaliseAll(F)))
  }

  /** The cursor after the first `k` selected rows have been collected. */
  function CursorAt(F: seq<Subscription>, k: nat, c0: string): string
    requires k <= |F|
  {
    if k == 0 then c0 else F[k - 1].uid
  }

  /** How many selected rows have been collected after one more page. */
  function NextK(F: seq<Subscription>, k: nat, pageSize: nat): (k': nat)
    requires k <= |F|
    ensures k <= k' <= |F|
    ensures k' == |F| || k' == k + pageSize
  {
    if |F| - k <= pageSize then |F| else k + pageSize
  }

  /** On a sorted table the page after the k-th selected row is the next
      slice of the selection. */
  lemma PageAt(t: seq<Subscription>, q: Selection, c0: string, pageSize: nat, k: nat)
    requires SortedById(t)
    requires k <= |After(t, q, c0)|
    ensures var F := After(t, q, c0);
            Page(t, q, CursorAt(F, k, c0), pageSize) == F[k..NextK(F, k, pageSize)]
  {
    var F := After(t, q, c0);
    assert After(t, q, CursorAt(F, k, c0)) == F[k..] by {
      if k > 0 {
        AfterSuffix(t, q, c0, k);
      } else {
        assert F[k..] == F;
      }
    }
    TakeSlice(F, k, pageSize);
  }

  /** The first `n` elements after position `k`. */
  lemma TakeSlice(F: seq<Subscription>, k: nat, n: nat)
    requires k <= |F|
    ensures Take(F[k..], n) == F[k..NextK(F, k, n)]
  {
  }

  /** Appending the normalised slice extends the normalised prefix, and
      normalising keeps the id the cursor is taken from. */
  lemma AccumulateSlice(F: seq<Subscription>, k: nat, k': nat)
    requires k <= k' <= |F|
    ensures NormaliseAll(F[..k]) + NormaliseAll(F[k..k']) == NormaliseAll(F[..k'])
    ensures k' > 0 ==> NormaliseAll(F[..k'])[k' - 1].uid == F[k' - 1].uid
  {
    assert F[..k'] == F[..k] + F[k..k'];
    NormaliseAllAppend(F[..k], F[k..k']);
    if k' > 0 {
      NormaliseAllAt(F[..k'], k' - 1);
    }
  }

  /** `page` reads the selection `F` in slices of `pageSize` rows: from
      the cursor left by the first `k` rows it returns the next slice. */
  predicate PagesOf(page: string -> seq<Subscription>, F: seq<Subscription>, c0: string, pageSize: nat)
  {
    forall k: nat {:trigger CursorAt(F, k, c0)} :: k <= |F| ==> page(CursorAt(F, k, c0)) == F[k..NextK(F, k, pageSize)]
  }

  /** On a sorted table the page query reads the selection in slices. */
  lemma PagesOfSelection(t: seq<Subscription>, q: Selection, c0: string, pageSize: nat)
    requires SortedById(t)
    ensures PagesOf(c => Page(t, q, c, pageSize), After(t, q, c0), c0, pageSize)
  {
    var F := After(t, q, c0);
    forall k: nat | k <= |F| ensures Page(t, q, CursorAt(F, k, c0), pageSize) == F[k..NextK(F, k, pageSize)] {
      PageAt(t, q, c0, pageSize, k);
    }
  }

  /** One batch reads the next slice of the selection, ending `k'` rows in. */
  lemma BatchStep(page: string -> seq<Subscription>, F: seq<Subscription>, c0: string, count: nat, pageSize: nat,
                  batches: nat, k: nat, k': nat)
    requires PagesOf(page, F, c0, pageSize) && batches > 0
    requires k <= |F| && k <= count && k' == NextK(F, k, pageSize)
    ensures k' > count ==>
              CollectBatches(page, count, batches, CursorAt(F, k, c0), NormaliseAll(F[..k])) == Failure(IndexOutOfRange)
    ensures k' <= count ==>
              CollectBatches(page, count, batches, CursorAt(F, k, c0), NormaliseAll(F[..k]))
              == CollectBatches(page, count, batches - 1, CursorAt(F, k', c0), NormaliseAll(F[..k']))
  {
    assert page(CursorAt(F, k, c0)) == F[k..k'];
    AccumulateSlice(F, k, k');
  }

  /** Invariant of the batch loop: what has been collected is always a
      normalised prefix of the selection. */
  lemma {:induction false} CollectBatchesPrefix(page: string -> seq<Subscription>, F: seq<Subscription>, c0: string,
                                                count: nat, pageSize: nat, batches: nat, k: nat)
    requires PagesOf(page, F, c0, pageSize)
    requires k <= |F| && k <= count
    ensures CollectBatches(page, count, batches, CursorAt(F, k, c0), NormaliseAll(F[..k])).Success? ==>
              PrefixOfSelection(CollectBatches(page, count, batches, CursorAt(F, k, c0), NormaliseAll(F[..k])).value, F, k)
    decreases batches
  {
    var r := CollectBatches(page, count, batches, CursorAt(F, k, c0), NormaliseAll(F[..k]));
    if batches == 0 {
      assert r == Success(NormaliseAll(F[..k]));
    } else {
      var k' := NextK(F, k, pageSize);
      BatchStep(page, F, c0, count, pageSize, batches, k, k');
      if k' <= count {
        var left: nat := batches - 1;
        var r' := CollectBatches(page, count, left, CursorAt(F, k', c0), NormaliseAll(F[..k']));
        assert r == r';
        CollectBatchesPrefix(page, F, c0, count, pageSize, left, k');
        assert r'.Success? ==> PrefixOfSelection(r'.value, F, k');
      }
    }
  }

  /** `r` is the selection's first rows, normalised, and at least `k` of them. */
  predicate PrefixOfSelection(r: seq<Subscription>, F: seq<Subscription>, k: nat)
  {
    k <= |r| <= |F| && r == NormaliseAll(F[..|r|])
  }

  /** After one more page, one batch fewer still covers what is left. */
  lemma BatchesLeft(b: nat, left: nat, p: nat, n: nat, k: nat, k': nat)
    requires b * p >= n - k && k <= k' <= n
    requires left + 1 == b && (k' == n || k' == k + p)
    ensures left * p >= n - k'
  {
    assert b * p == left * p + p;
  }

  /** No batch left covers nothing. */
  lemma NoBatchesLeft(b: nat, p: nat, n: int)
    requires b == 0 && b * p >= n
    ensures n <= 0
  {
  }

  /** With enough batches and a count that covers the selection, the batch
      loop collects all of it. */
  lemma {:induction false} CollectBatchesComplete(page: string -> seq<Subscription>, F: seq<Subscription>, c0: string,
                                                  count: nat, pageSize: nat, batches: nat, k: nat)
    requires PagesOf(page, F, c0, pageSize)
    requires k <= |F| <= count
    requires batches * pageSize >= |F| - k
    ensures CollectBatches(page, count, batches, CursorAt(F, k, c0), NormaliseAll(F[..k])) == Success(NormaliseAll(F))
    decreases batches
  {
    if batches == 0 {
      NoBatchesLeft(batches, pageSize, |F| - k);
      assert F[..k] == F;
    } else {
      var k' := NextK(F, k, pageSize);
      var left: nat := batches - 1;
      CompleteStep(page, F, c0, count, pageSize, batches, left, k, k');
      CollectBatchesComplete(page, F, c0, count, pageSize, left, k');
    }
  }

  /** One step of `CollectBatchesComplete`: the next slice fits, and the
      batches left still cover the rest of the selection. */
  lemma CompleteStep(page: string -> seq<Subscription>, F: seq<Subscription>, c0: string,
                     count: nat, pageSize: nat, batches: nat, left: nat, k: nat, k': nat)
    requires PagesOf(page, F, c0, pageSize)
    requires k <= |F| <= count && left + 1 == batches
    requires batches * pageSize >= |F| - k && k' == NextK(F, k, pageSize)
    ensures k' <= |F| && left * pageSize >= |F| - k'
    ensures CollectBatches(page, count, batches, CursorAt(F, k, c0), NormaliseAll(F[..k]))
            == CollectBatches(page, count, left, CursorAt(F, k', c0), NormaliseAll(F[..k']))
  {
    assert left * pageSize >= |F| - k' by {
      BatchesLeft(batches, left, pageSize, |F|, k, k');
    }
    BatchStep(page, F, c0, count, pageSize, batches, k, k');
  }

  /** Every loaded configuration is a selected row, normalised, and they
      come in the table's order: the result is a prefix of the selection.
      When the count covers the selection, nothing is missed. */
  lemma LoadSelectedCorrect(t: seq<Subscription>, q: Selection, count: nat, pageSize: nat)
    requires pageSize > 0
    ensures SortedById(t) ==> LoadsSelection(t, q, count, LoadSelected(t, q, count, pageSize))
  {
    if !SortedById(t) { return; }
    var F := After(t, q, InitialCursor);
    if |ProjectIDs(q)| > 0 && count > 0 {
      var page := c => Page(t, q, c, pageSize);
      assert F[..0] == [];
      PagesOfSelection(t, q, InitialCursor, pageSize);
      CollectBatchesPrefix(page, F, InitialCursor, count, pageSize, CeilDiv(count, pageSize), 0);
      if count >= |F| {
        CollectBatchesComplete(page, F, InitialCursor, count, pageSize, CeilDiv(count, pageSize), 0);
      }
    } else if count == 0 && |ProjectIDs(q)| > 0 {
      assert |F| == 0 ==> F == F[..0];
    }
  }

  /** The loaded configurations come out in strictly increasing id order,
      hence without duplicates. */
  lemma LoadSelectedSorted(t: seq<Subscription>, q: Selection, count: nat, pageSize: nat)
    requires SortedById(t) && pageSize > 0
    requires LoadSelected(t, q, count, pageSize).Success?
    ensures SortedById(LoadSelected(t, q, count, pageSize).value)
  {
    LoadSelectedCorrect(t, q, count, pageSize);
    var F := After(t, q, InitialCursor);
    AfterSorted(t, q, InitialCursor);
    var r := LoadSelected(t, q, count, pageSize).value;
    NormaliseAllSorted(F[..|r|]);
  }

  /** Normalising keeps every id, hence the order. */
  lemma NormaliseAllSorted(s: seq<Subscription>)
    requires SortedById(s)
    ensures SortedById(NormaliseAll(s))
  {
    forall i | 0 <= i < |s|
      ensures NormaliseAll(s)[i].uid == s[i].uid
    {
      NormaliseAllAt(s, i);
    }
  }

  // ---------------------------------------------------------------------
  // FetchSubscriptionsForBroadcast

  /** How many rows have an id above `cursor`; it shrinks whenever the
      cursor moves to the id of one of those rows. */
  function Above(t: seq<Subscription>, cursor: string): nat
  {
    if |t| == 0 then 0 else (if Less(cursor, t[0].uid) then 1 else 0) + Above(t[1..], cursor)
  }

  lemma {:induction false} AboveShrinks(t: seq<Subscription>, c: string, x: Subscription)
    requires x in t && Less(c, x.uid)
    ensures Above(t, x.uid) < Above(t, c)
  {
    AboveMonotone(t[1..], c, x.uid);
    if t[0] == x {
      LessIrreflexive(x.uid);
    } else {
      AboveShrinks(t[1..], c, x);
      if Less(x.uid, t[0].uid) {
        LessTransitive(c, x.uid, t[0].uid);
      }
    }
  }

  lemma {:induction false} AboveMonotone(t: seq<Subscription>, c: string, d: string)
    requires Less(c, d)
    ensures Above(t, d) <= Above(t, c)
  {
    if |t| > 0 {
      AboveMonotone(t[1..], c, d);
      if Less(d, t[0].uid) {
        LessTransitive(c, d, t[0].uid);
      }
    }
  }

  /** The broadcast loop from `cursor`: pages are appended until the first
      empty one. */
  function BroadcastFrom(t: seq<Subscription>, q: Selection, pageSize: nat, cursor: string, acc: seq<Subscription>): (r: seq<Subscription>)
    ensures |r| >= |acc| && r[..|acc|] == acc
    decreases Above(t, cursor)
  {
    var raw := Page(t, q, cursor, pageSize);
    var page := NormaliseAll(raw);
    if |page| == 0 then acc
    else
      PageAdvances(t, q, cursor, pageSize);
      var r := BroadcastFrom(t, q, pageSize, page[|page| - 1].uid, acc + page);
      assert r[..|acc|] == r[..|acc + page|][..|acc|];
      r
  }

  /** The id of a non-empty page's last row has fewer rows above it than
      the cursor the page was read from. */
  lemma PageAdvances(t: seq<Subscription>, q: Selection, cursor: string, pageSize: nat)
    requires |Page(t, q, cursor, pageSize)| > 0
    ensures var page := NormaliseAll(Page(t, q, cursor, pageSize));
            Above(t, page[|page| - 1].uid) < Above(t, cursor)
  {
    var raw := Page(t, q, cursor, pageSize);
    var last := raw[|raw| - 1];
    NormaliseAllAt(raw, |raw| - 1);
    AfterMember(t, q, cursor, last);
    AboveShrinks(t, cursor, last);
  }

  /** The number of rows a LIMIT admits: SQLite reads a negative LIMIT as
      no limit, and no page can hold more than the whole table. */
  function LimitRows(t: seq<Subscription>, limit: int): (n: nat)
    ensures limit >= 0 ==> n == limit
    ensures limit < 0 ==> n > |t|
  {
    if limit < 0 then |t| + 1 else limit
  }

  /** `FetchSubscriptionsForBroadcast`; the page size is bound as the
      query's LIMIT. */
  function FetchSubscriptionsForBroadcast(t: seq<Subscription>, projectID: string, eventType: string, pageSize: int): seq<Subscription>
  {
    BroadcastFrom(t, ForBroadcast(projectID, eventType), LimitRows(t, pageSize), InitialCursor, [])
  }

  /** An empty page ends the broadcast loop. */
  lemma BroadcastEnd(t: seq<Subscription>, q: Selection, pageSize: nat, cursor: string, acc: seq<Subscription>)
    requires |Page(t, q, cursor, pageSize)| == 0
    ensures BroadcastFrom(t, q, pageSize, cursor, acc) == acc
  {
  }

  /** A non-empty page is appended and the loop continues from its last id. */
  lemma BroadcastStep(t: seq<Subscription>, q: Selection, pageSize: nat, cursor: string, acc: seq<Subscription>,
                      page: seq<Subscription>, next: string, acc': seq<Subscription>)
    requires page == Page(t, q, cursor, pageSize) && |page| > 0 && next == page[|page| - 1].uid
    requires acc' == acc + NormaliseAll(page)
    ensures BroadcastFrom(t, q, pageSize, cursor, acc) == BroadcastFrom(t, q, pageSize, next, acc')
  {
    NormaliseAllAt(page, |page| - 1);
  }

  /** From the k-th selected row on, the broadcast loop collects the rest
      of the selection. */
  lemma {:induction false} BroadcastFromComplete(t: seq<Subscription>, q: Selection, c0: string, F: seq<Subscription>,
                                                 pageSize: nat, k: nat)
    requires SortedById(t) && pageSize > 0 && F == After(t, q, c0)
    requires k <= |F|
    ensures BroadcastFrom(t, q, pageSize, CursorAt(F, k, c0), NormaliseAll(F[..k])) == NormaliseAll(F)
    decreases |F| - k
  {
    var k' := NextK(F, k, pageSize);
    if k' == k {
      BroadcastFromLast(t, q, c0, F, pageSize, k);
    } else {
      BroadcastFromAdvance(t, q, c0, F, pageSize, k, k');
      BroadcastFromComplete(t, q, c0, F, pageSize, k');
    }
  }

  /** Once the page from the k-th cursor is empty, the loop returns what it
      has, which is then the whole selection. */
  lemma BroadcastFromLast(t: seq<Subscription>, q: Selection, c0: string, F: seq<Subscription>, pageSize: nat, k: nat)
    requires SortedById(t) && pageSize > 0 && F == After(t, q, c0)
    requires k <= |F| && NextK(F, k, pageSize) == k
    ensures BroadcastFrom(t, q, pageSize, CursorAt(F, k, c0), NormaliseAll(F[..k])) == NormaliseAll(F)
  {
    var cursor := CursorAt(F, k, c0);
    assert Page(t, q, cursor, pageSize) == F[k..k] by {
      PageAt(t, q, c0, pageSize, k);
    }
    BroadcastEnd(t, q, pageSize, cursor, NormaliseAll(F[..k]));
    assert F[..k] == F;
  }

  /** A non-empty page from the k-th cursor moves the loop to the cursor
      after that page, with the page accumulated. */
  lemma BroadcastFromAdvance(t: seq<Subscription>, q: Selection, c0: string, F: seq<Subscription>, pageSize: nat,
                             k: nat, k': nat)
    requires SortedById(t) && pageSize > 0 && F == After(t, q, c0)
    requires k <= |F| && k' == NextK(F, k, pageSize) && k' != k
    ensures k' <= |F|
    ensures BroadcastFrom(t, q, pageSize, CursorAt(F, k, c0), NormaliseAll(F[..k]))
            == BroadcastFrom(t, q, pageSize, CursorAt(F, k', c0), NormaliseAll(F[..k']))
  {
    PageAt(t, q, c0, pageSize, k);
    AdvanceBySlice(t, q, c0, F, pageSize, k, k');
  }

  /** The step of `BroadcastFromAdvance` once the page is known to be the
      slice of the selection between the two cursors. */
  lemma AdvanceBySlice(t: seq<Subscription>, q: Selection, c0: string, F: seq<Subscription>, pageSize: nat,
                       k: nat, k': nat)
    requires k < k' <= |F|
    requires Page(t, q, CursorAt(F, k, c0), pageSize) == F[k..k']
    ensures BroadcastFrom(t, q, pageSize, CursorAt(F, k, c0), NormaliseAll(F[..k]))
            == BroadcastFrom(t, q, pageSize, CursorAt(F, k', c0), NormaliseAll(F[..k']))
  {
    AccumulateSlice(F, k, k');
    var page := F[k..k'];
    assert CursorAt(F, k', c0) == page[|page| - 1].uid;
    BroadcastStep(t, q, pageSize, CursorAt(F, k, c0), NormaliseAll(F[..k]), page, CursorAt(F, k', c0), NormaliseAll(F[..k']));
  }

  /** On a sorted table the broadcast loop returns every selected row,
      normalised, in id order, for a positive page size and for a negative
      one (no limit); a zero page size returns nothing. */
  lemma BroadcastComplete(t: seq<Subscription>, projectID: string, eventType: string, pageSize: int)
    requires SortedById(t)
    ensures pageSize != 0 ==>
              FetchSubscriptionsForBroadcast(t, projectID, eventType, pageSize)
              == NormaliseAll(After(t, ForBroadcast(projectID, eventType), InitialCursor))
    ensures pageSize == 0 ==> FetchSubscriptionsForBroadcast(t, projectID, eventType, pageSize) == []
  {
    if pageSize != 0 {
      var F := After(t, ForBroadcast(projectID, eventType), InitialCursor);
      assert F[..0] == [];
      BroadcastFromComplete(t, ForBroadcast(projectID, eventType), InitialCursor, F, LimitRows(t, pageSize), 0);
    }
  }

  // ---------------------------------------------------------------------
  // Create / Update / Delete

  /** A nullable text column: a string `blank` rejects is stored as NULL;
      `blank` stands for the emptiness test the repository applies. */
  function NullIfEmpty(s: string, blank: string -> bool): (r: Option<string>)
    ensures r.None? <==> blank(s)
    ensures r.Some? ==> r.value == s
  {
    if blank(s) then None else Some(s)
  }

  /** Flattens the body and then the header filter and marks the filter
      as flattened. */
  function PrepareFilter(fc: FilterConfig, flatten: Doc -> Result<Doc, string>): (r: Result<FilterConfig, RepoError>)
    ensures flatten(fc.body).Failure? ==> r == Failure(FlattenFailed("failed to flatten body filter: " + flatten(fc.body).error))
    ensures flatten(fc.body).Success? && flatten(fc.headers).Failure? ==>
              r == Failure(FlattenFailed("failed to flatten header filter: " + flatten(fc.headers).error))
    ensures r.Success? ==>
              && r.value.isFlattened
              && r.value.eventTypes == fc.eventTypes
              && flatten(fc.body) == Success(r.value.body)
              && flatten(fc.headers) == Success(r.value.headers)
  {
    match flatten(fc.body)
    case Failure(e) => Failure(FlattenFailed("failed to flatten body filter: " + e))
    case Success(body) =>
      match flatten(fc.headers)
      case Failure(e) => Failure(FlattenFailed("failed to flatten header filter: " + e))
      case Success(headers) => Success(FilterConfig(fc.eventTypes, headers, body, true))
  }

  /** The columns an insert writes. */
  datatype InsertRow = InsertRow(
    uid: string, name: string, projectID: string,
    endpointID: Option<string>, deviceID: Option<string>, sourceID: Option<string>,
    filterConfig: FilterConfig,
    alertConfig: Option<AlertConfig>, retryConfig: Option<RetryConfig>, rateLimitConfig: Option<RateLimitConfig>)

  /** The columns an update writes; the device is never changed. */
  datatype UpdateRow = UpdateRow(
    uid: string, projectID: string, name: string,
    endpointID: string, sourceID: Option<string>,
    filterConfig: FilterConfig,
    alertConfig: Option<AlertConfig>, retryConfig: Option<RetryConfig>, rateLimitConfig: Option<RateLimitConfig>)

  function InsertRowFor(s: Subscription, fc: FilterConfig, blank: string -> bool): (row: InsertRow)
    ensures row.endpointID == NullIfEmpty(s.endpointID, blank)
    ensures row.sourceID == NullIfEmpty(s.sourceID, blank)
    ensures row.deviceID == NullIfEmpty(s.deviceID, blank)
    ensures row.uid == s.uid && row.projectID == s.projectID && row.filterConfig == fc
  {
    InsertRow(s.uid, s.name, s.projectID, NullIfEmpty(s.endpointID, blank), NullIfEmpty(s.deviceID, blank),
              NullIfEmpty(s.sourceID, blank), fc, s.alertConfig, s.retryConfig, s.rateLimitConfig)
  }

  function UpdateRowFor(projectID: string, s: Subscription, fc: FilterConfig, blank: string -> bool): (row: UpdateRow)
    ensures row.endpointID == s.endpointID
    ensures row.sourceID == NullIfEmpty(s.sourceID, blank)
    ensures row.uid == s.uid && row.projectID == projectID && row.filterConfig == fc
  {
    UpdateRow(s.uid, projectID, s.name, s.endpointID, NullIfEmpty(s.sourceID, blank),
              fc, s.alertConfig, s.retryConfig, s.rateLimitConfig)
  }

  /** Reads a subscription back after a write; no row is "not found". */
  function ReadBack(fetched: Result<Option<Subscription>, string>): (r: Result<Subscription, RepoError>)
    ensures fetched == Success(None) ==> r == Failure(SubscriptionNotFound)
    ensures fetched.Failure? ==> r == Failure(Database(fetched.error))
    ensures fetched.Success? && fetched.value.Some? ==> r == Success(NullifyEmptyConfig(fetched.value.value))
    ensures r.Success? ==> fetched.Success? && fetched.value.Some? && r.value == NullifyEmptyConfig(fetched.value.value)
  {
    match fetched
    case Failure(e) => Failure(Database(e))
    case Success(None) => Failure(SubscriptionNotFound)
    case Success(Some(s)) => Success(NullifyEmptyConfig(s))
  }

  /** `CreateSubscription`. `insert` runs the insert and reports the
      affected rows; `fetch` reads a subscription by id and project. */
  function CreateSubscription(
    projectID: string, s: Subscription,
    flatten: Doc -> Result<Doc, string>,
    blank: string -> bool,
    insert: InsertRow -> Result<int, string>,
    fetch: (string, string) -> Result<Option<Subscription>, string>): (r: Result<Subscription, RepoError>)
    ensures projectID != s.projectID ==> r == Failure(NotAuthorisedToAccessDocument)
    ensures projectID == s.projectID && PrepareFilter(s.filterConfig, flatten).Failure? ==>
              r == Failure(PrepareFilter(s.filterConfig, flatten).error)
    ensures projectID == s.projectID && PrepareFilter(s.filterConfig, flatten).Success? ==>
              var row := InsertRowFor(s, PrepareFilter(s.filterConfig, flatten).value, blank);
              && (insert(row).Failure? ==> r == Failure(Database(insert(row).error)))
              && (insert(row).Success? && insert(row).value < 1 ==> r == Failure(SubscriptionNotCreated))
              && (insert(row).Success? && insert(row).value >= 1 ==> r == ReadBack(fetch(s.uid, projectID)))
    ensures r.Success? ==>
              && projectID == s.projectID
              && PrepareFilter(s.filterConfig, flatten).Success?
              && var row := InsertRowFor(s, PrepareFilter(s.filterConfig, flatten).value, blank);
              && row.filterConfig.isFlattened
              && insert(row).Success? && insert(row).value >= 1
              && r == ReadBack(fetch(s.uid, projectID))
  {
    if projectID != s.projectID then Failure(NotAuthorisedToAccessDocument)
    else
      var fc :- PrepareFilter(s.filterConfig, flatten);
      var row := InsertRowFor(s, fc, blank);
      match insert(row)
      case Failure(e) => Failure(Database(e))
      case Success(affected) =>
        if affected < 1 then Failure(SubscriptionNotCreated)
        else ReadBack(fetch(s.uid, projectID))
  }

  /** `UpdateSubscription`: no project guard; the endpoint id is written
      as given, only the source id becomes NULL when empty. */
  function UpdateSubscription(
    projectID: string, s: Subscription,
    flatten: Doc -> Result<Doc, string>,
    blank: string -> bool,
    update: UpdateRow -> Result<int, string>,
    fetch: (string, string) -> Result<Option<Subscription>, string>): (r: Result<Subscription, RepoError>)
    ensures PrepareFilter(s.filterConfig, flatten).Failure? ==> r == Failure(PrepareFilter(s.filterConfig, flatten).error)
    ensures PrepareFilter(s.filterConfig, flatten).Success? ==>
              var row := UpdateRowFor(projectID, s, PrepareFilter(s.filterConfig, flatten).value, blank);
              && (update(row).Failure? ==> r == Failure(Database(update(row).error)))
              && (update(row).Success? && update(row).value < 1 ==> r == Failure(SubscriptionNotUpdated))
              && (update(row).Success? && update(row).value >= 1 ==> r == ReadBack(fetch(s.uid, projectID)))
    ensures r.Success? ==>
              && PrepareFilter(s.filterConfig, flatten).Success?
              && var row := UpdateRowFor(projectID, s, PrepareFilter(s.filterConfig, flatten).value, blank);
              && row.filterConfig.isFlattened
              && update(row).Success? && update(row).value >= 1
              && r == ReadBack(fetch(s.uid, projectID))
  {
    var fc :- PrepareFilter(s.filterConfig, flatten);
    var row := UpdateRowFor(projectID, s, fc, blank);
    match update(row)
    case Failure(e) => Failure(Database(e))
    case Success(affected) =>
      if affected < 1 then Failure(SubscriptionNotUpdated)
      else ReadBack(fetch(s.uid, projectID))
  }

  /** What a successful write hands back is the stored row read back and
      normalised; so it carries no zero-valued configuration and the id
      it was read by. */
  lemma WrittenSubscriptionIsNormalised(
    projectID: string, s: Subscription,
    flatten: Doc -> Result<Doc, string>,
    blank: string -> bool,
    insert: InsertRow -> Result<int, string>,
    update: UpdateRow -> Result<int, string>,
    fetch: (string, string) -> Result<Option<Subscription>, string>)
    ensures CreateSubscription(projectID, s, flatten, blank, insert, fetch).Success? ==>
              var c := CreateSubscription(projectID, s, flatten, blank, insert, fetch).value;
              Normalised(c) && NullifyEmptyConfig(c) == c && c.uid == fetch(s.uid, projectID).value.value.uid
    ensures UpdateSubscription(projectID, s, flatten, blank, update, fetch).Success? ==>
              var u := UpdateSubscription(projectID, s, flatten, blank, update, fetch).value;
              Normalised(u) && NullifyEmptyConfig(u) == u && u.uid == fetch(s.uid, projectID).value.value.uid
  {
    var fetched := fetch(s.uid, projectID);
    if fetched.Success? && fetched.value.Some? {
      NullifyEmptyConfigSpec(fetched.value.value);
    }
  }

  /** Within the caller's own project, a create and an update that both
      touch a row end the same way: with the row read back by id. */
  lemma CreateUpdateAgree(
    projectID: string, s: Subscription,
    flatten: Doc -> Result<Doc, string>,
    blank: string -> bool,
    insert: InsertRow -> Result<int, string>,
    update: UpdateRow -> Result<int, string>,
    fetch: (string, string) -> Result<Option<Subscription>, string>)
    requires projectID == s.projectID
    requires PrepareFilter(s.filterConfig, flatten).Success? ==>
               var fc := PrepareFilter(s.filterConfig, flatten).value;
               && insert(InsertRowFor(s, fc, blank)) == Success(1)
               && update(UpdateRowFor(projectID, s, fc, blank)) == Success(1)
    ensures CreateSubscription(projectID, s, flatten, blank, insert, fetch)
            == UpdateSubscription(projectID, s, flatten, blank, update, fetch)
  {
  }

  /** `DeleteSubscription`: a soft delete that must touch a row. */
  function DeleteSubscription(affected: Result<int, string>): (r: Result<(), RepoError>)
    ensures r.Success? <==> affected.Success? && affected.value >= 1
    ensures affected.Success? && affected.value < 1 ==> r == Failure(SubscriptionNotDeleted)
    ensures affected.Failure? ==> r == Failure(Database(affected.error))
  {
    match affected
    case Failure(e) => Failure(Database(e))
    case Success(n) => if n < 1 then Failure(SubscriptionNotDeleted) else Success(())
  }

  // ---------------------------------------------------------------------
  // LoadSubscriptionsPaged

  datatype FilterBy = FilterBy(endpointIDs: seq<string>, subscriptionName: string)

  datatype SubscriptionFragment = ProjectFilter | EndpointFilter | NameFilter

  /** The page query: which template, which fragments, and the bound
      `name` pattern. */
  datatype SubscriptionPageQuery = SubscriptionPageQuery(
    forward: bool,
    fragments: seq<SubscriptionFragment>,
    projectID: string,
    endpointIDs: seq<string>,
    namePattern: string,
    cursor: string)

  function BuildSubscriptionPageQuery(projectID: string, f: FilterBy, p: Pageable, blank: string -> bool): (q: SubscriptionPageQuery)
    ensures q.forward <==> p.direction == Next
    ensures |q.fragments| > 0 && q.fragments[0] == ProjectFilter && ProjectFilter !in q.fragments[1..]
    ensures EndpointFilter in q.fragments <==> |f.endpointIDs| > 0
    ensures NameFilter in q.fragments <==> !blank(f.subscriptionName)
    ensures q.namePattern == "%" + f.subscriptionName + "%"
    ensures q.cursor == p.cursor
  {
    var fragments := [ProjectFilter]
      + (if |f.endpointIDs| > 0 then [EndpointFilter] else [])
      + (if !blank(f.subscriptionName) then [NameFilter] else []);
    SubscriptionPageQuery(p.direction == Next, fragments, projectID, f.endpointIDs,
                          "%" + f.subscriptionName + "%", p.cursor)
  }

  datatype SubscriptionPage = SubscriptionPage(subscriptions: seq<Subscription>, ids: seq<string>, prevRowCount: int)

  /** `LoadSubscriptionsPaged`: the rows are normalised as they are
      scanned; the count query reuses the page query with the first row's
      id as cursor. */
  function LoadSubscriptionsPaged(
    projectID: string, f: FilterBy, p: Pageable,
    blank: string -> bool,
    runPage: SubscriptionPageQuery -> Result<seq<Subscription>, string>,
    runCount: SubscriptionPageQuery -> Result<Option<int>, string>): (r: Result<SubscriptionPage, string>)
    requires p.perPage >= 0
    ensures r.Success? <==>
              var q := BuildSubscriptionPageQuery(projectID, f, p, blank);
              runPage(q).Success? && (|runPage(q).value| == 0 || runCount(q.(cursor := runPage(q).value[0].uid)).Success?)
    ensures runPage(BuildSubscriptionPageQuery(projectID, f, p, blank)).Failure? ==>
              r == Failure(runPage(BuildSubscriptionPageQuery(projectID, f, p, blank)).error)
    ensures r.Success? ==>
              var rows := NormaliseAll(runPage(BuildSubscriptionPageQuery(projectID, f, p, blank)).value);
              && r.value.ids == TrimPage(rows, (s: Subscription) => s.uid, p.perPage).1
              && r.value.subscriptions == TrimPage(rows, (s: Subscription) => s.uid, p.perPage).0
              && (|rows| == 0 ==> r.value.prevRowCount == 0)
    ensures r.Success? && |runPage(BuildSubscriptionPageQuery(projectID, f, p, blank)).value| > 0 ==>
              var q := BuildSubscriptionPageQuery(projectID, f, p, blank);
              var cq := q.(cursor := runPage(q).value[0].uid);
              r.value.prevRowCount == runCount(cq).value.GetOr(0)
  {
    var q := BuildSubscriptionPageQuery(projectID, f, p, blank);
    var raw :- runPage(q);
    var rows := NormaliseAll(raw);
    var count :- if |rows| > 0 then runCount(q.(cursor := rows[0].uid)) else Success(None);
    var trimmed := TrimPage(rows, (s: Subscription) => s.uid, p.perPage);
    Success(SubscriptionPage(trimmed.0, trimmed.1, count.GetOr(0)))
  }

  /** A successful page is the normalised rows in order, less at most the
      one extra row fetched to detect a next page; the ids cover every
      fetched row, the page's own subscriptions first. */
  lemma LoadedSubscriptionPageIsPrefix(
    projectID: string, f: FilterBy, p: Pageable,
    blank: string -> bool,
    runPage: SubscriptionPageQuery -> Result<seq<Subscription>, string>,
    runCount: SubscriptionPageQuery -> Result<Option<int>, string>)
    requires p.perPage >= 0
    requires LoadSubscriptionsPaged(projectID, f, p, blank, runPage, runCount).Success?
    ensures var page := LoadSubscriptionsPaged(projectID, f, p, blank, runPage, runCount).value;
            var rows := NormaliseAll(runPage(BuildSubscriptionPageQuery(projectID, f, p, blank)).value);
            && page.subscriptions <= rows
            && |page.subscriptions| == (if |rows| > p.perPage then |rows| - 1 else |rows|)
            && |page.ids| == |rows|
            && (forall k :: 0 <= k < |page.subscriptions| ==> page.ids[k] == page.subscriptions[k].uid)
            && (forall k :: 0 <= k < |page.subscriptions| ==> Normalised(page.subscriptions[k]))
  {
    var page := LoadSubscriptionsPaged(projectID, f, p, blank, runPage, runCount).value;
    var raw := runPage(BuildSubscriptionPageQuery(projectID, f, p, blank)).value;
    var rows := NormaliseAll(raw);
    if |rows| > p.perPage {
      assert rows == page.subscriptions + [rows[|rows| - 1]];
    }
    forall k | 0 <= k < |page.subscriptions| ensures page.ids[k] == page.subscriptions[k].uid && Normalised(page.subscriptions[k]) {
      assert rows[k] == page.subscriptions[k];
      NormaliseAllAt(raw, k);
      NullifyEmptyConfigSpec(raw[k]);
    }
  }

  // ---------------------------------------------------------------------
  // TestSubscriptionFilter / CompareFlattenedPayload

  /** A decoded JSON value: already a flattened map, or some other Go
      type (named by `typeName`). */
  datatype Value = FlatMap(doc: Doc) | OtherValue(typeName: string)

  /** `TestSubscriptionFilter`: nil on either side matches without any
      flattening or comparison. */
  function TestSubscriptionFilter(
    payload: Option<Value>, filter: Option<Value>, isFlattened: bool,
    flattenValue: Value -> Result<Doc, string>,
    compare: (Doc, Doc) -> Result<bool, string>): (r: Result<bool, string>)
    ensures payload.None? || filter.None? ==> r == Success(true)
    ensures payload.Some? && filter.Some? && flattenValue(payload.value).Failure? ==>
              r == Failure(flattenValue(payload.value).error)
    ensures payload.Some? && filter.Some? && isFlattened && filter.value.OtherValue? ==>
              r == (if flattenValue(payload.value).Failure? then Failure(flattenValue(payload.value).error)
                    else Failure("unknown type " + filter.value.typeName + " for filter"))
    ensures payload.Some? && filter.Some? && isFlattened && filter.value.FlatMap? && flattenValue(payload.value).Success? ==>
              r == compare(flattenValue(payload.value).value, filter.value.doc)
    ensures payload.Some? && filter.Some? && !isFlattened && flattenValue(payload.value).Success? ==>
              r == (if flattenValue(filter.value).Failure? then Failure(flattenValue(filter.value).error)
                    else compare(flattenValue(payload.value).value, flattenValue(filter.value).value))
  {
    if payload.None? || filter.None? then Success(true)
    else
      var p :- flattenValue(payload.value);
      var f :- if isFlattened then Success(filter.value)
               else (match flattenValue(filter.value)
                     case Failure(e) => Failure(e)
                     case Success(d) => Success(FlatMap(d)));
      match f
      case OtherValue(name) => Failure("unknown type " + name + " for filter")
      case FlatMap(d) => compare(p, d)
  }

  /** `CompareFlattenedPayload`: the same short-circuit on flattened maps. */
  function CompareFlattenedPayload(
    payload: Option<Doc>, filter: Option<Doc>, isFlattened: bool,
    flatten: Doc -> Result<Doc, string>,
    compare: (Doc, Doc) -> Result<bool, string>): (r: Result<bool, string>)
    ensures payload.None? || filter.None? ==> r == Success(true)
    ensures payload.Some? && filter.Some? && isFlattened ==> r == compare(payload.value, filter.value)
    ensures payload.Some? && filter.Some? && !isFlattened ==>
              r == (if flatten(filter.value).Failure? then Failure(flatten(filter.value).error)
                    else compare(payload.value, flatten(filter.value).value))
  {
    if payload.None? || filter.None? then Success(true)
    else
      var f :- if isFlattened then Success(filter.value) else flatten(filter.value);
      compare(payload.value, f)
  }

  /** With a filter that is already a flattened map and a payload that
      flattens, `TestSubscriptionFilter` decides as `CompareFlattenedPayload`
      does on the flattened payload. */
  lemma TestAgreesWithCompareFlattened(
    pv: Value, d: Doc, isFlattened: bool,
    flattenValue: Value -> Result<Doc, string>,
    compare: (Doc, Doc) -> Result<bool, string>)
    requires flattenValue(pv).Success?
    ensures TestSubscriptionFilter(Some(pv), Some(FlatMap(d)), isFlattened, flattenValue, compare)
            == CompareFlattenedPayload(Some(flattenValue(pv).value), Some(d), isFlattened,
                                       (x: Doc) => flattenValue(FlatMap(x)), compare)
  {
  }
}
