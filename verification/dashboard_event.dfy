/** The request-filter construction shared by the dashboard's event and
    event-delivery handlers: which endpoints to filter by, which delivery
    statuses, and the creation-time window. Time parsing, the clock and
    the period check are inputs; `util.IsStringEmpty` is the `blank`
    parameter. */
module DashboardEvent {
  import opened Wrappers
  import opened Seqs

  // ---------------------------------------------------------------------
  // FindMessageDeliveryAttempt

  datatype DeliveryAttempt = DeliveryAttempt(uid: string, msgID: string, httpStatus: string, error: string)

  datatype LookupError = EventDeliveryAttemptNotFound

  /** The first attempt with the given id, or not-found. */
  function FindMessageDeliveryAttempt(attempts: seq<DeliveryAttempt>, id: string): (r: Result<DeliveryAttempt, LookupError>)
    ensures r.Failure? <==> forall k :: 0 <= k < |attempts| ==> attempts[k].uid != id
    ensures r.Failure? ==> r.error == EventDeliveryAttemptNotFound
    ensures r.Success? ==> exists k :: 0 <= k < |attempts| && attempts[k] == r.value && r.value.uid == id &&
                             forall j :: 0 <= j < k ==> attempts[j].uid != id
  {
    if |attempts| == 0 then Failure(EventDeliveryAttemptNotFound)
    else if attempts[0].uid == id then Success(attempts[0])
    else
      var r := FindMessageDeliveryAttempt(attempts[1..], id);
      assert forall k :: 1 <= k < |attempts| ==> attempts[k] == attempts[1..][k - 1];
      if r.Success? then
        var k :| 0 <= k < |attempts[1..]| && attempts[1..][k] == r.value && r.value.uid == id &&
                 forall j :: 0 <= j < k ==> attempts[1..][j].uid != id;
        assert attempts[k + 1] == r.value;
        assert forall j :: 0 <= j < k + 1 ==> attempts[j].uid != id by {
          forall j | 0 <= j < k + 1 ensures attempts[j].uid != id {
            if j > 0 { assert attempts[j] == attempts[1..][j - 1]; }
          }
        }
        r
      else r
  }

  /** When ids are unique the lookup returns the one attempt with that id. */
  lemma FindUnique(attempts: seq<DeliveryAttempt>, k: nat)
    requires k < |attempts|
    requires forall i, j :: 0 <= i < j < |attempts| ==> attempts[i].uid != attempts[j].uid
    ensures FindMessageDeliveryAttempt(attempts, attempts[k].uid) == Success(attempts[k])
  {
    var r := FindMessageDeliveryAttempt(attempts, attempts[k].uid);
    var i :| 0 <= i < |attempts| && attempts[i] == r.value && r.value.uid == attempts[k].uid &&
             forall j :: 0 <= j < i ==> attempts[j].uid != attempts[k].uid;
    if i < k {
      assert attempts[i].uid != attempts[k].uid;
    }
  }

  // ---------------------------------------------------------------------
  // Endpoint and status filters

  /** The endpoint ids a handler filters by: the endpoint-id list from the
      request context when it is non-empty, otherwise the single endpoint
      id when it is not blank, otherwise none (a nil list). */
  function SelectEndpoints(endpointID: string, endpointIDs: seq<string>, blank: string -> bool): (r: Option<seq<string>>)
    ensures |endpointIDs| > 0 ==> r == Some(endpointIDs)
    ensures |endpointIDs| == 0 && !blank(endpointID) ==> r == Some([endpointID])
    ensures r.None? <==> |endpointIDs| == 0 && blank(endpointID)
  {
    var endpoints := if !blank(endpointID) then Some([endpointID]) else None;
    if |endpointIDs| > 0 then Some(endpointIDs) else endpoints
  }

  /** The repeated `status` query values that are not blank, in order. */
  function StatusFilter(values: seq<string>, blank: string -> bool): (r: seq<string>)
    ensures |r| <= |values|
    ensures forall k :: 0 <= k < |r| ==> !blank(r[k])
  {
    if |values| == 0 then []
    else (if blank(values[0]) then [] else [values[0]]) + StatusFilter(values[1..], blank)
  }

  /** Each non-blank value is kept as often as it was given, each blank one
      dropped. */
  lemma {:induction false} StatusFilterCount(values: seq<string>, blank: string -> bool, s: string)
    ensures Count(StatusFilter(values, blank), s) == if blank(s) then 0 else Count(values, s)
  {
    if |values| > 0 {
      StatusFilterCount(values[1..], blank, s);
      CountAppend(if blank(values[0]) then [] else [values[0]], StatusFilter(values[1..], blank), s);
      assert Count(values, s) == Count(values[1..], s) + (if values[0] == s then 1 else 0);
    }
  }

  /** The filter keeps the query's order: filtering a concatenation is
      concatenating the filtered parts. */
  lemma {:induction false} StatusFilterAppend(a: seq<string>, b: seq<string>, blank: string -> bool)
    ensures StatusFilter(a + b, blank) == StatusFilter(a, blank) + StatusFilter(b, blank)
  {
    if |a| == 0 {
      assert a + b == b;
    } else {
      assert (a + b)[1..] == a[1..] + b;
      StatusFilterAppend(a[1..], b, blank);
    }
  }

  // ---------------------------------------------------------------------
  // getSearchParams

  /** A point in time: seconds since the Unix epoch and the nanoseconds
      within that second. */
  datatype Time = Time(unix: int, nanos: nat)

  datatype SearchParams = SearchParams(createdAtStart: int, createdAtEnd: int)

  const DateLayout: string := "2006-01-02T15:04:05"
  const StartDateError: string := "please specify a startDate in the format " + DateLayout
  const EndDateError: string := "please specify a correct endDate in the format " + DateLayout + " or none at all"

  /** The time window of a request. An absent start is the Unix epoch and
      an absent end is the last nanosecond of the current day
      (`endOfToday`, read from the clock). A date that `parse` rejects
      fails with its fixed message, the start date being checked first;
      a failure of `ensurePeriod` is passed on. */
  function GetSearchParams(startDate: string, endDate: string, parse: string -> Option<Time>, endOfToday: Time,
                           ensurePeriod: (Time, Time) -> Option<string>): (r: Result<SearchParams, string>)
    ensures |startDate| > 0 && parse(startDate).None? ==> r == Failure(StartDateError)
    ensures (|startDate| == 0 || parse(startDate).Some?) && |endDate| > 0 && parse(endDate).None? ==>
              r == Failure(EndDateError)
    ensures var start := if |startDate| == 0 then Time(0, 0) else parse(startDate).GetOr(Time(0, 0));
            var end := if |endDate| == 0 then endOfToday else parse(endDate).GetOr(endOfToday);
            (|startDate| == 0 || parse(startDate).Some?) && (|endDate| == 0 || parse(endDate).Some?) ==>
              && (ensurePeriod(start, end).Some? ==> r == Failure(ensurePeriod(start, end).value))
              && (ensurePeriod(start, end).None? ==> r == Success(SearchParams(start.unix, end.unix)))
  {
    var start :- if |startDate| == 0 then Success(Time(0, 0))
                 else match parse(startDate) case Some(t) => Success(t) case None => Failure(StartDateError);
    var end :- if |endDate| == 0 then Success(endOfToday)
               else match parse(endDate) case Some(t) => Success(t) case None => Failure(EndDateError);
    match ensurePeriod(start, end)
    case Some(e) => Failure(e)
    case None => Success(SearchParams(start.unix, end.unix))
  }

  /** With no dates given, the window runs from the epoch to the end of
      the current day. */
  lemma DefaultWindow(parse: string -> Option<Time>, endOfToday: Time, ensurePeriod: (Time, Time) -> Option<string>)
    requires ensurePeriod(Time(0, 0), endOfToday).None?
    ensures GetSearchParams("", "", parse, endOfToday, ensurePeriod) == Success(SearchParams(0, endOfToday.unix))
  {
  }

  // ---------------------------------------------------------------------
  // The delivery filter of BatchRetryEventDelivery and its siblings

  datatype DeliveryFilter = DeliveryFilter(projectID: string, endpointIDs: Option<seq<string>>, eventID: string,
                                           status: seq<string>, searchParams: SearchParams)

  /** The filter a batch-retry or count request builds, or the message of
      the bad-request response when the time window is rejected. */
  function BuildDeliveryFilter(projectID: string, statusValues: seq<string>, startDate: string, endDate: string,
                               endpointID: string, endpointIDs: seq<string>, eventID: string,
                               blank: string -> bool, parse: string -> Option<Time>, endOfToday: Time,
                               ensurePeriod: (Time, Time) -> Option<string>): (r: Result<DeliveryFilter, string>)
    ensures var p := GetSearchParams(startDate, endDate, parse, endOfToday, ensurePeriod);
            && (r.Failure? <==> p.Failure?)
            && (r.Failure? ==> r.error == p.error)
            && (r.Success? ==>
                  && r.value.searchParams == p.value
                  && r.value.endpointIDs == SelectEndpoints(endpointID, endpointIDs, blank)
                  && r.value.status == StatusFilter(statusValues, blank)
                  && r.value.projectID == projectID && r.value.eventID == eventID)
  {
    var status := StatusFilter(statusValues, blank);
    var params :- GetSearchParams(startDate, endDate, parse, endOfToday, ensurePeriod);
    Success(DeliveryFilter(projectID, SelectEndpoints(endpointID, endpointIDs, blank), eventID, status, params))
  }
}
