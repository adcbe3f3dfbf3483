/** The subscriptions page: whether the create-subscription modal opens
    from the URL, loading a page of subscriptions, and which subscription
    the `id` query parameter selects. The HTTP service and the router are
    inputs; the logged error is left out. */
module SubscriptionsView {
  import opened Wrappers
  import opened Seqs

  datatype Subscription = Subscription(uid: string, name: string)

  datatype Pagination = Pagination(page: nat, totalPages: nat)

  datatype SubscriptionPage = SubscriptionPage(content: seq<Subscription>, pagination: Pagination)

  datatype SubscriptionsState = SubscriptionsState(activeSubscription: Option<Subscription>,
                                                   shouldShowCreateSubscriptionModal: bool,
                                                   subscriptions: Option<SubscriptionPage>)

  /** The modal opens when the fifth '/'-separated segment of the URL is
      "new"; a URL with fewer segments has none, which is not "new". */
  function ShowCreateModal(url: string): (r: bool)
    ensures r <==> |Split(url, '/')| > 4 && Split(url, '/')[4] == "new"
  {
    var parts := Split(url, '/');
    if |parts| <= 4 then false else parts[4] == "new"
  }

  /** For a URL made of '/'-free segments, the modal opens exactly when
      there is a fifth segment and it is "new". */
  lemma ShowCreateModalSegments(parts: seq<string>)
    requires |parts| >= 1 && forall k :: 0 <= k < |parts| ==> '/' !in parts[k]
    ensures ShowCreateModal(Join(parts, '/')) <==> |parts| > 4 && parts[4] == "new"
  {
    SplitJoin(parts, '/');
  }

  /** The create route of a project opens the modal. */
  lemma ShowCreateModalOnCreateRoute(projectID: string)
    requires '/' !in projectID
    ensures ShowCreateModal("/projects/" + projectID + "/subscriptions/new")
  {
    var parts := ["", "projects", projectID, "subscriptions", "new"];
    JoinCreateRoute(projectID);
    SegmentsSlashFree(parts);
    ShowCreateModalSegments(parts);
  }

  /** The list route of a project does not. */
  lemma NoCreateModalOnListRoute(projectID: string)
    requires '/' !in projectID
    ensures !ShowCreateModal("/projects/" + projectID + "/subscriptions")
  {
    var parts := ["", "projects", projectID, "subscriptions"];
    JoinListRoute(projectID);
    SegmentsSlashFree(parts);
    ShowCreateModalSegments(parts);
  }

  lemma JoinCreateRoute(projectID: string)
    ensures Join(["", "projects", projectID, "subscriptions", "new"], '/') == "/projects/" + projectID + "/subscriptions/new"
  {
    assert ["", "projects"] + [projectID] + ["subscriptions", "new"] == ["", "projects", projectID, "subscriptions", "new"];
    JoinAround(["", "projects"], projectID, ["subscriptions", "new"], '/');
    assert Join(["", "projects"], '/') + ['/'] == "/projects/" by {
      assert ["", "projects"][1..] == ["projects"];
    }
    assert ['/'] + Join(["subscriptions", "new"], '/') == "/subscriptions/new" by {
      assert ["subscriptions", "new"][1..] == ["new"];
    }
  }

  lemma JoinListRoute(projectID: string)
    ensures Join(["", "projects", projectID, "subscriptions"], '/') == "/projects/" + projectID + "/subscriptions"
  {
    assert ["", "projects"] + [projectID] + ["subscriptions"] == ["", "projects", projectID, "subscriptions"];
    JoinAround(["", "projects"], projectID, ["subscriptions"], '/');
    assert Join(["", "projects"], '/') + ['/'] == "/projects/" by {
      assert ["", "projects"][1..] == ["projects"];
    }
    assert ['/'] + Join(["subscriptions"], '/') == "/subscriptions";
  }

  /** The fixed route segments contain no '/'. */
  lemma SegmentsSlashFree(parts: seq<string>)
    requires 4 <= |parts| <= 5 && parts[0] == "" && parts[1] == "projects" && '/' !in parts[2]
    requires parts[3] == "subscriptions" && (|parts| == 5 ==> parts[4] == "new")
    ensures forall k :: 0 <= k < |parts| ==> '/' !in parts[k]
  {
  }

  /** The page as constructed from the current URL. */
  function Initial(url: string): (v: SubscriptionsState)
    ensures v.activeSubscription.None? && v.subscriptions.None?
    ensures v.shouldShowCreateSubscriptionModal == ShowCreateModal(url)
  {
    SubscriptionsState(None, ShowCreateModal(url), None)
  }

  /** Loading a page of subscriptions: a response replaces the list, a
      failure leaves the page as it was. */
  function GetSubscriptions(v: SubscriptionsState, response: Result<SubscriptionPage, string>): (r: SubscriptionsState)
    ensures response.Success? ==> r.subscriptions == Some(response.value)
    ensures response.Failure? ==> r == v
    ensures r.activeSubscription == v.activeSubscription
    ensures r.shouldShowCreateSubscriptionModal == v.shouldShowCreateSubscriptionModal
  {
    match response
    case Success(page) => v.(subscriptions := Some(page))
    case Failure(_) => v
  }

  /** The first subscription whose uid is the given id; none when the id
      is absent or matches nothing. */
  function FindByUid(subs: seq<Subscription>, id: Option<string>): (r: Option<Subscription>)
    ensures r.None? <==> id.None? || forall k :: 0 <= k < |subs| ==> subs[k].uid != id.value
    ensures r.Some? ==> exists k :: 0 <= k < |subs| && subs[k] == r.value && r.value.uid == id.value &&
                          forall j :: 0 <= j < k ==> subs[j].uid != id.value
  {
    if id.None? || |subs| == 0 then None
    else if subs[0].uid == id.value then Some(subs[0])
    else
      var r := FindByUid(subs[1..], id);
      assert forall k :: 1 <= k < |subs| ==> subs[k] == subs[1..][k - 1];
      if r.Some? then
        var k :| 0 <= k < |subs[1..]| && subs[1..][k] == r.value && r.value.uid == id.value &&
                 forall j :: 0 <= j < k ==> subs[1..][j].uid != id.value;
        assert subs[k + 1] == r.value;
        assert forall j :: 0 <= j < k + 1 ==> subs[j].uid != id.value by {
          forall j | 0 <= j < k + 1 ensures subs[j].uid != id.value {
            if j > 0 { assert subs[j] == subs[1..][j - 1]; }
          }
        }
        r
      else r
  }

  /** With unique uids, the subscription a link points at is the one
      selected. */
  lemma FindByUidUnique(subs: seq<Subscription>, k: nat)
    requires k < |subs|
    requires forall i, j :: 0 <= i < j < |subs| ==> subs[i].uid != subs[j].uid
    ensures FindByUid(subs, Some(subs[k].uid)) == Some(subs[k])
  {
    var r := FindByUid(subs, Some(subs[k].uid));
    var i :| 0 <= i < |subs| && subs[i] == r.value && r.value.uid == subs[k].uid &&
             forall j :: 0 <= j < i ==> subs[j].uid != subs[k].uid;
    if i < k {
      assert subs[i].uid != subs[k].uid;
    }
  }

  /** A change of the query parameters selects the subscription they name
      from the loaded list; with no list loaded nothing is selected. */
  function OnQueryParams(v: SubscriptionsState, id: Option<string>): (r: SubscriptionsState)
    ensures v.subscriptions.None? ==> r.activeSubscription.None?
    ensures v.subscriptions.Some? ==> r.activeSubscription == FindByUid(v.subscriptions.value.content, id)
    ensures v.subscriptions.Some? ==>
              (r.activeSubscription.Some? <==>
                 id.Some? && exists k :: 0 <= k < |v.subscriptions.value.content| && v.subscriptions.value.content[k].uid == id.value)
    ensures r.activeSubscription.Some? ==> v.subscriptions.Some? && id == Some(r.activeSubscription.value.uid) &&
                                           r.activeSubscription.value in v.subscriptions.value.content
    ensures r.subscriptions == v.subscriptions
    ensures r.shouldShowCreateSubscriptionModal == v.shouldShowCreateSubscriptionModal
  {
    var active := if v.subscriptions.None? then None else FindByUid(v.subscriptions.value.content, id);
    v.(activeSubscription := active)
  }

  /** Opening the page: the list is loaded first, then the id in the query
      parameters selects from it. A failed load selects nothing. */
  lemma OpenPage(url: string, response: Result<SubscriptionPage, string>, id: Option<string>)
    ensures var v := OnQueryParams(GetSubscriptions(Initial(url), response), id);
            && (response.Failure? ==> v.activeSubscription.None? && v.subscriptions.None?)
            && (response.Success? ==> v.activeSubscription == FindByUid(response.value.content, id))
            && v.shouldShowCreateSubscriptionModal == ShowCreateModal(url)
  {
  }
}
