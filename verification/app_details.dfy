/** The application details page: loading the application and, for
    projects that are not incoming, its portal link and the iframe that
    embeds it; revealing an endpoint secret; deleting the selected
    endpoint; the small-screen breakpoint. Every HTTP response and the
    feature flag are inputs. Each asynchronous step is modelled by the
    state it leaves once its response has arrived. */
module AppDetails {
  import opened Wrappers
  import opened ProjectView

  datatype Endpoint = Endpoint(uid: string, targetURL: string, secret: string)

  datatype App = App(uid: string, name: string, endpoints: seq<Endpoint>)

  datatype Tab = CliKeys | Devices

  datatype AppDetailsState = AppDetailsState(
    showAddEndpointModal: bool,
    showEndpointSecret: bool,
    loadingAppPortalToken: bool,
    isLoadingAppDetails: bool,
    shouldRenderSmallSize: bool,
    showDeleteModal: bool,
    isDeletingEndpoint: bool,
    screenWidth: int,
    appPortalLink: Option<string>,
    appPortalIframe: Option<string>,
    endpointSecretKey: Option<string>,
    appsDetailsItem: Option<App>,
    selectedEndpoint: Option<Endpoint>,
    activeTab: Tab,
    isCliAvailable: bool)

  const SmallSizeMaxWidth: int := 1010

  /** The page as constructed: every flag off, nothing loaded, the CLI
      keys tab active. */
  function Initial(screenWidth: int): (v: AppDetailsState)
    ensures !v.loadingAppPortalToken && !v.isLoadingAppDetails && !v.showEndpointSecret
    ensures v.appsDetailsItem.None? && v.selectedEndpoint.None? && v.appPortalLink.None?
    ensures v.activeTab == CliKeys && v.screenWidth == screenWidth
  {
    AppDetailsState(false, false, false, false, false, false, false, screenWidth,
                    None, None, None, None, None, CliKeys, false)
  }

  /** Toggles the secret's visibility and remembers which secret is shown. */
  function ViewEndpointSecretKey(v: AppDetailsState, secretKey: string): (r: AppDetailsState)
    ensures r.showEndpointSecret != v.showEndpointSecret
    ensures r.endpointSecretKey == Some(secretKey)
    ensures r.(showEndpointSecret := v.showEndpointSecret, endpointSecretKey := v.endpointSecretKey) == v
  {
    v.(showEndpointSecret := !v.showEndpointSecret, endpointSecretKey := Some(secretKey))
  }

  /** Clicking the same secret twice hides it again. */
  lemma ViewSecretTwice(v: AppDetailsState, secretKey: string)
    ensures ViewEndpointSecretKey(ViewEndpointSecretKey(v, secretKey), secretKey) == v.(endpointSecretKey := Some(secretKey))
  {
  }

  // ---------------------------------------------------------------------
  // The portal token

  const IframeOpen: string := "<iframe style=\"width: 100%; height: 98%; border: none;\" frameborder=\"0\" src=\""
  const IframeClose: string := "\"></iframe>"

  /** The markup that embeds the portal page at `url`. */
  function IframeMarkup(url: string): (m: string)
    ensures |m| == |IframeOpen| + |url| + |IframeClose|
    ensures m[..|IframeOpen|] == IframeOpen && m[|m| - |IframeClose|..] == IframeClose
  {
    IframeOpen + url + IframeClose
  }

  /** The `src` of markup built by `IframeMarkup`. */
  function IframeSrc(m: string): Option<string>
  {
    if |m| >= |IframeOpen| + |IframeClose| && m[..|IframeOpen|] == IframeOpen && m[|m| - |IframeClose|..] == IframeClose
    then Some(m[|IframeOpen|..|m| - |IframeClose|])
    else None
  }

  /** The iframe embeds exactly the link it was built from. */
  lemma IframeEmbedsLink(url: string)
    ensures IframeSrc(IframeMarkup(url)) == Some(url)
  {
    var m := IframeMarkup(url);
    assert m[|IframeOpen|..|m| - |IframeClose|] == url;
  }

  /** Fetching the application portal link. Nothing happens for an
      incoming project. Otherwise a link is requested for the loaded
      application: a response stores the link and the iframe built from
      it, and either way the loading flag ends off. Without a loaded
      application the request is never sent and the error path is
      taken. */
  function GetAppPortalToken(v: AppDetailsState, activeType: Option<ProjectType>, token: Result<string, string>): (r: AppDetailsState)
    ensures activeType == Some(Incoming) ==> r == v
    ensures activeType != Some(Incoming) ==> !r.loadingAppPortalToken
    ensures activeType != Some(Incoming) && v.appsDetailsItem.Some? && token.Success? ==>
              r.appPortalLink == Some(token.value) && r.appPortalIframe == Some(IframeMarkup(token.value))
    ensures r.appPortalLink != v.appPortalLink ==> r.appPortalLink.Some? && r.appPortalIframe == Some(IframeMarkup(r.appPortalLink.value))
    ensures r.appsDetailsItem == v.appsDetailsItem && r.selectedEndpoint == v.selectedEndpoint
    ensures r.isLoadingAppDetails == v.isLoadingAppDetails
    ensures r.shouldRenderSmallSize == v.shouldRenderSmallSize && r.isCliAvailable == v.isCliAvailable
    ensures r.showDeleteModal == v.showDeleteModal && r.isDeletingEndpoint == v.isDeletingEndpoint
  {
    if activeType == Some(Incoming) then v
    else
      var response := if v.appsDetailsItem.None? then Failure("the application is not loaded") else token;
      match response
      case Success(url) =>
        v.(appPortalLink := Some(url), appPortalIframe := Some(IframeMarkup(url)), loadingAppPortalToken := false)
      case Failure(_) => v.(loadingAppPortalToken := false)
  }

  /** Loading an application: the selected endpoint is cleared; on success
      the application is stored and its portal link fetched; either way
      loading ends. */
  function GetAppDetails(v: AppDetailsState, app: Result<App, string>, activeType: Option<ProjectType>,
                         token: Result<string, string>): (r: AppDetailsState)
    ensures r.selectedEndpoint.None? && !r.isLoadingAppDetails
    ensures app.Success? ==> r.appsDetailsItem == Some(app.value)
    ensures app.Failure? ==> r.appsDetailsItem == v.appsDetailsItem && r.appPortalLink == v.appPortalLink
    ensures app.Success? && activeType != Some(Incoming) ==> !r.loadingAppPortalToken
    ensures app.Success? && activeType != Some(Incoming) && token.Success? ==> r.appPortalLink == Some(token.value)
    ensures activeType == Some(Incoming) ==> r.appPortalLink == v.appPortalLink
    ensures r.shouldRenderSmallSize == v.shouldRenderSmallSize && r.isCliAvailable == v.isCliAvailable
    ensures r.showDeleteModal == v.showDeleteModal && r.isDeletingEndpoint == v.isDeletingEndpoint
  {
    var cleared := v.(selectedEndpoint := None, isLoadingAppDetails := true);
    match app
    case Success(a) =>
      var loaded := GetAppPortalToken(cleared.(appsDetailsItem := Some(a)), activeType, token);
      loaded.(isLoadingAppDetails := false)
    case Failure(_) => cleared.(isLoadingAppDetails := false)
  }

  /** Recomputes whether the page renders in its small layout. */
  function CheckScreenSize(v: AppDetailsState): (r: AppDetailsState)
    ensures r.shouldRenderSmallSize <==> v.screenWidth <= SmallSizeMaxWidth
    ensures r.(shouldRenderSmallSize := v.shouldRenderSmallSize) == v
  {
    v.(shouldRenderSmallSize := !(v.screenWidth > SmallSizeMaxWidth))
  }

  /** Opening the page: loading starts, the CLI-key flag is read, an
      outgoing project starts loading its portal link, the layout is
      chosen and the application is loaded. A rejected flag lookup ends
      the initialisation with loading started and nothing else done. */
  function NgOnInit(v: AppDetailsState, cliFlag: Result<bool, string>, activeType: Option<ProjectType>,
                    app: Result<App, string>, token: Result<string, string>): (r: AppDetailsState)
    ensures cliFlag.Failure? ==> r == v.(isLoadingAppDetails := true)
    ensures cliFlag.Success? ==> r.isCliAvailable == cliFlag.value
    ensures cliFlag.Success? ==> (r.shouldRenderSmallSize <==> v.screenWidth <= SmallSizeMaxWidth)
    ensures cliFlag.Success? ==> !r.isLoadingAppDetails && r.selectedEndpoint.None?
  {
    match cliFlag
    case Failure(_) => v.(isLoadingAppDetails := true)
    case Success(flag) =>
      var started := v.(isLoadingAppDetails := true, isCliAvailable := flag);
      var portal := if activeType == Some(Outgoing) then started.(loadingAppPortalToken := true) else started;
      GetAppDetails(CheckScreenSize(portal), app, activeType, token)
  }

  /** Once the responses are in, opening the page leaves nothing loading,
      for every project type, as long as the flag and the application
      load; when the application does not, an outgoing project's portal
      link stays loading; when the flag does not, the page stays loading. */
  lemma OpenPageLoadingEnds(screenWidth: int, cliFlag: Result<bool, string>, activeType: Option<ProjectType>,
                            app: Result<App, string>, token: Result<string, string>)
    ensures var r := NgOnInit(Initial(screenWidth), cliFlag, activeType, app, token);
            && (r.isLoadingAppDetails <==> cliFlag.Failure?)
            && (r.loadingAppPortalToken <==> cliFlag.Success? && app.Failure? && activeType == Some(Outgoing))
  {
  }

  // ---------------------------------------------------------------------
  // Deleting an endpoint

  /** The ids a delete request names: the loaded application's, if any, and
      the selected endpoint's, or the empty id when none is selected or
      its id is empty. */
  function DeleteRequest(v: AppDetailsState): (r: (Option<string>, string))
    ensures r.0.Some? <==> v.appsDetailsItem.Some?
    ensures r.0.Some? ==> r.0.value == v.appsDetailsItem.value.uid
    ensures r.1 != "" <==> v.selectedEndpoint.Some? && v.selectedEndpoint.value.uid != ""
    ensures r.1 != "" ==> r.1 == v.selectedEndpoint.value.uid
  {
    (if v.appsDetailsItem.Some? then Some(v.appsDetailsItem.value.uid) else None,
     if v.selectedEndpoint.Some? && v.selectedEndpoint.value.uid != "" then v.selectedEndpoint.value.uid else "")
  }

  /** Deleting the selected endpoint: on success the modal closes and the
      application is reloaded (which clears the selection); on failure
      only the deleting flag is reset. */
  function DeleteEndpoint(v: AppDetailsState, deleted: Result<string, string>, app: Result<App, string>,
                          activeType: Option<ProjectType>, token: Result<string, string>): (r: AppDetailsState)
    ensures !r.isDeletingEndpoint
    ensures deleted.Failure? ==> r == v.(isDeletingEndpoint := false)
    ensures deleted.Success? ==> !r.showDeleteModal && r.selectedEndpoint.None? && !r.isLoadingAppDetails
  {
    match deleted
    case Failure(_) => v.(isDeletingEndpoint := false)
    case Success(_) => GetAppDetails(v.(showDeleteModal := false, isDeletingEndpoint := false), app, activeType, token)
  }

  /** Switches between the CLI keys and devices tabs. */
  function ToggleActiveTab(v: AppDetailsState, tab: Tab): (r: AppDetailsState)
    ensures r.activeTab == tab && r.(activeTab := v.activeTab) == v
  {
    v.(activeTab := tab)
  }

  /** Closing the endpoint form also drops the selection. */
  function CloseEditEndpointModal(v: AppDetailsState): (r: AppDetailsState)
    ensures !r.showAddEndpointModal && r.selectedEndpoint.None?
    ensures r.(showAddEndpointModal := v.showAddEndpointModal, selectedEndpoint := v.selectedEndpoint) == v
  {
    v.(showAddEndpointModal := false, selectedEndpoint := None)
  }

  /** After the endpoint form is closed a delete request names no
      endpoint. */
  lemma ClosedFormDeletesNothing(v: AppDetailsState)
    ensures DeleteRequest(CloseEditEndpointModal(v)).1 == ""
  {
  }

  /** A resize records the new width and recomputes the layout. */
  function OnWindowResize(v: AppDetailsState, innerWidth: int): (r: AppDetailsState)
    ensures r.screenWidth == innerWidth
    ensures r.shouldRenderSmallSize <==> innerWidth <= SmallSizeMaxWidth
  {
    CheckScreenSize(v.(screenWidth := innerWidth))
  }
}
