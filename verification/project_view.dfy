/** The project shell of the dashboard: the side bar, whose last entry is
    "Portal Links" exactly for outgoing projects, the project badge's
    initials, the stroke-icon test and the wide-screen breakpoint. The
    project service, the router and local storage are left out; what they
    return is an input. */
module ProjectView {
  import opened Wrappers
  import opened Seqs

  datatype SideBarItem = SideBarItem(name: string, icon: string, route: string)

  /** An outgoing project sends webhooks to endpoints; an incoming one
      receives them through sources. */
  datatype ProjectType = Incoming | Outgoing

  datatype Project = Project(uid: string, projectType: ProjectType)

  /** The entries every project shows, in order. */
  const InitialSideBar: seq<SideBarItem> := [
    SideBarItem("Event Deliveries", "events", "/events"),
    SideBarItem("Sources", "sources", "/sources"),
    SideBarItem("Subscriptions", "subscriptions", "/subscriptions"),
    SideBarItem("Endpoints", "endpoint", "/endpoints"),
    SideBarItem("Events Log", "logs", "/events-log"),
    SideBarItem("Meta Events", "meta", "/meta-events")
  ]

  /** The entry only outgoing projects show. */
  const PortalLinks: SideBarItem := SideBarItem("Portal Links", "portal", "/portal-links")

  const FullSideBarMinWidth: int := 1150

  datatype ProjectViewState = ProjectViewState(sideBarItems: seq<SideBarItem>, projectDetails: Option<Project>,
                                               isLoadingProjectDetails: bool, screenWidth: int,
                                               shouldShowFullSideBar: bool)

  /** The component as constructed, before any project is known. */
  function Initial(screenWidth: int): (v: ProjectViewState)
    ensures v.sideBarItems == InitialSideBar && PortalLinks !in v.sideBarItems
    ensures v.projectDetails.None? && v.isLoadingProjectDetails && v.shouldShowFullSideBar
  {
    ProjectViewState(InitialSideBar, None, true, screenWidth, true)
  }

  /** The side bar that belongs to a project of the given type. */
  predicate SideBarMatches(items: seq<SideBarItem>, t: ProjectType)
  {
    items == if t == Outgoing then InitialSideBar + [PortalLinks] else InitialSideBar
  }

  function Last<T>(s: seq<T>): T
    requires |s| > 0
  {
    s[|s| - 1]
  }

  /** Loading the active project at start-up. A failed lookup only ends
      the loading state; an undefined project is stored as such; an
      outgoing project gets "Portal Links" appended. */
  function GetProjectDetails(v: ProjectViewState, fetched: Result<Option<Project>, string>): (r: ProjectViewState)
    ensures !r.isLoadingProjectDetails
    ensures fetched.Failure? ==> r == v.(isLoadingProjectDetails := false)
    ensures fetched.Success? ==> r.projectDetails == fetched.value
    ensures r.sideBarItems == v.sideBarItems || r.sideBarItems == v.sideBarItems + [PortalLinks]
    ensures r.sideBarItems == v.sideBarItems + [PortalLinks] <==>
              fetched.Success? && fetched.value.Some? && fetched.value.value.projectType == Outgoing
    ensures r.screenWidth == v.screenWidth && r.shouldShowFullSideBar == v.shouldShowFullSideBar
  {
    match fetched
    case Failure(_) => v.(isLoadingProjectDetails := false)
    case Success(details) =>
      var items := if details.Some? && details.value.projectType == Outgoing then v.sideBarItems + [PortalLinks]
                   else v.sideBarItems;
      v.(projectDetails := details, sideBarItems := items, isLoadingProjectDetails := false)
  }

  /** After the start-up load the side bar is the one of the loaded
      project's type. */
  lemma StartUpSideBar(screenWidth: int, p: Project)
    ensures SideBarMatches(GetProjectDetails(Initial(screenWidth), Success(Some(p))).sideBarItems, p.projectType)
  {
  }

  function IsOutgoingProject(v: ProjectViewState): (r: bool)
    ensures r <==> exists uid :: v.projectDetails == Some(Project(uid, Outgoing))
  {
    v.projectDetails.Some? && v.projectDetails.value.projectType == Outgoing
  }

  // ---------------------------------------------------------------------
  // Switching projects

  /** The side-bar update of a project switch as the component writes it:
      "Portal Links" is appended for an outgoing project only when the
      last entry is "Endpoints", and removed for an incoming project when
      it is last. With an empty list the lookup of the last entry throws,
      and the error handler leaves the list as it is. */
  function SwitchSideBarAsWritten(items: seq<SideBarItem>, t: ProjectType): (r: seq<SideBarItem>)
    ensures r == items || r == items + [PortalLinks] || (|items| > 0 && r == items[..|items| - 1])
    ensures r == items + [PortalLinks] <==> t == Outgoing && |items| > 0 && Last(items).icon == "endpoint"
    ensures t == Incoming && |items| > 0 && Last(items).icon == "portal" ==> r == items[..|items| - 1]
    ensures (|items| == 0 || (t == Outgoing && Last(items).icon != "endpoint") || (t == Incoming && Last(items).icon != "portal"))
            ==> r == items
  {
    if |items| == 0 then items
    else if t == Outgoing && Last(items).icon == "endpoint" then items + [PortalLinks]
    else if t == Incoming && Last(items).icon == "portal" then items[..|items| - 1]
    else items
  }

  /** The list the component starts with ends in "Meta Events", so the
      guard never fires: after an outgoing project is left for an incoming
      one and then chosen again, its "Portal Links" entry is gone. */
  lemma PortalLinksLostAsWritten()
    ensures SideBarMatches(InitialSideBar + [PortalLinks], Outgoing)
    ensures SwitchSideBarAsWritten(InitialSideBar + [PortalLinks], Incoming) == InitialSideBar
    ensures SwitchSideBarAsWritten(InitialSideBar, Outgoing) == InitialSideBar
    ensures !SideBarMatches(SwitchSideBarAsWritten(SwitchSideBarAsWritten(InitialSideBar + [PortalLinks], Incoming),
                                                   Outgoing), Outgoing)
  {
    assert (InitialSideBar + [PortalLinks])[..|InitialSideBar|] == InitialSideBar;
    assert |InitialSideBar| != |InitialSideBar + [PortalLinks]|;
  }

  /** The side-bar update of a project switch with the guard the list
      needs: "Portal Links" is appended for an outgoing project unless it
      is already last, and removed for an incoming project when it is
      last. */
  function SwitchSideBar(items: seq<SideBarItem>, t: ProjectType): (r: seq<SideBarItem>)
    ensures r == items || r == items + [PortalLinks] || (|items| > 0 && r == items[..|items| - 1])
    ensures t == Outgoing && |items| > 0 ==> |r| > 0 && Last(r).icon == "portal"
    ensures t == Incoming && |items| > 0 && Last(items).icon == "portal" ==> r == items[..|items| - 1]
    ensures t == Incoming && (|items| == 0 || Last(items).icon != "portal") ==> r == items
  {
    if |items| == 0 then items
    else if t == Outgoing && Last(items).icon != "portal" then items + [PortalLinks]
    else if t == Incoming && Last(items).icon == "portal" then items[..|items| - 1]
    else items
  }

  /** With the corrected guard, a switch from any project to any other
      leaves the side bar of the new project's type. */
  lemma SwitchKeepsSideBarMatching(items: seq<SideBarItem>, from: ProjectType, to: ProjectType)
    requires SideBarMatches(items, from)
    ensures SideBarMatches(SwitchSideBar(items, to), to)
  {
    assert Last(InitialSideBar).icon == "meta";
    assert (InitialSideBar + [PortalLinks])[..|InitialSideBar|] == InitialSideBar;
  }

  /** Choosing a project from the project menu, as the component writes
      it: the project becomes the active one, the side bar gets the
      as-written update and loading ends, whether the refreshes that
      follow succeed or not. */
  function GetProjectCompleteDetails(v: ProjectViewState, project: Project): (r: ProjectViewState)
    ensures r.projectDetails == Some(project) && !r.isLoadingProjectDetails
    ensures r.sideBarItems == v.sideBarItems + [PortalLinks] <==>
              project.projectType == Outgoing && |v.sideBarItems| > 0 && Last(v.sideBarItems).icon == "endpoint"
    ensures project.projectType == Incoming && |v.sideBarItems| > 0 && Last(v.sideBarItems).icon == "portal" ==>
              r.sideBarItems == v.sideBarItems[..|v.sideBarItems| - 1]
    ensures (|| |v.sideBarItems| == 0
             || (project.projectType == Outgoing && Last(v.sideBarItems).icon != "endpoint")
             || (project.projectType == Incoming && Last(v.sideBarItems).icon != "portal"))
            ==> r.sideBarItems == v.sideBarItems
    ensures r.(projectDetails := v.projectDetails, sideBarItems := v.sideBarItems,
               isLoadingProjectDetails := v.isLoadingProjectDetails) == v
    ensures |r.sideBarItems| <= |v.sideBarItems| + 1 && |v.sideBarItems| <= |r.sideBarItems| + 1
    ensures r.screenWidth == v.screenWidth && r.shouldShowFullSideBar == v.shouldShowFullSideBar
  {
    v.(projectDetails := Some(project), sideBarItems := SwitchSideBarAsWritten(v.sideBarItems, project.projectType),
       isLoadingProjectDetails := false)
  }

  /** The same switch with the corrected side-bar guard. */
  function GetProjectCompleteDetailsFixed(v: ProjectViewState, project: Project): (r: ProjectViewState)
    ensures r.projectDetails == Some(project) && !r.isLoadingProjectDetails
    ensures project.projectType == Outgoing && |v.sideBarItems| > 0 ==> |r.sideBarItems| > 0 && Last(r.sideBarItems).icon == "portal"
    ensures r.(projectDetails := v.projectDetails, sideBarItems := v.sideBarItems,
               isLoadingProjectDetails := v.isLoadingProjectDetails) == v
    ensures |r.sideBarItems| <= |v.sideBarItems| + 1 && |v.sideBarItems| <= |r.sideBarItems| + 1
    ensures r.screenWidth == v.screenWidth && r.shouldShowFullSideBar == v.shouldShowFullSideBar
  {
    v.(projectDetails := Some(project), sideBarItems := SwitchSideBar(v.sideBarItems, project.projectType),
       isLoadingProjectDetails := false)
  }

  /** The switch as written and the corrected one differ exactly when an
      outgoing project is chosen while the side bar ends in neither
      "Endpoints" nor "Portal Links" (as the list the component starts
      with does, ending in "Meta Events"). */
  lemma SwitchAsWrittenDiffers(v: ProjectViewState, project: Project)
    ensures GetProjectCompleteDetails(v, project) != GetProjectCompleteDetailsFixed(v, project) <==>
              && project.projectType == Outgoing && |v.sideBarItems| > 0
              && Last(v.sideBarItems).icon != "endpoint" && Last(v.sideBarItems).icon != "portal"
  {
    var items := v.sideBarItems;
    if project.projectType == Outgoing && |items| > 0 && Last(items).icon != "endpoint" && Last(items).icon != "portal" {
      assert |GetProjectCompleteDetails(v, project).sideBarItems| != |GetProjectCompleteDetailsFixed(v, project).sideBarItems|;
    }
  }

  /** Any sequence of project switches, as written. */
  function SwitchAllAsWritten(v: ProjectViewState, projects: seq<Project>): ProjectViewState
    decreases |projects|
  {
    if |projects| == 0 then v else SwitchAllAsWritten(GetProjectCompleteDetails(v, projects[0]), projects[1..])
  }

  /** Once the side bar is the start-up list, no sequence of switches as
      written ever shows "Portal Links" again. */
  lemma {:induction false} AsWrittenNeverRegainsPortalLinks(v: ProjectViewState, projects: seq<Project>)
    requires v.sideBarItems == InitialSideBar
    ensures SwitchAllAsWritten(v, projects).sideBarItems == InitialSideBar
    decreases |projects|
  {
    if |projects| > 0 {
      assert Last(InitialSideBar).icon == "meta";
      AsWrittenNeverRegainsPortalLinks(GetProjectCompleteDetails(v, projects[0]), projects[1..]);
    }
  }

  /** Starting from an incoming project, choosing an outgoing one leaves
      the side bar without "Portal Links". */
  lemma IncomingThenOutgoingAsWritten(screenWidth: int, first: Project, next: Project)
    requires first.projectType == Incoming && next.projectType == Outgoing
    ensures var v := GetProjectCompleteDetails(GetProjectDetails(Initial(screenWidth), Success(Some(first))), next);
            v.projectDetails == Some(next) && !SideBarMatches(v.sideBarItems, Outgoing) && PortalLinks !in v.sideBarItems
  {
    assert Last(InitialSideBar).icon == "meta";
    assert |InitialSideBar| != |InitialSideBar + [PortalLinks]|;
  }

  /** Any sequence of project switches with the corrected guard. */
  function SwitchAll(v: ProjectViewState, projects: seq<Project>): ProjectViewState
    decreases |projects|
  {
    if |projects| == 0 then v else SwitchAll(GetProjectCompleteDetailsFixed(v, projects[0]), projects[1..])
  }

  /** With the corrected guard, however often the user switches, the side
      bar is the one of the project last chosen. */
  lemma {:induction false} SideBarFollowsProject(screenWidth: int, first: Project, projects: seq<Project>)
    requires |projects| > 0
    ensures var v := SwitchAll(GetProjectDetails(Initial(screenWidth), Success(Some(first))), projects);
            v.projectDetails == Some(Last(projects)) && SideBarMatches(v.sideBarItems, Last(projects).projectType)
  {
    SwitchAllMatches(GetProjectDetails(Initial(screenWidth), Success(Some(first))), projects);
  }

  lemma {:induction false} SwitchAllMatches(v: ProjectViewState, projects: seq<Project>)
    requires v.projectDetails.Some? && SideBarMatches(v.sideBarItems, v.projectDetails.value.projectType)
    ensures var w := SwitchAll(v, projects);
            && w.projectDetails.Some? && SideBarMatches(w.sideBarItems, w.projectDetails.value.projectType)
            && (|projects| > 0 ==> w.projectDetails == Some(Last(projects)))
    decreases |projects|
  {
    if |projects| > 0 {
      var next := GetProjectCompleteDetailsFixed(v, projects[0]);
      SwitchKeepsSideBarMatching(v.sideBarItems, v.projectDetails.value.projectType, projects[0].projectType);
      SwitchAllMatches(next, projects[1..]);
      if |projects| > 1 {
        assert Last(projects[1..]) == Last(projects);
      }
    }
  }

  // ---------------------------------------------------------------------
  // Icons, initials, breakpoint

  /** The icons drawn with strokes rather than fills. */
  const StrokeIcons: seq<string> := ["subscriptions", "portal", "logs", "meta"]

  /** An icon is drawn with strokes when its name contains one of the
      stroke icons' names. */
  predicate IsStrokeIcon(icon: string)
  {
    exists k :: 0 <= k < |StrokeIcons| && HasInfix(icon, StrokeIcons[k])
  }

  /** Of the side bar's entries, "Subscriptions", "Events Log", "Meta
      Events" and "Portal Links" are stroke icons and the others are not. */
  lemma SideBarStrokeIcons()
    ensures IsStrokeIcon("subscriptions") && IsStrokeIcon("portal") && IsStrokeIcon("logs") && IsStrokeIcon("meta")
    ensures !IsStrokeIcon("events") && !IsStrokeIcon("sources") && !IsStrokeIcon("endpoint")
  {
    assert OccursAt("subscriptions", StrokeIcons[0], 0);
    assert OccursAt("portal", StrokeIcons[1], 0);
    assert OccursAt("logs", StrokeIcons[2], 0);
    assert OccursAt("meta", StrokeIcons[3], 0);
    NoStrokeIcon("events");
    NoStrokeIcon("sources");
    NoStrokeIcon("endpoint");
  }

  /** A name none of whose possible starting characters begins a stroke
      icon's name contains none of them. */
  lemma NoStrokeIcon(icon: string)
    requires icon == "events" || icon == "sources" || icon == "endpoint"
    ensures !IsStrokeIcon(icon)
  {
    forall k | 0 <= k < |StrokeIcons| ensures !HasInfix(icon, StrokeIcons[k]) {
      var pat := StrokeIcons[k];
      if |pat| <= |icon| {
        assert pat[0] !in icon[..|icon| - |pat| + 1];
      }
      NoInfixByFirst(icon, pat);
    }
  }

  /** A pattern whose first character does not occur where it could start
      does not occur at all. */
  lemma NoInfixByFirst<T>(s: seq<T>, pat: seq<T>)
    requires |pat| > 0
    requires |pat| > |s| || pat[0] !in s[..|s| - |pat| + 1]
    ensures !HasInfix(s, pat)
  {
  }

  /** The first character of a word; an empty word has none, and joining
      then renders its missing character as nothing. */
  function FirstChar(word: string): (r: string)
    ensures |r| <= 1 && (|word| > 0 ==> r == [word[0]])
  {
    if |word| == 0 then [] else [word[0]]
  }

  /** The badge of a project name: nothing for an absent or empty name,
      otherwise the first characters of its space-separated words, at most
      two of them. */
  function GetFirstLetters(text: Option<string>): (r: Option<string>)
    ensures r.None? <==> text.None? || |text.value| == 0
    ensures r.Some? ==> |r.value| <= 2
  {
    if text.None? || |text.value| == 0 then None
    else
      var initials := Flatten(Map(Split(text.value, ' '), FirstChar));
      Some(if |initials| <= 2 then initials else initials[..2])
  }

  /** A one-word name gives its first character. */
  lemma FirstLettersOneWord(a: string)
    requires |a| > 0 && ' ' !in a
    ensures GetFirstLetters(Some(a)) == Some([a[0]])
  {
    SplitJoin([a], ' ');
    assert Join([a], ' ') == a;
    assert Split(a, ' ') == [a];
    assert Map([a], FirstChar) == [[a[0]]];
    assert Flatten([[a[0]]]) == [a[0]] + Flatten<char>([]);
    assert Flatten(Map(Split(a, ' '), FirstChar)) == [a[0]];
  }

  /** A two-word name gives the first characters of both words. */
  lemma FirstLettersTwoWords(a: string, b: string)
    requires |a| > 0 && |b| > 0 && ' ' !in a && ' ' !in b
    ensures GetFirstLetters(Some(a + " " + b)) == Some([a[0], b[0]])
  {
    assert a + " " + b == a + [' '] + b;
    SplitPair(a, b, ' ');
    assert Map([a, b], FirstChar) == [[a[0]], [b[0]]];
    assert Flatten([[a[0]], [b[0]]]) == [a[0]] + Flatten([[b[0]]]);
    assert Flatten([[b[0]]]) == [b[0]] + Flatten<char>([]);
    assert Flatten(Map(Split(a + " " + b, ' '), FirstChar)) == [a[0], b[0]];
  }

  /** The first characters of the given words, in order: one per
      non-empty word. */
  lemma {:induction false} InitialsOfWords(words: seq<string>)
    requires forall k :: 0 <= k < |words| ==> |words[k]| > 0
    ensures |Flatten(Map(words, FirstChar))| == |words|
    ensures forall k :: 0 <= k < |words| ==> Flatten(Map(words, FirstChar))[k] == words[k][0]
    decreases |words|
  {
    if |words| > 0 {
      assert Map(words, FirstChar) == [FirstChar(words[0])] + Map(words[1..], FirstChar);
      InitialsOfWords(words[1..]);
      var rest := Flatten(Map(words[1..], FirstChar));
      assert Flatten(Map(words, FirstChar)) == [words[0][0]] + rest;
      forall k | 1 <= k < |words| ensures Flatten(Map(words, FirstChar))[k] == words[k][0] {
        assert words[1..][k - 1] == words[k];
      }
    }
  }

  /** For any name made of space-free words joined by single spaces, the
      badge is the words' first characters, at most two; when every word
      is non-empty that is the first character of each of the first two
      words. */
  lemma FirstLettersOfWords(words: seq<string>)
    requires |words| > 0 && forall k :: 0 <= k < |words| ==> ' ' !in words[k]
    requires |Join(words, ' ')| > 0
    ensures var initials := Flatten(Map(words, FirstChar));
            GetFirstLetters(Some(Join(words, ' '))) == Some(if |initials| <= 2 then initials else initials[..2])
    ensures (forall k :: 0 <= k < |words| ==> |words[k]| > 0) ==>
              var r := GetFirstLetters(Some(Join(words, ' '))).value;
              && |r| == (if |words| < 2 then |words| else 2)
              && forall k :: 0 <= k < |r| ==> r[k] == words[k][0]
  {
    SplitJoin(words, ' ');
    if forall k :: 0 <= k < |words| ==> |words[k]| > 0 {
      InitialsOfWords(words);
    }
  }

  /** A name of spaces only has no initials, yet is not absent. */
  lemma FirstLettersBlank()
    ensures GetFirstLetters(Some(" ")) == Some([])
  {
    SplitPair<char>([], [], ' ');
    assert [] + [' '] + [] == " ";
    var none: string := [];
    assert Map([none, none], FirstChar) == [none, none];
    assert Flatten([none, none]) == none + Flatten([none]);
    assert Flatten([none]) == none + Flatten<char>([]);
  }

  /** Recomputes whether the side bar is shown in full after a resize. */
  function OnWindowResize(v: ProjectViewState, innerWidth: int): (r: ProjectViewState)
    ensures r.screenWidth == innerWidth
    ensures r.shouldShowFullSideBar <==> innerWidth > FullSideBarMinWidth
    ensures r.sideBarItems == v.sideBarItems && r.projectDetails == v.projectDetails
    ensures r.isLoadingProjectDetails == v.isLoadingProjectDetails
  {
    var w := v.(screenWidth := innerWidth);
    w.(shouldShowFullSideBar := w.screenWidth > FullSideBarMinWidth)
  }
}
