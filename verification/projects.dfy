/**
  The projects section: the category filter behind the filter buttons, the truncated feature and
  technology lists on each card, the empty state, and the statistics derived from the static
  project data.
 */
module Projects {
  import opened Base

  /** A project entry; descriptions, links, images and dates only feed the rendering. */
  datatype Project = Project(
    id: nat,
    name: string,
    technologies: seq<string>,
    features: seq<string>,
    category: string,
    status: string)

  /** The filter value that stands for no filter. */
  const AllValue := "all"

  function InCategory(selected: string): Project -> bool {
    (p: Project) => p.category == selected
  }

  // ---------------------------------------------------------------------------
  // Category filter

  /** `filteredProjects`: everything for `'all'`, otherwise the projects of the selected category. */
  function FilterProjects(ps: seq<Project>, selected: string): (r: seq<Project>)
    ensures selected == AllValue ==> r == ps
    ensures selected != AllValue ==> forall i :: 0 <= i < |r| ==> r[i].category == selected
    ensures selected != AllValue ==> forall i :: 0 <= i < |ps| && ps[i].category == selected ==> ps[i] in r
  {
    if selected == AllValue then ps else Filter(ps, InCategory(selected))
  }

  /**
    Any selection keeps the projects in the order of the data, and keeps as many of them as the
    data has in that category: nothing is repeated or dropped.
   */
  lemma FilterKeepsOrder(ps: seq<Project>, selected: string)
    ensures SubsequenceOf(FilterProjects(ps, selected), ps)
    ensures selected != AllValue ==> |FilterProjects(ps, selected)| == CountWhere(ps, InCategory(selected))
  {
    if selected == AllValue {
      SubsequenceOfSelf(ps);
    } else {
      FilterIsSubsequence(ps, InCategory(selected));
    }
  }

  lemma {:induction false} SubsequenceOfSelf(s: seq<Project>)
    ensures SubsequenceOf(s, s)
    decreases |s|
  {
    if |s| > 0 {
      SubsequenceOfSelf(s[..|s| - 1]);
    }
  }

  /** `No projects found in this category.` is shown exactly when no project matches the selection. */
  function ShowsEmptyState(ps: seq<Project>, selected: string): (b: bool)
    ensures b <==>
      || (selected == AllValue && ps == [])
      || (selected != AllValue && forall i :: 0 <= i < |ps| ==> ps[i].category != selected)
  {
    |FilterProjects(ps, selected)| == 0
  }

  // ---------------------------------------------------------------------------
  // Card truncation

  /** A list cut to its first `limit` entries, with the count behind the `+N` badge if one is shown. */
  datatype Truncated = Truncated(shown: seq<string>, more: Option<nat>)

  function Truncate(items: seq<string>, limit: nat): (t: Truncated)
    ensures |t.shown| == if |items| < limit then |items| else limit
    ensures t.shown == items[..|t.shown|]
    ensures t.more.Some? <==> |items| > limit
    ensures t.more.Some? ==> t.more.value > 0
  {
    if |items| > limit then Truncated(items[..limit], Some(|items| - limit)) else Truncated(items, None)
  }

  /** No entry is lost: the shown entries and the badge's count add up to the whole list. */
  lemma TruncationAccountsForAll(items: seq<string>, limit: nat)
    ensures var t := Truncate(items, limit);
      t.shown + items[|t.shown|..] == items && |t.shown| + t.more.GetOr(0) == |items|
  {
  }

  /** Key features: the first three, then `+N more features`. */
  function FeatureList(p: Project): (t: Truncated)
    ensures |t.shown| <= 3 && |t.shown| <= |p.features| && t.shown == p.features[..|t.shown|]
    ensures t.more.Some? <==> |p.features| > 3
  {
    Truncate(p.features, 3)
  }

  /** Technology badges: the first four, then `+N`. */
  function TechnologyBadges(p: Project): (t: Truncated)
    ensures |t.shown| <= 4 && |t.shown| <= |p.technologies| && t.shown == p.technologies[..|t.shown|]
    ensures t.more.Some? <==> |p.technologies| > 4
  {
    Truncate(p.technologies, 4)
  }

  // ---------------------------------------------------------------------------
  // Statistics

  /** `projects.flatMap(p => p.technologies)`. */
  function AllTechnologies(ps: seq<Project>): (r: seq<string>)
    ensures forall i, j :: 0 <= i < |ps| && 0 <= j < |ps[i].technologies| ==> ps[i].technologies[j] in r
    ensures forall t :: t in r ==> exists i :: 0 <= i < |ps| && t in ps[i].technologies
  {
    if |ps| == 0 then [] else ps[0].technologies + AllTechnologies(ps[1..])
  }

  function IsCompleted(p: Project): bool {
    p.status == "Completed"
  }

  datatype ProjectStats = ProjectStats(totalProjects: nat, completedProjects: nat, technologiesUsed: nat, githubStars: nat)

  /** `projectStats`; the star count is a constant in the data. */
  function StatsOf(ps: seq<Project>): (st: ProjectStats)
    ensures st.totalProjects == |ps|
    ensures st.completedProjects <= st.totalProjects
    ensures st.completedProjects == st.totalProjects <==> forall i :: 0 <= i < |ps| ==> IsCompleted(ps[i])
    ensures st.technologiesUsed <= |AllTechnologies(ps)|
    ensures st.githubStars == 45
  {
    var completed := CountWhere(ps, IsCompleted);
    CompletedOnlyWhenAll(ps);
    ProjectStats(|ps|, completed, |Distinct(AllTechnologies(ps))|, 45)
  }

  /** The count reaches the number of projects exactly when each one is completed. */
  lemma {:induction false} CompletedOnlyWhenAll(ps: seq<Project>)
    ensures CountWhere(ps, IsCompleted) == |ps| <==> forall i :: 0 <= i < |ps| ==> IsCompleted(ps[i])
    decreases |ps|
  {
    if |ps| > 0 {
      var ps' := ps[..|ps| - 1];
      CompletedOnlyWhenAll(ps');
      assert forall i :: 0 <= i < |ps'| ==> ps'[i] == ps[i];
    }
  }

  /** The technology names used by any project, however often each appears. */
  ghost function TechnologyNames(ps: seq<Project>): set<string> {
    set i, j | 0 <= i < |ps| && 0 <= j < |ps[i].technologies| :: ps[i].technologies[j]
  }

  /**
    `completedProjects` is the number of projects whose status is `Completed`, and
    `technologiesUsed` is the number of different technology names across all projects.
   */
  lemma StatsCount(ps: seq<Project>)
    ensures StatsOf(ps).completedProjects == |set i | 0 <= i < |ps| && ps[i].status == "Completed"|
    ensures StatsOf(ps).technologiesUsed == |TechnologyNames(ps)|
  {
    CountWhereIsIndexCount(ps, IsCompleted);
    assert PositionsWhere(ps, IsCompleted) == set i | 0 <= i < |ps| && ps[i].status == "Completed";
    var all := AllTechnologies(ps);
    DistinctCountsElements(all);
    forall t | t in Elements(all)
      ensures t in TechnologyNames(ps)
    {
      var i :| 0 <= i < |ps| && t in ps[i].technologies;
      var j :| 0 <= j < |ps[i].technologies| && ps[i].technologies[j] == t;
    }
    assert Elements(all) == TechnologyNames(ps);
  }

  // ---------------------------------------------------------------------------
  // The static data

  const Data := [
    Project(1, "CloudNote",
      ["React.js", "Node.js", "Express.js", "MongoDB", "Bootstrap", "JWT", "Bcrypt"],
      ["User Authentication with JWT", "CRUD Operations for Notes", "Password Hashing with Bcrypt",
       "Responsive Design", "Alert Messages and Notifications", "Secure API Endpoints"],
      "Full Stack", "Completed"),
    Project(2, "Codial",
      ["Node.js", "Express.js", "JavaScript", "EJS", "HTML", "MongoDB", "Socket.io", "Passport.js"],
      ["Google OAuth Authentication", "Real-time Chat with WebSockets", "Post Management System",
       "Comments and Likes", "Friend Requests and Connections", "Push Notifications",
       "File Upload for Posts", "Email Notifications"],
      "Full Stack", "Completed"),
    Project(3, "NewsNexus",
      ["React.js", "Bootstrap", "News API", "React Router", "Axios"],
      ["Infinite Scrolling for News Feed", "Top Loading Bar for Better UX", "Category-based News Filtering",
       "Responsive Design", "Real-time News Updates", "Search Functionality", "News Source Attribution",
       "Mobile-Optimized Interface"],
      "Frontend", "Completed")]

  /** A filter button: its label and the value it selects. */
  datatype Category = Category(name: string, value: string)

  const Categories := [
    Category("All", "all"),
    Category("Full Stack", "Full Stack"),
    Category("Frontend", "Frontend"),
    Category("Backend", "Backend"),
    Category("Mobile", "Mobile")]

  /**
    The first button selects `'all'`, which shows the data unfiltered; the buttons select
    different values; and every project's category has a button of its own.
   */
  lemma CategoriesCoverData(ps: seq<Project>)
    ensures Categories[0].value == AllValue && FilterProjects(ps, Categories[0].value) == ps
    ensures forall i, j :: 0 <= i < j < |Categories| ==> Categories[i].value != Categories[j].value
    ensures forall i :: 0 <= i < |Data| ==> exists k :: 1 <= k < |Categories| && Categories[k].value == Data[i].category
  {
    assert Categories[1].value == Data[0].category == Data[1].category;
    assert Categories[2].value == Data[2].category;
  }

  /** Selecting `Frontend` shows NewsNexus alone; `Backend` and `Mobile` show the empty state. */
  lemma FilteringTheData(ps: seq<Project>)
    requires ps == Data
    ensures FilterProjects(ps, "Frontend") == [ps[2]] && ps[2].name == "NewsNexus"
    ensures ShowsEmptyState(ps, "Backend") && ShowsEmptyState(ps, "Mobile")
    ensures !ShowsEmptyState(ps, "Full Stack") && !ShowsEmptyState(ps, AllValue)
  {
    var p := InCategory("Frontend");
    assert !p(ps[0]) && !p(ps[1]) && p(ps[2]);
    assert ps[..2][..1] == [ps[0]];
    assert ps[..2] == ps[..|ps| - 1];
    assert Filter(ps[..1], p) == [];
    assert Filter(ps[..2], p) == [];
    assert ps[2].category == "Full Stack" ==> false;
    assert ps[0].category == "Full Stack";
  }

  lemma DataAllCompleted()
    ensures |Data| == 3 && forall i :: 0 <= i < |Data| ==> IsCompleted(Data[i])
  {
  }

  /** On the data all three projects are completed. */
  lemma DataStats(ps: seq<Project>)
    requires ps == Data
    ensures StatsOf(ps).totalProjects == 3 && StatsOf(ps).completedProjects == 3
  {
    DataAllCompleted();
  }

  /** On the data every card shows both `+N` badges. */
  lemma DataBadges(p: Project, q: Project, r: Project)
    requires [p, q, r] == Data
    ensures FeatureList(p).more == Some(3) && TechnologyBadges(p).more == Some(3)
    ensures FeatureList(q).more == Some(5) && TechnologyBadges(q).more == Some(4)
    ensures FeatureList(r).more == Some(5) && TechnologyBadges(r).more == Some(1)
  {
  }
}
