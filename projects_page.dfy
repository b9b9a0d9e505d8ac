/**
 * The project list page: the search and visibility filter, the sort, deletion from the list,
 * and the count label.
 */
module ProjectsPage {
  import opened Wrappers
  import Strings
  import Seqs
  import Store

  /** The fields of a listed project the page uses; dates are their millisecond values. */
  datatype ProjectCard = ProjectCard(id: string, name: string, description: Option<string>, isPublic: bool,
                                     createdAt: Store.Time, updatedAt: Store.Time)

  /** The search: the lower-cased name or description contains the lower-cased term. */
  predicate MatchesSearch(p: ProjectCard, term: string) {
    var t := Strings.Lower(term);
    Strings.Contains(Strings.Lower(p.name), t) ||
    (p.description.Some? && Strings.Contains(Strings.Lower(p.description.value), t))
  }

  /** The visibility filter: 'all', 'public' or 'private'; any other value matches nothing. */
  predicate MatchesFilter(p: ProjectCard, filterBy: string) {
    filterBy == "all" || (filterBy == "public" && p.isPublic) || (filterBy == "private" && !p.isPublic)
  }

  /** An empty search term matches every project. */
  lemma EmptyTermMatchesAll(p: ProjectCard)
    ensures MatchesSearch(p, "")
  {
    assert Strings.Lower("") == "";
    Strings.ContainsEmpty(Strings.Lower(p.name));
  }

  /** 'public' and 'private' split the projects; an unknown filter value keeps none. */
  lemma FilterValues(p: ProjectCard, other: string)
    requires other !in {"all", "public", "private"}
    ensures MatchesFilter(p, "public") <==> p.isPublic
    ensures MatchesFilter(p, "private") <==> !p.isPublic
    ensures MatchesFilter(p, "all") && !MatchesFilter(p, other)
  {
  }

  /** `filteredProjects`: the matching projects, in list order. */
  function FilteredProjects(projects: seq<ProjectCard>, term: string, filterBy: string): (r: seq<ProjectCard>)
    ensures Seqs.IsSubsequence(r, projects)
    ensures forall i :: 0 <= i < |r| ==> MatchesSearch(r[i], term) && MatchesFilter(r[i], filterBy)
    ensures forall p :: multiset(r)[p] == if MatchesSearch(p, term) && MatchesFilter(p, filterBy) then multiset(projects)[p] else 0
  {
    Seqs.Filter(projects, p => MatchesSearch(p, term) && MatchesFilter(p, filterBy))
  }

  /** With no search term and the 'all' filter, the list is shown in full, in order. */
  lemma NoFilterShowsAll(projects: seq<ProjectCard>)
    ensures FilteredProjects(projects, "", "all") == projects
  {
    forall i | 0 <= i < |projects|
      ensures MatchesSearch(projects[i], "") && MatchesFilter(projects[i], "all")
    {
      EmptyTermMatchesAll(projects[i]);
    }
    Seqs.FilterKeepsAll(projects, p => MatchesSearch(p, "") && MatchesFilter(p, "all"));
  }

  /** Code-point lexicographic order, standing in for `localeCompare`. */
  predicate LexLe(a: string, b: string) {
    a == [] || (b != [] && (a[0] < b[0] || (a[0] == b[0] && LexLe(a[1..], b[1..]))))
  }

  lemma {:induction false} LexLeTotal(a: string, b: string)
    ensures LexLe(a, b) || LexLe(b, a)
  {
    if a != [] && b != [] && a[0] == b[0] {
      LexLeTotal(a[1..], b[1..]);
    }
  }

  lemma {:induction false} LexLeTransitive(a: string, b: string, c: string)
    requires LexLe(a, b) && LexLe(b, c)
    ensures LexLe(a, c)
  {
    if a != [] && a[0] == b[0] && b[0] == c[0] {
      LexLeTransitive(a[1..], b[1..], c[1..]);
    }
  }

  /** The sort comparator: negative, zero or positive as `a` goes before, with, or after `b`. */
  function Compare(sortBy: string, a: ProjectCard, b: ProjectCard): (c: int)
    ensures sortBy == "name" ==> (c <= 0 <==> LexLe(a.name, b.name))
    ensures sortBy == "createdAt" ==> c == b.createdAt - a.createdAt
    ensures sortBy == "updatedAt" ==> c == b.updatedAt - a.updatedAt
    ensures sortBy !in {"name", "createdAt", "updatedAt"} ==> c == 0
  {
    match sortBy
    case "name" => if !LexLe(a.name, b.name) then 1 else if LexLe(b.name, a.name) then 0 else -1
    case "createdAt" => b.createdAt - a.createdAt
    case "updatedAt" => b.updatedAt - a.updatedAt
    case _ => 0
  }

  /** "`a` may stay before `b`": the comparator does not put `a` after `b`. */
  function Before(sortBy: string): (ProjectCard, ProjectCard) -> bool {
    (a, b) => Compare(sortBy, a, b) <= 0
  }

  /** Every known sort key orders the projects by a total preorder. */
  lemma BeforeIsTotalPreorder(sortBy: string)
    requires sortBy in {"name", "createdAt", "updatedAt"}
    ensures Seqs.TotalPreorder(Before(sortBy))
  {
    if sortBy == "name" {
      forall a, b ensures Before(sortBy)(a, b) || Before(sortBy)(b, a) {
        LexLeTotal(a.name, b.name);
      }
      forall a, b, c | Before(sortBy)(a, b) && Before(sortBy)(b, c) ensures Before(sortBy)(a, c) {
        LexLeTransitive(a.name, b.name, c.name);
      }
    }
  }

  /** `sortedProjects`: a sorted copy of the filtered list (the filtered list itself is not touched). */
  function SortedProjects(filtered: seq<ProjectCard>, sortBy: string): (r: seq<ProjectCard>)
    ensures multiset(r) == multiset(filtered)
  {
    Seqs.SortBy(filtered, Before(sortBy))
  }

  /** By 'name' the list is in ascending name order. */
  lemma SortedByName(filtered: seq<ProjectCard>)
    ensures var r := SortedProjects(filtered, "name");
      forall i, j :: 0 <= i < j < |r| ==> LexLe(r[i].name, r[j].name)
  {
    BeforeIsTotalPreorder("name");
    Seqs.SortBySorted(filtered, Before("name"));
  }

  /**
   * The sort is stable: projects the key calls equal to `c` (the same name, or the same
   * date) keep the order they had in the filtered list.
   */
  lemma SortedProjectsStable(filtered: seq<ProjectCard>, sortBy: string, c: ProjectCard)
    requires sortBy in {"name", "createdAt", "updatedAt"}
    ensures Seqs.Filter(SortedProjects(filtered, sortBy), Seqs.Tied(Before(sortBy), c))
         == Seqs.Filter(filtered, Seqs.Tied(Before(sortBy), c))
  {
    BeforeIsTotalPreorder(sortBy);
    Seqs.SortByStable(filtered, Before(sortBy), c);
  }

  /** By a date key the list is newest first. */
  lemma SortedNewestFirst(filtered: seq<ProjectCard>)
    ensures var r := SortedProjects(filtered, "createdAt");
      forall i, j :: 0 <= i < j < |r| ==> r[i].createdAt >= r[j].createdAt
    ensures var r := SortedProjects(filtered, "updatedAt");
      forall i, j :: 0 <= i < j < |r| ==> r[i].updatedAt >= r[j].updatedAt
  {
    BeforeIsTotalPreorder("createdAt");
    Seqs.SortBySorted(filtered, Before("createdAt"));
    BeforeIsTotalPreorder("updatedAt");
    Seqs.SortBySorted(filtered, Before("updatedAt"));
  }

  /** An unknown sort key compares everything equal, so the filtered order is kept. */
  lemma UnknownSortKeepsOrder(filtered: seq<ProjectCard>, sortBy: string)
    requires sortBy !in {"name", "createdAt", "updatedAt"}
    ensures SortedProjects(filtered, sortBy) == filtered
  {
    Seqs.SortByAllTiesIsIdentity(filtered, Before(sortBy));
  }

  /** The list without the entries of one id. */
  function WithoutId(projects: seq<ProjectCard>, id: string): (r: seq<ProjectCard>)
    ensures Seqs.IsSubsequence(r, projects)
    ensures forall i :: 0 <= i < |r| ==> r[i].id != id
    ensures forall p: ProjectCard :: p.id != id ==> multiset(r)[p] == multiset(projects)[p]
  {
    Seqs.Filter(projects, (p: ProjectCard) => p.id != id)
  }

  /** The noun of the count label: singular exactly for one project. */
  function CountNoun(n: nat): (noun: string)
    ensures noun == "project" <==> n == 1
    ensures noun == "projects" <==> n != 1
  {
    "project" + if n != 1 then "s" else ""
  }

  class Page {
    var projects: seq<ProjectCard>
    var searchTerm: string
    var filterBy: string
    var sortBy: string

    constructor ()
      ensures projects == [] && searchTerm == "" && filterBy == "all" && sortBy == "updatedAt"
    {
      projects := [];
      searchTerm := "";
      filterBy := "all";
      sortBy := "updatedAt";
    }

    /** The cards shown: the filtered list, sorted. */
    function Shown(): (r: seq<ProjectCard>)
      reads this
      ensures multiset(r) == multiset(FilteredProjects(projects, searchTerm, filterBy))
    {
      SortedProjects(FilteredProjects(projects, searchTerm, filterBy), sortBy)
    }

    /**
     * `handleDeleteProject`: after a confirmed and successful delete the entries with that id
     * are gone and the rest keep their order; a cancel or a failed request changes nothing.
     */
    method HandleDeleteProject(id: string, confirmed: bool, requestOk: bool)
      modifies this
      ensures projects == if confirmed && requestOk then WithoutId(old(projects), id) else old(projects)
      ensures searchTerm == old(searchTerm) && filterBy == old(filterBy) && sortBy == old(sortBy)
    {
      if confirmed && requestOk {
        projects := WithoutId(projects, id);
      }
    }
  }
}
