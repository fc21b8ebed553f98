/**
 * lib/projects-data.ts: the module-level project list and its three queries. Dates are
 * compared as numbers: `publishedAt` is the day written as yyyymmdd, which orders the
 * same way as the millisecond timestamps the source compares.
 */
module ProjectsData {
  import opened Common
  import opened Ordering

  /** The fields the queries read; the descriptive text of a project plays no part. */
  datatype Project = Project(slug: string, title: string, publishedAt: int, featured: Option<bool>)

  function PublishedAt(p: Project): int {
    p.publishedAt
  }

  const Shipped: seq<Project> := [
    Project("n8n-workflows", "n8n Workflow Orchestration Platform", 20240901, Some(true)),
    Project("tapat-ai", "Tapat - AI Audio Agent for Philippine Elections", 20240815, Some(true)),
    Project("athena", "Athena - Spatial AI Analysis Platform", 20240720, Some(true))
  ]

  /** `getProjectBySlug`: the first project with that slug, or none. */
  function ProjectBySlug(ps: seq<Project>, slug: string): (r: Option<Project>)
    ensures r.Some? ==> r.value in ps && r.value.slug == slug
    ensures r.None? <==> forall i :: 0 <= i < |ps| ==> ps[i].slug != slug
  {
    if ps == [] then None
    else if ps[0].slug == slug then Some(ps[0])
    else
      var r := ProjectBySlug(ps[1..], slug);
      assert forall i :: 1 <= i < |ps| ==> ps[i] == ps[1..][i - 1];
      r
  }

  /** The project at `i` is returned exactly when it is the first one carrying the slug. */
  lemma {:induction false} ProjectBySlugIsFirst(ps: seq<Project>, slug: string, i: nat)
    requires i < |ps| && ps[i].slug == slug
    requires forall j :: 0 <= j < i ==> ps[j].slug != slug
    ensures ProjectBySlug(ps, slug) == Some(ps[i])
  {
    if i > 0 {
      ProjectBySlugIsFirst(ps[1..], slug, i - 1);
    }
  }

  predicate IsFeatured(p: Project) {
    p.featured == Some(true)
  }

  /** `getFeaturedProjects`: the featured projects, in their original order. */
  function Featured(ps: seq<Project>): (r: seq<Project>)
    ensures |r| <= |ps|
    ensures forall p :: p in r <==> p in ps && IsFeatured(p)
  {
    if ps == [] then []
    else
      var rest := Featured(ps[1..]);
      assert forall p :: p in ps <==> p == ps[0] || p in ps[1..];
      if IsFeatured(ps[0]) then [ps[0]] + rest else rest
  }

  /** With every project featured, the featured list is the whole list, in order. */
  lemma {:induction false} FeaturedOfAllFeatured(ps: seq<Project>)
    requires forall i :: 0 <= i < |ps| ==> IsFeatured(ps[i])
    ensures Featured(ps) == ps
  {
    if ps != [] {
      FeaturedOfAllFeatured(ps[1..]);
    }
  }

  /** Filtering keeps the original relative order: it distributes over concatenation. */
  lemma {:induction false} FeaturedAppend(xs: seq<Project>, ys: seq<Project>)
    ensures Featured(xs + ys) == Featured(xs) + Featured(ys)
  {
    if xs == [] {
      assert xs + ys == ys;
    } else {
      assert (xs + ys)[1..] == xs[1..] + ys;
      FeaturedAppend(xs[1..], ys);
    }
  }

  /**
   * `getAllProjects`: sorts the module-level array in place, newest first (a stable sort,
   * so equal dates keep their order), and returns that same array.
   */
  method GetAllProjects(projects: array<Project>) returns (r: array<Project>)
    modifies projects
    ensures r == projects
    ensures projects[..] == SortDesc(old(projects[..]), PublishedAt)
  {
    var sorted := SortDesc(projects[..], PublishedAt);
    forall i | 0 <= i < projects.Length {
      projects[i] := sorted[i];
    }
    r := projects;
  }

  /** The sorted array is a permutation of the original, ordered newest first. */
  lemma GetAllProjectsSortsAndPermutes(ps: seq<Project>)
    ensures SortedDesc(SortDesc(ps, PublishedAt), PublishedAt)
    ensures multiset(SortDesc(ps, PublishedAt)) == multiset(ps)
  {
    SortDescIsSorted(ps, PublishedAt);
  }

  /** A second call finds the array sorted and leaves it as it is. */
  lemma GetAllProjectsIdempotent(ps: seq<Project>)
    ensures SortDesc(SortDesc(ps, PublishedAt), PublishedAt) == SortDesc(ps, PublishedAt)
  {
    SortDescIdempotent(ps, PublishedAt);
  }

  /** In the shipped data both queries return all three projects in their declared order. */
  lemma ShippedQueries()
    ensures Featured(Shipped) == Shipped
    ensures SortDesc(Shipped, PublishedAt) == Shipped
    ensures ProjectBySlug(Shipped, "athena") == Some(Shipped[2])
  {
    FeaturedOfAllFeatured(Shipped);
    assert SortedDesc(Shipped, PublishedAt);
    SortDescOfSorted(Shipped, PublishedAt);
    ProjectBySlugIsFirst(Shipped, "athena", 2);
  }
}
