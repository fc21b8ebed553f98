/**
 * app/sitemap.ts: the sitemap route list. The project and post lists come from
 * lib/content.ts, which is not part of this model; they are inputs, as is the clock.
 */
module Sitemap {
  import opened Common

  const DefaultSiteUrl := "https://example.com"

  /** `NEXT_PUBLIC_SITE_URL || 'https://example.com'`: an unset or empty variable falls back. */
  function SiteUrl(env: Option<string>): (r: string)
    ensures env.Some? && env.value != "" ==> r == env.value
    ensures env.None? || env.value == "" ==> r == DefaultSiteUrl
  {
    if env.Some? && env.value != "" then env.value else DefaultSiteUrl
  }

  /** A project or post as the sitemap reads it: its slug and its publication date. */
  datatype Page = Page(slug: string, publishedAt: int)

  datatype Frequency = Monthly | Weekly

  /** When the entry was last modified: the build time, or a page's publication date. */
  datatype LastModified = BuildTime | PublishedOn(date: int)

  /** One sitemap entry; the priority is in tenths (1 is written 10, 0.8 is 8). */
  datatype Entry = Entry(url: string, lastModified: LastModified, changeFrequency: Frequency, priority: nat)

  const StaticPaths: seq<string> := ["", "/work", "/about", "/blog", "/contact", "/demos"]

  function StaticRoutes(siteUrl: string): (r: seq<Entry>)
    ensures |r| == |StaticPaths|
    ensures forall i :: 0 <= i < |r| ==> r[i].url == siteUrl + StaticPaths[i] && r[i].lastModified == BuildTime
  {
    [Entry(siteUrl, BuildTime, Monthly, 10),
     Entry(siteUrl + "/work", BuildTime, Weekly, 8),
     Entry(siteUrl + "/about", BuildTime, Monthly, 7),
     Entry(siteUrl + "/blog", BuildTime, Weekly, 8),
     Entry(siteUrl + "/contact", BuildTime, Monthly, 6),
     Entry(siteUrl + "/demos", BuildTime, Monthly, 5)]
  }

  /** One monthly entry per page under `base`, in the pages' order. */
  function PageRoutes(base: string, pages: seq<Page>, priority: nat): (r: seq<Entry>)
    ensures |r| == |pages|
    ensures forall i :: 0 <= i < |pages| ==>
      r[i] == Entry(base + pages[i].slug, PublishedOn(pages[i].publishedAt), Monthly, priority)
  {
    if pages == [] then []
    else
      var rest := PageRoutes(base, pages[1..], priority);
      [Entry(base + pages[0].slug, PublishedOn(pages[0].publishedAt), Monthly, priority)] + rest
  }

  function ProjectUrl(siteUrl: string, slug: string): string {
    siteUrl + "/work/" + slug
  }

  function PostUrl(siteUrl: string, slug: string): string {
    siteUrl + "/blog/" + slug
  }

  /** Every page address is the site address followed by "/work/" or "/blog/" and the slug. */
  lemma PageUrlsAreUnderSite(siteUrl: string, slug: string)
    ensures var p := ProjectUrl(siteUrl, slug); siteUrl <= p && p[|siteUrl|..] == "/work/" + slug
    ensures var p := PostUrl(siteUrl, slug); siteUrl <= p && p[|siteUrl|..] == "/blog/" + slug
  {
    assert siteUrl + "/work/" + slug == siteUrl + ("/work/" + slug);
    assert siteUrl + "/blog/" + slug == siteUrl + ("/blog/" + slug);
  }

  /** `sitemap()`: the static routes, then the projects at priority 0.7, then the posts at 0.6. */
  function Build(env: Option<string>, projects: seq<Page>, posts: seq<Page>): (r: seq<Entry>)
    ensures |r| == |StaticPaths| + |projects| + |posts|
    ensures r[..|StaticPaths|] == StaticRoutes(SiteUrl(env))
  {
    var siteUrl := SiteUrl(env);
    StaticRoutes(siteUrl) + PageRoutes(siteUrl + "/work/", projects, 7) + PageRoutes(siteUrl + "/blog/", posts, 6)
  }

  /** Every project and every post has its entry, at a fixed place that follows the input order. */
  lemma EntriesFollowInputs(env: Option<string>, projects: seq<Page>, posts: seq<Page>)
    ensures var r := Build(env, projects, posts);
            var n := |StaticPaths|;
      && (forall i :: 0 <= i < |projects| ==>
            r[n + i] == Entry(ProjectUrl(SiteUrl(env), projects[i].slug), PublishedOn(projects[i].publishedAt), Monthly, 7))
      && (forall j :: 0 <= j < |posts| ==>
            r[n + |projects| + j] == Entry(PostUrl(SiteUrl(env), posts[j].slug), PublishedOn(posts[j].publishedAt), Monthly, 6))
  {
    var siteUrl := SiteUrl(env);
    var ps := PageRoutes(siteUrl + "/work/", projects, 7);
    var qs := PageRoutes(siteUrl + "/blog/", posts, 6);
    var r := StaticRoutes(siteUrl) + ps + qs;
    forall i | 0 <= i < |projects|
      ensures r[|StaticPaths| + i] == ps[i]
    {
    }
    forall j | 0 <= j < |posts|
      ensures r[|StaticPaths| + |projects| + j] == qs[j]
    {
    }
  }

  /** The root of the site is the first entry, with the top priority. */
  lemma RootComesFirst(env: Option<string>, projects: seq<Page>, posts: seq<Page>)
    ensures Build(env, projects, posts)[0] == Entry(SiteUrl(env), BuildTime, Monthly, 10)
  {
    assert Build(env, projects, posts)[..|StaticPaths|][0] == Build(env, projects, posts)[0];
  }
}
