/**
 * app/rss.xml/route.ts: the RSS 2.0 feed of the blog. The post list comes from
 * lib/content.ts, which is not part of this model, and date formatting (`toUTCString`) is
 * an input function, as is the build time.
 */
module Rss {
  import opened Common
  import opened Ordering
  import Sitemap

  const ContentType := "application/rss+xml; charset=utf-8"

  /** A blog post as the feed reads it; `publishedAt` orders like the parsed date. */
  datatype Post = Post(slug: string, title: string, summary: string, publishedAt: int)

  function PublishedAt(p: Post): int {
    p.publishedAt
  }

  /** The posts newest first: `sort` with a `b - a` comparator, which is stable. */
  function NewestFirst(posts: seq<Post>): (r: seq<Post>)
    ensures |r| == |posts|
    ensures multiset(r) == multiset(posts)
    ensures SortedDesc(r, PublishedAt)
  {
    SortDescIsSorted(posts, PublishedAt);
    SortDesc(posts, PublishedAt)
  }

  /** The fields of one `<item>`. */
  datatype Item = Item(title: string, description: string, link: string, guid: string, pubDate: string)

  function ItemOf(siteUrl: string, p: Post, utc: int -> string): (r: Item)
    ensures r.link == Sitemap.PostUrl(siteUrl, p.slug) && r.guid == r.link
    ensures r.title == p.title && r.description == p.summary && r.pubDate == utc(p.publishedAt)
  {
    var url := siteUrl + "/blog/" + p.slug;
    Item(p.title, p.summary, url, url, utc(p.publishedAt))
  }

  function Items(siteUrl: string, posts: seq<Post>, utc: int -> string): (r: seq<Item>)
    ensures |r| == |posts|
    ensures forall i :: 0 <= i < |posts| ==> r[i] == ItemOf(siteUrl, posts[i], utc)
  {
    seq(|posts|, i requires 0 <= i < |posts| => ItemOf(siteUrl, posts[i], utc))
  }

  const ItemOpen := "\n    <item>\n      <title><![CDATA["
  const ItemDescription := "]]></title>\n      <description><![CDATA["
  const ItemLink := "]]></description>\n      <link>"
  const ItemGuid := "</link>\n      <guid>"
  const ItemPubDate := "</guid>\n      <pubDate>"
  const ItemClose := "</pubDate>\n    </item>"

  /** `xs.map(f).join('')`. */
  function ConcatMap<T>(f: T -> string, xs: seq<T>): string {
    if xs == [] then "" else f(xs[0]) + ConcatMap(f, xs[1..])
  }

  lemma {:induction false} ConcatMapAppend<T>(f: T -> string, xs: seq<T>, ys: seq<T>)
    ensures ConcatMap(f, xs + ys) == ConcatMap(f, xs) + ConcatMap(f, ys)
  {
    if xs == [] {
      assert xs + ys == ys;
    } else {
      assert (xs + ys)[0] == xs[0];
      assert (xs + ys)[1..] == xs[1..] + ys;
      ConcatMapAppend(f, xs[1..], ys);
    }
  }

  /**
   * One item as text: title, summary, link, guid and date, each between its tags; the
   * title and summary go into CDATA sections unescaped.
   */
  function RenderItem(it: Item): (r: string)
    ensures r == ItemOpen + it.title + ItemDescription + it.description + ItemLink + it.link
                 + ItemGuid + it.guid + ItemPubDate + it.pubDate + ItemClose
    ensures ItemOpen <= r
    ensures r[|r| - |ItemClose|..] == ItemClose
  {
    ItemOpen + it.title + ItemDescription + it.description + ItemLink + it.link
    + ItemGuid + it.guid + ItemPubDate + it.pubDate + ItemClose
  }

  /** `items.map(...).join('')`. */
  function RenderItems(items: seq<Item>): (r: string)
    ensures items == [] <==> r == ""
  {
    ConcatMap(RenderItem, items)
  }

  /** Rendering distributes over concatenation of item lists. */
  lemma RenderItemsAppend(xs: seq<Item>, ys: seq<Item>)
    ensures RenderItems(xs + ys) == RenderItems(xs) + RenderItems(ys)
  {
    ConcatMapAppend(RenderItem, xs, ys);
  }

  /** A single item renders as that item's text and nothing else. */
  lemma RenderItemsSingleton(it: Item)
    ensures RenderItems([it]) == RenderItem(it)
  {
    assert [it][1..] == [];
    assert ConcatMap(RenderItem, [it]) == RenderItem(it) + "";
  }

  /** The rendered list splits around its k-th item. */
  lemma RenderItemsAt(xs: seq<Item>, k: nat)
    requires k < |xs|
    ensures RenderItems(xs) == RenderItems(xs[..k]) + (RenderItem(xs[k]) + RenderItems(xs[k + 1..]))
  {
    assert xs == xs[..k] + ([xs[k]] + xs[k + 1..]);
    RenderItemsAppend(xs[..k], [xs[k]] + xs[k + 1..]);
    RenderItemsAppend([xs[k]], xs[k + 1..]);
    RenderItemsSingleton(xs[k]);
  }

  /** A text made of a head, a body and a tail starts with the head and ends with the tail (for `FeedEndsWithClose`). */
  lemma Framed(h: string, b: string, t: string)
    ensures h <= h + (b + t)
    ensures |h + (b + t)| >= |t| && (h + (b + t))[|h + (b + t)| - |t|..] == t
  {
    assert h + (b + t) == (h + b) + t;
  }

  /** Re-brackets the feed text around one item (for `FeedItemsArePostsNewestFirst`). */
  lemma Regroup(h: string, a: string, b: string, c: string, t: string)
    ensures h + ((a + (b + c)) + t) == h + (a + (b + (c + t)))
  {
  }

  const FeedOpen := "<?xml version=\"1.0\" encoding=\"UTF-8\"?>\n<rss version=\"2.0\" xmlns:atom=\"http://www.w3.org/2005/Atom\">\n  <channel>\n    <title>Jacob Rafal — AI Engineer</title>\n    <description>Deep dives on systems, evaluations, and tradeoffs</description>\n    <link>"
  const SelfLinkOpen := "</link>\n    <atom:link href=\""
  const SelfRel := "/rss.xml\" rel=\"self\""
  const SelfLinkTail := " type=\"application/rss+xml\" />\n    <language>en</language>\n    <lastBuildDate>"
  const ItemsOpen := "</lastBuildDate>\n    "
  const FeedClose := "\n  </channel>\n</rss>"

  /**
   * The channel header: the channel's link is the site, and the `atom:link` with
   * `rel="self"` (section 4.2.7 of RFC 4287) points at the feed's own address.
   */
  function Head(siteUrl: string, buildDate: string): string {
    SelfLink(siteUrl) + (SelfLinkTail + buildDate + ItemsOpen)
  }

  /** The header up to and including the self link's address and relation. */
  function SelfLink(siteUrl: string): string {
    FeedOpen + siteUrl + SelfLinkOpen + siteUrl + SelfRel
  }

  lemma HeadStartsWithSelfLink(siteUrl: string, buildDate: string)
    ensures SelfLink(siteUrl) <= Head(siteUrl, buildDate)
  {
    var l, t := SelfLink(siteUrl), SelfLinkTail + buildDate + ItemsOpen;
    assert (l + t)[..|l|] == l;
  }

  /** The whole feed text: the channel header, the items of the posts newest first, and the closing tags. */
  function Feed(siteUrl: string, buildDate: string, posts: seq<Post>, utc: int -> string): (r: string)
    ensures r == Head(siteUrl, buildDate) + (RenderItems(Items(siteUrl, NewestFirst(posts), utc)) + FeedClose)
    ensures Head(siteUrl, buildDate) <= r
    ensures posts == [] ==> r == Head(siteUrl, buildDate) + FeedClose
  {
    var h := Head(siteUrl, buildDate);
    var body := RenderItems(Items(siteUrl, NewestFirst(posts), utc));
    assert (h + (body + FeedClose))[..|h|] == h;
    assert posts == [] ==> body == "" && body + FeedClose == FeedClose;
    h + (body + FeedClose)
  }

  /** The feed opens with the `rel="self"` link to its own address (section 4.2.7 of RFC 4287). */
  lemma FeedStartsWithSelfLink(siteUrl: string, buildDate: string, posts: seq<Post>, utc: int -> string)
    ensures SelfLink(siteUrl) <= Feed(siteUrl, buildDate, posts, utc)
  {
    HeadStartsWithSelfLink(siteUrl, buildDate);
  }

  /** The feed ends by closing the channel and the document. */
  lemma FeedEndsWithClose(siteUrl: string, buildDate: string, posts: seq<Post>, utc: int -> string)
    ensures var r := Feed(siteUrl, buildDate, posts, utc);
      |r| >= |FeedClose| && r[|r| - |FeedClose|..] == FeedClose
  {
    Framed(Head(siteUrl, buildDate), RenderItems(Items(siteUrl, NewestFirst(posts), utc)), FeedClose);
  }

  datatype Response = Response(body: string, contentType: string)

  /** `GET`: the feed for the configured site, served as RSS. */
  function Get(env: Option<string>, buildDate: string, posts: seq<Post>, utc: int -> string): (r: Response)
    ensures r.contentType == ContentType
    ensures r.body == Feed(Sitemap.SiteUrl(env), buildDate, posts, utc)
  {
    Response(Feed(Sitemap.SiteUrl(env), buildDate, posts, utc), ContentType)
  }

  /**
   * The feed carries the posts newest first: the k-th post of the sorted order has its item
   * right after the channel header and the items of the posts before it, and the items of
   * the posts after it follow.
   */
  lemma FeedItemsArePostsNewestFirst(siteUrl: string, buildDate: string, posts: seq<Post>,
                                     utc: int -> string, k: nat)
    requires k < |posts|
    ensures var sorted := NewestFirst(posts);
      && multiset(sorted) == multiset(posts)
      && (forall i, j :: 0 <= i < j < |sorted| ==> sorted[i].publishedAt >= sorted[j].publishedAt)
      && Feed(siteUrl, buildDate, posts, utc)
         == Head(siteUrl, buildDate) + (RenderItems(Items(siteUrl, sorted[..k], utc))
            + (RenderItem(ItemOf(siteUrl, sorted[k], utc))
            + (RenderItems(Items(siteUrl, sorted[k + 1..], utc)) + FeedClose)))
  {
    var sorted := NewestFirst(posts);
    var xs := Items(siteUrl, sorted, utc);
    assert xs[..k] == Items(siteUrl, sorted[..k], utc);
    assert xs[k + 1..] == Items(siteUrl, sorted[k + 1..], utc);
    assert xs[k] == ItemOf(siteUrl, sorted[k], utc);
    RenderItemsAt(xs, k);
    Regroup(Head(siteUrl, buildDate), RenderItems(xs[..k]), RenderItem(xs[k]), RenderItems(xs[k + 1..]), FeedClose);
  }

  function AsPage(p: Post): Sitemap.Page {
    Sitemap.Page(p.slug, p.publishedAt)
  }

  /**
   * Feed and sitemap agree: the link of every feed item is the address of a sitemap entry
   * built from the same site address and the same posts.
   */
  lemma ItemLinksAreInSitemap(env: Option<string>, projects: seq<Sitemap.Page>, posts: seq<Post>,
                              utc: int -> string, k: nat)
    requires k < |posts|
    ensures var siteUrl := Sitemap.SiteUrl(env);
            var it := Items(siteUrl, NewestFirst(posts), utc)[k];
            var pages := seq(|posts|, i requires 0 <= i < |posts| => AsPage(posts[i]));
            var entries := Sitemap.Build(env, projects, pages);
            exists e :: 0 <= e < |entries| && entries[e].url == it.link
  {
    var siteUrl := Sitemap.SiteUrl(env);
    var sorted := NewestFirst(posts);
    var p := sorted[k];
    assert p in multiset(posts) by { assert p in multiset(sorted); }
    var i :| 0 <= i < |posts| && posts[i] == p;
    var pages := seq(|posts|, i requires 0 <= i < |posts| => AsPage(posts[i]));
    Sitemap.EntriesFollowInputs(env, projects, pages);
    var e := |Sitemap.StaticPaths| + |projects| + i;
    assert Sitemap.Build(env, projects, pages)[e].url == Sitemap.PostUrl(siteUrl, p.slug);
  }
}
