/**
 * The article page: the slug taken from the path, the first post of the site content with that
 * slug, and the two views, with the props they pass to the SEO component.
 */
module BlogArticle {
  import opened Wrappers
  import opened Js
  import opened Strings
  import opened SiteContent
  import opened Seo

  /**
   * `decodeURIComponent(pathname.replace('/blog/', ''))`: the first '/blog/' is removed wherever
   * it occurs. `decode` stands for `decodeURIComponent`.
   */
  function SlugFromPath(path: string, decode: string -> string): (slug: string)
    ensures IndexOf(path, "/blog/").None? ==> slug == decode(path)
    ensures IndexOf(path, "/blog/").Some? ==>
      var i := IndexOf(path, "/blog/").value; slug == decode(path[..i] + path[i + 6..])
  {
    var stripped := ReplaceFirst(path, "/blog/", "");
    assert IndexOf(path, "/blog/").Some? ==>
      var i := IndexOf(path, "/blog/").value; path[..i] + "" == path[..i];
    decode(stripped)
  }

  /** An article path `/blog/<rest>` gives the decoded rest. */
  lemma SlugOfArticlePath(rest: string, decode: string -> string)
    ensures SlugFromPath("/blog/" + rest, decode) == decode(rest)
  {
    ReplaceLeadingPattern("/blog/", rest);
  }

  /** `posts.find(item => item.slug === slug)` */
  function FindPost(posts: seq<BlogPostContent>, slug: string): (r: Option<BlogPostContent>)
    ensures r.Some? ==> r.value.slug == slug
    ensures r.Some? ==> exists i :: 0 <= i < |posts| && posts[i] == r.value && forall j :: 0 <= j < i ==> posts[j].slug != slug
    ensures r.None? <==> forall i :: 0 <= i < |posts| ==> posts[i].slug != slug
  {
    if posts == [] then None
    else if posts[0].slug == slug then Some(posts[0])
    else
      var r := FindPost(posts[1..], slug);
      assert r.Some? ==> exists i :: 0 <= i < |posts[1..]| && posts[1..][i] == r.value && forall j :: 0 <= j < i ==> posts[1..][j].slug != slug;
      if r.Some? then
        var i :| 0 <= i < |posts[1..]| && posts[1..][i] == r.value && forall j :: 0 <= j < i ==> posts[1..][j].slug != slug;
        assert posts[i + 1] == r.value;
        assert forall j :: 0 <= j < i + 1 ==> posts[j].slug != slug by {
          forall j | 0 <= j < i + 1 ensures posts[j].slug != slug {
            if j > 0 {
              assert posts[j] == posts[1..][j - 1];
            }
          }
        }
        r
      else
        r
  }

  /** With distinct slugs, a post is found by its own slug. */
  lemma FindBySlug(posts: seq<BlogPostContent>, k: nat)
    requires k < |posts| && Distinct(BlogPostSlugs(posts))
    ensures FindPost(posts, posts[k].slug) == Some(posts[k])
  {
    var r := FindPost(posts, posts[k].slug);
    var i :| 0 <= i < |posts| && posts[i] == r.value && forall j :: 0 <= j < i ==> posts[j].slug != posts[k].slug;
    var slugs := BlogPostSlugs(posts);
    assert slugs[i] == posts[i].slug && slugs[k] == posts[k].slug;
    assert i == k;
  }

  const NotFoundTitle := "Article Not Found - Zenture IT Solutions"
  const NotFoundDescription := "The requested blog article was not found."
  const TitleSuffix := " | Zenture IT Solutions"
  const BlogUrlPrefix := "https://zenture.in/blog/"

  /** What the page renders: the not-found view, or the post with its body text. */
  datatype ArticleView =
    | NotFound(seo: SeoProps)
    | Found(seo: SeoProps, post: BlogPostContent, body: string)

  /** The page for `path` over the posts of the site content. */
  function RenderArticle(posts: seq<BlogPostContent>, path: string, decode: string -> string): (v: ArticleView)
    ensures v.NotFound? <==> forall i :: 0 <= i < |posts| ==> posts[i].slug != SlugFromPath(path, decode)
    ensures v.NotFound? ==> v.seo.ogUrl == Some(BlogUrlPrefix + SlugFromPath(path, decode))
    ensures v.Found? ==> v.post == FindPost(posts, SlugFromPath(path, decode)).value
  {
    var slug := SlugFromPath(path, decode);
    match FindPost(posts, slug)
    case None =>
      NotFound(SeoProps(Some(NotFoundTitle), Some(NotFoundDescription), None, None,
        Some(BlogUrlPrefix + slug), None, Some(true)))
    case Some(post) =>
      Found(
        SeoProps(
          Some(OrElse(post.metaTitle.GetOr(""), post.title + TitleSuffix)),
          Some(OrElse(post.metaDescription.GetOr(""), post.excerpt)),
          None, None, Some(BlogUrlPrefix + post.slug), Some(ArticlePage), None),
        post,
        OrElse(post.content.GetOr(""), post.excerpt))
  }

  /** The not-found view asks robots not to index it and keeps the other SEO defaults. */
  lemma NotFoundSeo(posts: seq<BlogPostContent>, path: string, decode: string -> string)
    requires forall i :: 0 <= i < |posts| ==> posts[i].slug != SlugFromPath(path, decode)
    ensures var r := Resolve(RenderArticle(posts, path, decode).seo);
      && r.noIndex && Robots(r.noIndex) == "noindex, nofollow"
      && r.title == NotFoundTitle && r.description == NotFoundDescription
      && r.ogUrl == BlogUrlPrefix + SlugFromPath(path, decode)
      && r.pageType == Website && r.ogImage == DefaultOgImage
  {
  }

  /**
   * A found post: the title is its meta title when that is non-empty and otherwise its title
   * with the site suffix; the description and the body fall back to the excerpt; the page is an
   * indexable article whose URL carries the slug from the path.
   */
  lemma FoundSeo(posts: seq<BlogPostContent>, path: string, decode: string -> string)
    requires RenderArticle(posts, path, decode).Found?
    ensures var v := RenderArticle(posts, path, decode);
      var r := Resolve(v.seo);
      var p := v.post;
      && p.slug == SlugFromPath(path, decode)
      && r.title == (if p.metaTitle.Some? && p.metaTitle.value != "" then p.metaTitle.value else p.title + TitleSuffix)
      && r.description == (if p.metaDescription.Some? && p.metaDescription.value != "" then p.metaDescription.value else p.excerpt)
      && v.body == (if p.content.Some? && p.content.value != "" then p.content.value else p.excerpt)
      && r.pageType == ArticlePage && !r.noIndex && Robots(r.noIndex) == "index, follow"
      && r.ogUrl == BlogUrlPrefix + SlugFromPath(path, decode)
  {
  }

  /** Each default post is found at `/blog/<its slug>`, when decoding leaves the slug as it is. */
  lemma DefaultArticleFound(k: nat, decode: string -> string)
    requires k < 6 && decode(DefaultSlugList[k]) == DefaultSlugList[k]
    ensures RenderArticle(DefaultSiteContent.blog.posts, "/blog/" + DefaultSlugList[k], decode)
      == var p := DefaultSiteContent.blog.posts[k];
         Found(
           SeoProps(Some(OrElse(p.metaTitle.GetOr(""), p.title + TitleSuffix)),
             Some(OrElse(p.metaDescription.GetOr(""), p.excerpt)), None, None,
             Some(BlogUrlPrefix + DefaultSlugList[k]), Some(ArticlePage), None),
           p, OrElse(p.content.GetOr(""), p.excerpt))
  {
    SlugOfArticlePath(DefaultSlugList[k], decode);
    DefaultBlogSlugs();
    DefaultSlugsDistinct();
    assert DefaultSiteContent.blog.posts[k].slug == BlogPostSlugs(DefaultSiteContent.blog.posts)[k];
    FindBySlug(DefaultSiteContent.blog.posts, k);
  }
}
