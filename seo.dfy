/**
 * The SEO component: its props with their defaults, and the effect that writes the document
 * title and then finds or appends each meta, link and JSON-LD script element and overwrites its
 * value. The document is a list of elements in document order; `querySelector` is the first
 * element that matches.
 */
module Seo {
  import opened Wrappers

  // ---------------------------------------------------------------------------------------------
  // Elements, selectors and the find-or-append upsert.

  /** The elements the effect can find or create; `Other` is everything else in the document. */
  datatype HeadElement =
    | Meta(attrs: map<string, string>, content: string)
    | Link(rel: string, href: string)
    | Script(id: string, scriptType: string, text: string)
    | Other

  /** `meta[attribute="name"]`, `link[rel="rel"]` and `script#id`. */
  datatype Selector = MetaSel(attribute: string, name: string) | LinkSel(rel: string) | ScriptSel(id: string)

  predicate Matches(e: HeadElement, sel: Selector)
  {
    match sel
    case MetaSel(a, n) => e.Meta? && a in e.attrs && e.attrs[a] == n
    case LinkSel(rel) => e.Link? && e.rel == rel
    case ScriptSel(id) => e.Script? && e.id == id
  }

  /** What the effect writes: a meta's `content`, a link's `href`, a script's `textContent`. */
  function ValueOf(e: HeadElement): string
  {
    match e
    case Meta(_, content) => content
    case Link(_, href) => href
    case Script(_, _, text) => text
    case Other => ""
  }

  /** The element with its written value replaced; what it matches does not change. */
  function SetValue(e: HeadElement, v: string): (r: HeadElement)
    ensures forall sel :: Matches(r, sel) <==> Matches(e, sel)
    ensures e.Other? || ValueOf(r) == v
  {
    match e
    case Meta(attrs, _) => Meta(attrs, v)
    case Link(rel, _) => Link(rel, v)
    case Script(id, t, _) => Script(id, t, v)
    case Other => Other
  }

  /** The element `createElement` builds for a selector, carrying value `v`. */
  function Create(sel: Selector, v: string): (r: HeadElement)
    ensures forall s :: Matches(r, s) <==> s == sel
    ensures ValueOf(r) == v
  {
    match sel
    case MetaSel(a, n) => Meta(map[a := n], v)
    case LinkSel(rel) => Link(rel, v)
    case ScriptSel(id) => Script(id, "application/ld+json", v)
  }

  /** `document.querySelector(sel)`: the position of the first matching element. */
  function FirstMatch(els: seq<HeadElement>, sel: Selector): (r: Option<nat>)
    ensures r.Some? ==> r.value < |els| && Matches(els[r.value], sel)
    ensures r.Some? ==> forall j :: 0 <= j < r.value ==> !Matches(els[j], sel)
    ensures r.None? <==> forall j :: 0 <= j < |els| ==> !Matches(els[j], sel)
  {
    if els == [] then None
    else if Matches(els[0], sel) then Some(0)
    else
      match FirstMatch(els[1..], sel)
      case None => None
      case Some(i) => Some(i + 1)
  }

  /** The value a reader of `querySelector(sel)` sees, if any element matches. */
  function Current(els: seq<HeadElement>, sel: Selector): Option<string>
  {
    match FirstMatch(els, sel)
    case None => None
    case Some(i) => Some(ValueOf(els[i]))
  }

  /** Find the first match and overwrite its value, or append a new element carrying it. */
  function Upsert(els: seq<HeadElement>, sel: Selector, v: string): (r: seq<HeadElement>)
    ensures Current(r, sel) == Some(v)
  {
    match FirstMatch(els, sel)
    case Some(i) =>
      var r := els[i := SetValue(els[i], v)];
      assert FirstMatch(r, sel) == Some(i) by { FirstMatchAfterSet(els, sel, i, v); }
      r
    case None =>
      var r := els + [Create(sel, v)];
      assert FirstMatch(r, sel) == Some(|els|) by { FirstMatchAfterAppend(els, sel, v); }
      r
  }

  /** Two documents whose elements match `sel` at the same positions have the same first match. */
  lemma {:induction false} FirstMatchSamePattern(a: seq<HeadElement>, b: seq<HeadElement>, sel: Selector)
    requires |a| == |b|
    requires forall j :: 0 <= j < |a| ==> (Matches(a[j], sel) <==> Matches(b[j], sel))
    ensures FirstMatch(a, sel) == FirstMatch(b, sel)
  {
    if a != [] {
      FirstMatchSamePattern(a[1..], b[1..], sel);
    }
  }

  /** Appending an element that does not match `sel` leaves its first match where it was. */
  lemma {:induction false} FirstMatchAppendOther(els: seq<HeadElement>, x: HeadElement, sel: Selector)
    requires !Matches(x, sel)
    ensures FirstMatch(els + [x], sel) == FirstMatch(els, sel)
  {
    if els != [] {
      assert (els + [x])[1..] == els[1..] + [x];
      FirstMatchAppendOther(els[1..], x, sel);
    } else {
      assert ([x])[1..] == [];
    }
  }

  lemma FirstMatchAfterSet(els: seq<HeadElement>, sel: Selector, i: nat, v: string)
    requires FirstMatch(els, sel) == Some(i)
    ensures FirstMatch(els[i := SetValue(els[i], v)], sel) == Some(i)
  {
    FirstMatchSamePattern(els, els[i := SetValue(els[i], v)], sel);
  }

  lemma FirstMatchAfterAppend(els: seq<HeadElement>, sel: Selector, v: string)
    requires FirstMatch(els, sel).None?
    ensures FirstMatch(els + [Create(sel, v)], sel) == Some(|els|)
  {
    var r := els + [Create(sel, v)];
    assert forall j :: 0 <= j < |els| ==> r[j] == els[j];
    assert Matches(r[|els|], sel);
  }

  /** No match: exactly one element is appended, carrying the selector and the value. */
  lemma UpsertAppendsWhenAbsent(els: seq<HeadElement>, sel: Selector, v: string)
    requires forall j :: 0 <= j < |els| ==> !Matches(els[j], sel)
    ensures Upsert(els, sel, v) == els + [Create(sel, v)]
    ensures |Upsert(els, sel, v)| == |els| + 1
  {
  }

  /** A match: only the first matching element's value changes, and nothing is added. */
  lemma UpsertUpdatesFirstMatch(els: seq<HeadElement>, sel: Selector, v: string, i: nat)
    requires i < |els| && Matches(els[i], sel)
    requires forall j :: 0 <= j < i ==> !Matches(els[j], sel)
    ensures |Upsert(els, sel, v)| == |els|
    ensures Upsert(els, sel, v)[i] == SetValue(els[i], v)
    ensures forall j :: 0 <= j < |els| && j != i ==> Upsert(els, sel, v)[j] == els[j]
  {
    assert FirstMatch(els, sel) == Some(i);
  }

  /** Running the same update twice leaves the document as the first run left it. */
  lemma UpsertIdempotent(els: seq<HeadElement>, sel: Selector, v: string)
    ensures Upsert(Upsert(els, sel, v), sel, v) == Upsert(els, sel, v)
  {
    var r := Upsert(els, sel, v);
    var i := FirstMatch(r, sel).value;
    assert ValueOf(r[i]) == v;
    assert SetValue(r[i], v) == r[i];
  }

  // ---------------------------------------------------------------------------------------------
  // A run of updates.

  /** One call of `updateMetaTag`, `updateLinkTag` or `updateJsonLdScript`. */
  datatype Update = Update(sel: Selector, value: string)

  /** The updates applied in order, the last one outermost. */
  function ApplyAll(els: seq<HeadElement>, ups: seq<Update>): seq<HeadElement>
  {
    if ups == [] then els
    else
      var u := ups[|ups| - 1];
      Upsert(ApplyAll(els, ups[..|ups| - 1]), u.sel, u.value)
  }

  /** Running `a + b` is running `a`, then `b`. */
  lemma {:induction false} ApplyAllAppend(els: seq<HeadElement>, a: seq<Update>, b: seq<Update>)
    ensures ApplyAll(els, a + b) == ApplyAll(ApplyAll(els, a), b)
    decreases |b|
  {
    if b == [] {
      assert a + b == a;
    } else {
      var n := |b| - 1;
      assert (a + b)[..|a + b| - 1] == a + b[..n];
      ApplyAllAppend(els, a, b[..n]);
    }
  }

  /** No element matches two different selectors of `sels`. */
  ghost predicate Exclusive(els: seq<HeadElement>, sels: set<Selector>)
  {
    forall j, s1, s2 :: 0 <= j < |els| && s1 in sels && s2 in sels && Matches(els[j], s1) && Matches(els[j], s2) ==> s1 == s2
  }

  /** The selectors a run uses. */
  function Selectors(ups: seq<Update>): (r: set<Selector>)
    ensures forall k :: 0 <= k < |ups| ==> ups[k].sel in r
    ensures forall s :: s in r ==> exists k :: 0 <= k < |ups| && ups[k].sel == s
  {
    set k | 0 <= k < |ups| :: ups[k].sel
  }

  /** Every update of `ups` uses a selector of `sels`. */
  ghost predicate Within(ups: seq<Update>, sels: set<Selector>)
  {
    forall j :: 0 <= j < |ups| ==> ups[j].sel in sels
  }

  /** No update of `ups` uses `sel`. */
  predicate Untouched(ups: seq<Update>, sel: Selector)
  {
    forall j :: 0 <= j < |ups| ==> ups[j].sel != sel
  }

  lemma UpsertKeepsExclusive(els: seq<HeadElement>, sel: Selector, v: string, sels: set<Selector>)
    requires Exclusive(els, sels)
    ensures Exclusive(Upsert(els, sel, v), sels)
  {
    var r := Upsert(els, sel, v);
    forall j, s1, s2 | 0 <= j < |r| && s1 in sels && s2 in sels && Matches(r[j], s1) && Matches(r[j], s2)
      ensures s1 == s2
    {
      if j < |els| && r[j] != els[j] {
        assert r[j] == SetValue(els[j], v);
      }
    }
  }

  lemma {:induction false} ApplyAllKeepsExclusive(els: seq<HeadElement>, ups: seq<Update>, sels: set<Selector>)
    requires Exclusive(els, sels)
    ensures Exclusive(ApplyAll(els, ups), sels)
    decreases |ups|
  {
    if ups != [] {
      ApplyAllKeepsExclusive(els, ups[..|ups| - 1], sels);
      UpsertKeepsExclusive(ApplyAll(els, ups[..|ups| - 1]), ups[|ups| - 1].sel, ups[|ups| - 1].value, sels);
    }
  }

  /** An update of another selector leaves what `other` reads alone, when no element matches both. */
  lemma UpsertKeepsOthers(els: seq<HeadElement>, sel: Selector, v: string, other: Selector, sels: set<Selector>)
    requires other != sel && sel in sels && other in sels && Exclusive(els, sels)
    ensures Current(Upsert(els, sel, v), other) == Current(els, other)
  {
    match FirstMatch(els, sel) {
      case Some(i) =>
        assert !Matches(els[i], other);
        FirstMatchSamePattern(els, els[i := SetValue(els[i], v)], other);
      case None =>
        FirstMatchAppendOther(els, Create(sel, v), other);
        assert forall j :: 0 <= j < |els| ==> (els + [Create(sel, v)])[j] == els[j];
    }
  }

  /** A run that never uses `sel` leaves what it reads alone. */
  lemma {:induction false} ApplyAllUntouched(els: seq<HeadElement>, ups: seq<Update>, sel: Selector, sels: set<Selector>)
    requires Untouched(ups, sel) && Within(ups, sels) && sel in sels && Exclusive(els, sels)
    ensures Current(ApplyAll(els, ups), sel) == Current(els, sel)
    decreases |ups|
  {
    if ups != [] {
      var n := |ups| - 1;
      ApplyAllUntouched(els, ups[..n], sel, sels);
      ApplyAllKeepsExclusive(els, ups[..n], sels);
      UpsertKeepsOthers(ApplyAll(els, ups[..n]), ups[n].sel, ups[n].value, sel, sels);
    }
  }

  /**
   * After a run of updates, a selector that no later update uses reads the value its own update
   * wrote, provided no element of the document matches two selectors of the run.
   */
  lemma LastUpdateWins(els: seq<HeadElement>, ups: seq<Update>, k: nat, sels: set<Selector>)
    requires k < |ups| && Untouched(ups[k + 1..], ups[k].sel)
    requires Within(ups, sels) && Exclusive(els, sels)
    ensures Current(ApplyAll(els, ups), ups[k].sel) == Some(ups[k].value)
  {
    var front, later := ups[..k + 1], ups[k + 1..];
    assert front + later == ups;
    ApplyAllAppend(els, front, later);
    assert Current(ApplyAll(els, front), ups[k].sel) == Some(ups[k].value) by {
      assert front[..k] == ups[..k] && front[k] == ups[k];
    }
    ApplyAllKeepsExclusive(els, front, sels);
    WithinSuffix(ups, k + 1, sels);
    ApplyAllUntouched(ApplyAll(els, front), later, ups[k].sel, sels);
  }

  lemma WithinSuffix(ups: seq<Update>, k: nat, sels: set<Selector>)
    requires k <= |ups| && Within(ups, sels)
    ensures Within(ups[k..], sels)
  {
    var later := ups[k..];
    forall j | 0 <= j < |later| ensures later[j].sel in sels {
      assert later[j] == ups[k + j];
    }
  }

  // ---------------------------------------------------------------------------------------------
  // The component.

  datatype PageType = Website | ArticlePage
  {
    function Name(): string
    {
      match this
      case Website => "website"
      case ArticlePage => "article"
    }
  }

  /** The props; `None` is a prop left undefined, which takes its default. */
  datatype SeoProps = SeoProps(
    title: Option<string>, description: Option<string>, keywords: Option<string>,
    ogImage: Option<string>, ogUrl: Option<string>, pageType: Option<PageType>,
    noIndex: Option<bool>)

  const NoProps := SeoProps(None, None, None, None, None, None, None)

  const DefaultTitle := "Zenture IT Solutions - Web, Mobile, AI & IoT Development Company"
  const DefaultDescription := "Leading software development company providing web development, mobile app development, IoT solutions, and AI-powered services. Trusted by Indian Army, Forest Department & Guinness World Records."
  const DefaultKeywords := "software development, web development, mobile app development, IoT solutions, AI development, React development, Node.js, Flutter, Python, custom software, enterprise solutions, Zenture IT Solutions"
  const DefaultOgImage := "https://zenture.in/og-image.jpg"
  const SiteUrl := "https://zenture.in"
  const SiteName := "Zenture IT Solutions"

  /** The props after destructuring with defaults: an undefined prop takes its default, any given one is kept. */
  datatype Resolved = Resolved(
    title: string, description: string, keywords: string, ogImage: string, ogUrl: string,
    pageType: PageType, noIndex: bool)

  function Resolve(p: SeoProps): (r: Resolved)
    ensures p.title.Some? ==> r.title == p.title.value
    ensures p.title.None? ==> r.title == DefaultTitle
    ensures p.ogUrl.None? ==> r.ogUrl == SiteUrl
    ensures p.pageType.None? ==> r.pageType == Website
    ensures p.noIndex.None? ==> !r.noIndex
  {
    Resolved(
      p.title.GetOr(DefaultTitle), p.description.GetOr(DefaultDescription),
      p.keywords.GetOr(DefaultKeywords), p.ogImage.GetOr(DefaultOgImage),
      p.ogUrl.GetOr(SiteUrl), p.pageType.GetOr(Website), p.noIndex.GetOr(false))
  }

  /** `robotsContent` */
  function Robots(noIndex: bool): (r: string)
    ensures r == "noindex, nofollow" <==> noIndex
    ensures r == "index, follow" <==> !noIndex
  {
    if noIndex then "noindex, nofollow" else "index, follow"
  }

  /** The parts of the three JSON-LD objects that depend on the props; the rest is fixed text. */
  datatype Schema = OrganizationSchema(description: string) | WebSiteSchema | WebPageSchema(name: string, description: string, url: string)

  function NameMeta(name: string, v: string): Update { Update(MetaSel("name", name), v) }
  function PropertyMeta(name: string, v: string): Update { Update(MetaSel("property", name), v) }

  /** The standard meta tags; robots is the fourth. */
  function StandardTags(r: Resolved): (ups: seq<Update>)
    ensures |ups| == 9 && ups[3] == NameMeta("robots", Robots(r.noIndex))
    ensures Untouched(ups[4..], MetaSel("name", "robots"))
  {
    var ups := [
      NameMeta("description", r.description), NameMeta("keywords", r.keywords),
      NameMeta("author", SiteName), NameMeta("robots", Robots(r.noIndex)),
      NameMeta("viewport", "width=device-width, initial-scale=1.0"), NameMeta("language", "English"),
      NameMeta("revisit-after", "7 days"), NameMeta("referrer", "strict-origin-when-cross-origin"),
      NameMeta("format-detection", "telephone=no")];
    assert ups[4..] == [ups[4], ups[5], ups[6], ups[7], ups[8]];
    ups
  }

  /** The Open Graph tags, all keyed by `property`; og:url is the fourth and og:type the fifth. */
  function OpenGraphTags(r: Resolved): (ups: seq<Update>)
    ensures |ups| == 7
    ensures ups[3] == PropertyMeta("og:url", r.ogUrl) && ups[4] == PropertyMeta("og:type", r.pageType.Name())
    ensures forall j :: 0 <= j < |ups| ==> ups[j].sel.MetaSel? && ups[j].sel.attribute == "property"
    ensures Untouched(ups[4..], MetaSel("property", "og:url"))
    ensures Untouched(ups[5..], MetaSel("property", "og:type"))
  {
    var ups := [
      PropertyMeta("og:title", r.title), PropertyMeta("og:description", r.description),
      PropertyMeta("og:image", r.ogImage), PropertyMeta("og:url", r.ogUrl),
      PropertyMeta("og:type", r.pageType.Name()), PropertyMeta("og:site_name", SiteName),
      PropertyMeta("og:locale", "en_IN")];
    assert ups[4..] == [ups[4], ups[5], ups[6]];
    assert ups[5..] == [ups[5], ups[6]];
    ups
  }

  /** The Twitter card tags, keyed by `name`; twitter:url is the fifth. */
  function TwitterTags(r: Resolved): (ups: seq<Update>)
    ensures |ups| == 6 && ups[4] == NameMeta("twitter:url", r.ogUrl)
    ensures Untouched(ups[5..], MetaSel("name", "twitter:url"))
    ensures Untouched(ups, MetaSel("name", "robots"))
  {
    var ups := [
      NameMeta("twitter:card", "summary_large_image"), NameMeta("twitter:title", r.title),
      NameMeta("twitter:description", r.description), NameMeta("twitter:image", r.ogImage),
      NameMeta("twitter:url", r.ogUrl), NameMeta("twitter:site", "@zentureit")];
    assert ups[5..] == [ups[5]];
    ups
  }

  /** The theme colour tags, the canonical link and the three JSON-LD scripts. */
  function TrailingUpdates(r: Resolved, stringify: Schema -> string): (ups: seq<Update>)
    ensures |ups| == 6 && ups[2] == Update(LinkSel("canonical"), r.ogUrl)
    ensures Untouched(ups, MetaSel("name", "robots")) && Untouched(ups, MetaSel("name", "twitter:url"))
    ensures forall j :: 0 <= j < |ups| ==> ups[j].sel != MetaSel("property", "og:url") && ups[j].sel != MetaSel("property", "og:type")
    ensures Untouched(ups[3..], LinkSel("canonical"))
  {
    var ups := [
      NameMeta("theme-color", "#0891b2"), NameMeta("msapplication-TileColor", "#0891b2"),
      Update(LinkSel("canonical"), r.ogUrl),
      Update(ScriptSel("schema-organization"), stringify(OrganizationSchema(r.description))),
      Update(ScriptSel("schema-website"), stringify(WebSiteSchema)),
      Update(ScriptSel("schema-webpage"), stringify(WebPageSchema(r.title, r.description, r.ogUrl)))];
    assert ups[3..] == [ups[3], ups[4], ups[5]];
    ups
  }

  /**
   * The updates of the effect, in call order. `stringify` stands for `JSON.stringify` of the
   * object a schema describes.
   */
  function SeoUpdates(r: Resolved, stringify: Schema -> string): (ups: seq<Update>)
    ensures |ups| == 28
  {
    StandardTags(r) + (OpenGraphTags(r) + (TwitterTags(r) + TrailingUpdates(r, stringify)))
  }

  lemma UntouchedAppend(a: seq<Update>, b: seq<Update>, sel: Selector)
    requires Untouched(a, sel) && Untouched(b, sel)
    ensures Untouched(a + b, sel)
  {
    assert forall j :: |a| <= j < |a + b| ==> (a + b)[j] == b[j - |a|];
  }

  lemma UntouchedSuffix(a: seq<Update>, b: seq<Update>, k: nat, sel: Selector)
    requires k <= |a| && Untouched(a[k..], sel) && Untouched(b, sel)
    ensures Untouched((a + b)[k..], sel)
  {
    assert (a + b)[k..] == a[k..] + b;
    UntouchedAppend(a[k..], b, sel);
  }

  /**
   * After the effect on a document where no element matches two of its selectors: robots follows
   * `noIndex`, og:url, twitter:url and the canonical link all carry `ogUrl`, and og:type the page type.
   */
  lemma SeoOutcome(els: seq<HeadElement>, p: SeoProps, stringify: Schema -> string)
    requires Exclusive(els, Selectors(SeoUpdates(Resolve(p), stringify)))
    ensures var after := ApplyAll(els, SeoUpdates(Resolve(p), stringify));
      && Current(after, MetaSel("name", "robots")) == Some(Robots(Resolve(p).noIndex))
      && Current(after, MetaSel("property", "og:url")) == Some(Resolve(p).ogUrl)
      && Current(after, MetaSel("property", "og:type")) == Some(Resolve(p).pageType.Name())
      && Current(after, MetaSel("name", "twitter:url")) == Some(Resolve(p).ogUrl)
      && Current(after, LinkSel("canonical")) == Some(Resolve(p).ogUrl)
  {
    var r := Resolve(p);
    var ups := SeoUpdates(r, stringify);
    assert Within(ups, Selectors(ups));
    RobotsOutcome(els, r, stringify);
    OgUrlOutcome(els, r, stringify);
    OgTypeOutcome(els, r, stringify);
    TwitterOutcome(els, r, stringify);
    CanonicalOutcome(els, r, stringify);
  }

  /**
   * `LastUpdateWins` for a run made of a prefix, a group and a suffix: an update at `k` in the
   * group wins when neither the rest of the group nor the suffix uses its selector.
   */
  lemma GroupUpdateWins(els: seq<HeadElement>, pre: seq<Update>, grp: seq<Update>, post: seq<Update>, k: nat, sels: set<Selector>)
    requires k < |grp| && Untouched(grp[k + 1..], grp[k].sel) && Untouched(post, grp[k].sel)
    requires Within(pre + (grp + post), sels) && Exclusive(els, sels)
    ensures Current(ApplyAll(els, pre + (grp + post)), grp[k].sel) == Some(grp[k].value)
  {
    var ups := pre + (grp + post);
    UntouchedSuffix(grp, post, k + 1, grp[k].sel);
    assert ups[|pre| + k + 1..] == (grp + post)[k + 1..];
    assert ups[|pre| + k] == grp[k];
    LastUpdateWins(els, ups, |pre| + k, sels);
  }

  lemma RobotsOutcome(els: seq<HeadElement>, r: Resolved, stringify: Schema -> string)
    requires Within(SeoUpdates(r, stringify), Selectors(SeoUpdates(r, stringify)))
    requires Exclusive(els, Selectors(SeoUpdates(r, stringify)))
    ensures Current(ApplyAll(els, SeoUpdates(r, stringify)), MetaSel("name", "robots")) == Some(Robots(r.noIndex))
  {
    var st, og, tw, tr := StandardTags(r), OpenGraphTags(r), TwitterTags(r), TrailingUpdates(r, stringify);
    var robots := MetaSel("name", "robots");
    assert Untouched(og, robots);
    UntouchedAppend(tw, tr, robots);
    UntouchedAppend(og, tw + tr, robots);
    assert st + (og + (tw + tr)) == [] + (st + (og + (tw + tr)));
    GroupUpdateWins(els, [], st, og + (tw + tr), 3, Selectors(SeoUpdates(r, stringify)));
  }

  lemma OgUrlOutcome(els: seq<HeadElement>, r: Resolved, stringify: Schema -> string)
    requires Within(SeoUpdates(r, stringify), Selectors(SeoUpdates(r, stringify)))
    requires Exclusive(els, Selectors(SeoUpdates(r, stringify)))
    ensures Current(ApplyAll(els, SeoUpdates(r, stringify)), MetaSel("property", "og:url")) == Some(r.ogUrl)
  {
    var st, og, tw, tr := StandardTags(r), OpenGraphTags(r), TwitterTags(r), TrailingUpdates(r, stringify);
    var url := MetaSel("property", "og:url");
    assert Untouched(tw, url);
    UntouchedAppend(tw, tr, url);
    GroupUpdateWins(els, st, og, tw + tr, 3, Selectors(SeoUpdates(r, stringify)));
  }

  lemma OgTypeOutcome(els: seq<HeadElement>, r: Resolved, stringify: Schema -> string)
    requires Within(SeoUpdates(r, stringify), Selectors(SeoUpdates(r, stringify)))
    requires Exclusive(els, Selectors(SeoUpdates(r, stringify)))
    ensures Current(ApplyAll(els, SeoUpdates(r, stringify)), MetaSel("property", "og:type")) == Some(r.pageType.Name())
  {
    var st, og, tw, tr := StandardTags(r), OpenGraphTags(r), TwitterTags(r), TrailingUpdates(r, stringify);
    var kind := MetaSel("property", "og:type");
    assert Untouched(tw, kind);
    UntouchedAppend(tw, tr, kind);
    GroupUpdateWins(els, st, og, tw + tr, 4, Selectors(SeoUpdates(r, stringify)));
  }

  lemma TwitterOutcome(els: seq<HeadElement>, r: Resolved, stringify: Schema -> string)
    requires Within(SeoUpdates(r, stringify), Selectors(SeoUpdates(r, stringify)))
    requires Exclusive(els, Selectors(SeoUpdates(r, stringify)))
    ensures Current(ApplyAll(els, SeoUpdates(r, stringify)), MetaSel("name", "twitter:url")) == Some(r.ogUrl)
  {
    var st, og, tw, tr := StandardTags(r), OpenGraphTags(r), TwitterTags(r), TrailingUpdates(r, stringify);
    assert st + (og + (tw + tr)) == (st + og) + (tw + tr);
    GroupUpdateWins(els, st + og, tw, tr, 4, Selectors(SeoUpdates(r, stringify)));
  }

  lemma CanonicalOutcome(els: seq<HeadElement>, r: Resolved, stringify: Schema -> string)
    requires Within(SeoUpdates(r, stringify), Selectors(SeoUpdates(r, stringify)))
    requires Exclusive(els, Selectors(SeoUpdates(r, stringify)))
    ensures Current(ApplyAll(els, SeoUpdates(r, stringify)), LinkSel("canonical")) == Some(r.ogUrl)
  {
    var st, og, tw, tr := StandardTags(r), OpenGraphTags(r), TwitterTags(r), TrailingUpdates(r, stringify);
    assert st + (og + (tw + tr)) == (st + (og + tw)) + (tr + []);
    GroupUpdateWins(els, st + (og + tw), tr, [], 2, Selectors(SeoUpdates(r, stringify)));
  }

  /** The document the effect works on. */
  class DocumentHead {
    var title: string
    var elements: seq<HeadElement>

    constructor(title0: string, elements0: seq<HeadElement>)
      ensures title == title0 && elements == elements0
    {
      title := title0;
      elements := elements0;
    }

    /** `updateMetaTag(name, content, attribute)` */
    method UpdateMetaTag(name: string, content: string, attribute: string)
      modifies this
      ensures elements == Upsert(old(elements), MetaSel(attribute, name), content)
      ensures title == old(title)
    {
      elements := Upsert(elements, MetaSel(attribute, name), content);
    }

    /** `updateLinkTag(rel, href)` */
    method UpdateLinkTag(rel: string, href: string)
      modifies this
      ensures elements == Upsert(old(elements), LinkSel(rel), href)
      ensures title == old(title)
    {
      elements := Upsert(elements, LinkSel(rel), href);
    }

    /** `updateJsonLdScript(id, data)`, with `text` the serialised data. */
    method UpdateJsonLdScript(id: string, text: string)
      modifies this
      ensures elements == Upsert(old(elements), ScriptSel(id), text)
      ensures title == old(title)
    {
      elements := Upsert(elements, ScriptSel(id), text);
    }

    /** The updates of `ups`, one call each, in order. */
    method ApplyUpdates(ups: seq<Update>)
      modifies this
      ensures elements == ApplyAll(old(elements), ups)
      ensures title == old(title)
    {
      ghost var start := elements;
      for i := 0 to |ups|
        invariant elements == ApplyAll(start, ups[..i])
        invariant title == old(title)
      {
        assert ups[..i + 1][..i] == ups[..i];
        match ups[i].sel
        case MetaSel(attribute, name) => UpdateMetaTag(name, ups[i].value, attribute);
        case LinkSel(rel) => UpdateLinkTag(rel, ups[i].value);
        case ScriptSel(id) => UpdateJsonLdScript(id, ups[i].value);
      }
      assert ups[..|ups|] == ups;
    }

    /** The effect: the title, then each update of `SeoUpdates` in call order. */
    method ApplySeo(p: SeoProps, stringify: Schema -> string)
      modifies this
      ensures title == Resolve(p).title
      ensures elements == ApplyAll(old(elements), SeoUpdates(Resolve(p), stringify))
    {
      var r := Resolve(p);
      title := r.title;
      ApplyUpdates(SeoUpdates(r, stringify));
    }
  }
}
