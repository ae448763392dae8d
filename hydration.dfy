/**
 * Hydration of the site content: the provider starts from the built-in defaults and, once the
 * content service answers, replaces them by a merge of the defaults with the fetched payload.
 * Scalars follow object-spread semantics (a key present in the payload wins, whatever its value);
 * every list goes through `pickArray` (the fetched list only when it is a non-empty array).
 */
module Hydration {
  import opened Wrappers
  import opened Js
  import opened SiteContent

  // ---------------------------------------------------------------------------------------------
  // The fetched payload. Every key may be missing: a scalar key is `Option<Value>` (None = the key
  // is absent), a list key is `Option<seq<T>>` (None = absent, null or not an array) and a section
  // is `Option<...>` (None = absent or null, which spreads as nothing).

  datatype FetchedAbout = FetchedAbout(
    titlePrefix: Option<Value>,
    titleHighlight: Option<Value>,
    subtitle: Option<Value>,
    yearsValue: Option<Value>,
    yearsLabel: Option<Value>,
    paragraph1: Option<Value>,
    paragraph2: Option<Value>,
    highlights: Option<seq<string>>,
    values: Option<seq<AboutValue>>)

  datatype FetchedServices = FetchedServices(
    titlePrefix: Option<Value>,
    titleHighlight: Option<Value>,
    subtitle: Option<Value>,
    ctaText: Option<Value>,
    ctaHref: Option<Value>,
    items: Option<seq<ServiceItem>>)

  datatype FetchedIot = FetchedIot(
    titlePrefix: Option<Value>,
    titleHighlight: Option<Value>,
    subtitle: Option<Value>,
    implementationTitle: Option<Value>,
    implementationDescription: Option<Value>,
    applicationAreaTitle: Option<Value>,
    features: Option<seq<IotFeature>>,
    useCases: Option<seq<string>>)

  datatype FetchedPortfolio = FetchedPortfolio(
    titlePrefix: Option<Value>,
    titleHighlight: Option<Value>,
    subtitle: Option<Value>,
    categories: Option<seq<string>>,
    ctaText: Option<Value>,
    ctaHref: Option<Value>,
    items: Option<seq<PortfolioItem>>)

  datatype FetchedBlog = FetchedBlog(
    titlePrefix: Option<Value>,
    titleHighlight: Option<Value>,
    subtitle: Option<Value>,
    categories: Option<seq<string>>,
    posts: Option<seq<BlogPostContent>>)

  datatype FetchedResearch = FetchedResearch(
    titlePrefix: Option<Value>,
    titleHighlight: Option<Value>,
    subtitle: Option<Value>,
    labTitle: Option<Value>,
    labDescription: Option<Value>,
    publicationSectionTitle: Option<Value>,
    areas: Option<seq<ResearchArea>>,
    publications: Option<seq<ResearchPublication>>,
    achievements: Option<seq<ResearchAchievement>>)

  datatype FetchedTestimonials = FetchedTestimonials(
    titlePrefix: Option<Value>,
    titleHighlight: Option<Value>,
    subtitle: Option<Value>,
    items: Option<seq<TestimonialItem>>,
    stats: Option<seq<TestimonialStat>>)

  datatype FetchedContact = FetchedContact(
    titlePrefix: Option<Value>,
    titleHighlight: Option<Value>,
    subtitle: Option<Value>,
    infoTitle: Option<Value>,
    infoDescription: Option<Value>,
    responseTitle: Option<Value>,
    responseText: Option<Value>,
    items: Option<seq<ContactInfoItem>>)

  datatype FetchedFooter = FetchedFooter(
    description: Option<Value>,
    quickLinks: Option<seq<string>>,
    services: Option<seq<string>>,
    socialLinks: Option<seq<FooterSocialLink>>,
    legalLinks: Option<seq<FooterLegalLink>>)

  datatype FetchedTrustedBy = FetchedTrustedBy(
    eyebrow: Option<Value>,
    titlePrefix: Option<Value>,
    titleHighlight: Option<Value>,
    subtitle: Option<Value>,
    badgeText: Option<Value>)

  /** The payload the content service returns; None marks an absent (or null) key. */
  datatype FetchedSiteContent = FetchedSiteContent(
    navbarLinks: Option<seq<NavLink>>,
    about: Option<FetchedAbout>,
    services: Option<FetchedServices>,
    iot: Option<FetchedIot>,
    portfolio: Option<FetchedPortfolio>,
    blog: Option<FetchedBlog>,
    research: Option<FetchedResearch>,
    testimonials: Option<FetchedTestimonials>,
    contact: Option<FetchedContact>,
    footer: Option<FetchedFooter>,
    trustedBy: Option<FetchedTrustedBy>)


  const AbsentAbout: FetchedAbout := FetchedAbout(None, None, None, None, None, None, None, None, None)

  const AbsentServices: FetchedServices := FetchedServices(None, None, None, None, None, None)

  const AbsentIot: FetchedIot := FetchedIot(None, None, None, None, None, None, None, None)

  const AbsentPortfolio: FetchedPortfolio := FetchedPortfolio(None, None, None, None, None, None, None)

  const AbsentBlog: FetchedBlog := FetchedBlog(None, None, None, None, None)

  const AbsentResearch: FetchedResearch := FetchedResearch(None, None, None, None, None, None, None, None, None)

  const AbsentTestimonials: FetchedTestimonials := FetchedTestimonials(None, None, None, None, None)

  const AbsentContact: FetchedContact := FetchedContact(None, None, None, None, None, None, None, None)

  const AbsentFooter: FetchedFooter := FetchedFooter(None, None, None, None, None)

  const AbsentTrustedBy: FetchedTrustedBy := FetchedTrustedBy(None, None, None, None, None)


  /** The payload with no key at all. */
  const EmptyPayload: FetchedSiteContent :=
    FetchedSiteContent(None, None, None, None, None, None, None, None, None, None, None)

  /** `cmsContent.<section>?.<key>`: a missing section reads as a section with no keys. */
  function AboutOf(f: FetchedSiteContent): FetchedAbout { f.about.GetOr(AbsentAbout) }
  function ServicesOf(f: FetchedSiteContent): FetchedServices { f.services.GetOr(AbsentServices) }
  function IotOf(f: FetchedSiteContent): FetchedIot { f.iot.GetOr(AbsentIot) }
  function PortfolioOf(f: FetchedSiteContent): FetchedPortfolio { f.portfolio.GetOr(AbsentPortfolio) }
  function BlogOf(f: FetchedSiteContent): FetchedBlog { f.blog.GetOr(AbsentBlog) }
  function ResearchOf(f: FetchedSiteContent): FetchedResearch { f.research.GetOr(AbsentResearch) }
  function TestimonialsOf(f: FetchedSiteContent): FetchedTestimonials { f.testimonials.GetOr(AbsentTestimonials) }
  function ContactOf(f: FetchedSiteContent): FetchedContact { f.contact.GetOr(AbsentContact) }
  function FooterOf(f: FetchedSiteContent): FetchedFooter { f.footer.GetOr(AbsentFooter) }
  function TrustedByOf(f: FetchedSiteContent): FetchedTrustedBy { f.trustedBy.GetOr(AbsentTrustedBy) }

  // ---------------------------------------------------------------------------------------------
  // Merge rules.

  /** `{ ...defaults, ...fetched }` for one scalar key: a present key wins even when null or undefined. */
  function Overlay(default: Value, fetched: Option<Value>): (r: Value)
    ensures fetched.None? ==> r == default
    ensures fetched.Some? ==> r == fetched.value
  {
    match fetched
    case None => default
    case Some(v) => v
  }

  /** The fetched list is usable: it is an array and it has at least one element. */
  predicate Accepted<T>(candidate: Option<seq<T>>)
  {
    candidate.Some? && |candidate.value| > 0
  }

  /** `pickArray(candidate, fallback)`. */
  function PickArray<T>(candidate: Option<seq<T>>, fallback: seq<T>): (r: seq<T>)
    ensures r == fallback || Some(r) == candidate
    ensures |fallback| > 0 ==> |r| > 0
  {
    if Accepted(candidate) then candidate.value else fallback
  }

  function MergeAbout(d: AboutContent, fetched: Option<FetchedAbout>): AboutContent
  {
    var a := fetched.GetOr(AbsentAbout);
    AboutContent(
      Overlay(d.titlePrefix, a.titlePrefix),
      Overlay(d.titleHighlight, a.titleHighlight),
      Overlay(d.subtitle, a.subtitle),
      Overlay(d.yearsValue, a.yearsValue),
      Overlay(d.yearsLabel, a.yearsLabel),
      Overlay(d.paragraph1, a.paragraph1),
      Overlay(d.paragraph2, a.paragraph2),
      PickArray(a.highlights, d.highlights),
      PickArray(a.values, d.values))
  }

  function MergeServices(d: ServicesContent, fetched: Option<FetchedServices>): ServicesContent
  {
    var a := fetched.GetOr(AbsentServices);
    ServicesContent(
      Overlay(d.titlePrefix, a.titlePrefix),
      Overlay(d.titleHighlight, a.titleHighlight),
      Overlay(d.subtitle, a.subtitle),
      Overlay(d.ctaText, a.ctaText),
      Overlay(d.ctaHref, a.ctaHref),
      PickArray(a.items, d.items))
  }

  function MergeIot(d: IotContent, fetched: Option<FetchedIot>): IotContent
  {
    var a := fetched.GetOr(AbsentIot);
    IotContent(
      Overlay(d.titlePrefix, a.titlePrefix),
      Overlay(d.titleHighlight, a.titleHighlight),
      Overlay(d.subtitle, a.subtitle),
      Overlay(d.implementationTitle, a.implementationTitle),
      Overlay(d.implementationDescription, a.implementationDescription),
      Overlay(d.applicationAreaTitle, a.applicationAreaTitle),
      PickArray(a.features, d.features),
      PickArray(a.useCases, d.useCases))
  }

  function MergePortfolio(d: PortfolioContent, fetched: Option<FetchedPortfolio>): PortfolioContent
  {
    var a := fetched.GetOr(AbsentPortfolio);
    PortfolioContent(
      Overlay(d.titlePrefix, a.titlePrefix),
      Overlay(d.titleHighlight, a.titleHighlight),
      Overlay(d.subtitle, a.subtitle),
      PickArray(a.categories, d.categories),
      Overlay(d.ctaText, a.ctaText),
      Overlay(d.ctaHref, a.ctaHref),
      PickArray(a.items, d.items))
  }

  function MergeBlog(d: BlogContent, fetched: Option<FetchedBlog>): BlogContent
  {
    var a := fetched.GetOr(AbsentBlog);
    BlogContent(
      Overlay(d.titlePrefix, a.titlePrefix),
      Overlay(d.titleHighlight, a.titleHighlight),
      Overlay(d.subtitle, a.subtitle),
      PickArray(a.categories, d.categories),
      PickArray(a.posts, d.posts))
  }

  function MergeResearch(d: ResearchContent, fetched: Option<FetchedResearch>): ResearchContent
  {
    var a := fetched.GetOr(AbsentResearch);
    ResearchContent(
      Overlay(d.titlePrefix, a.titlePrefix),
      Overlay(d.titleHighlight, a.titleHighlight),
      Overlay(d.subtitle, a.subtitle),
      Overlay(d.labTitle, a.labTitle),
      Overlay(d.labDescription, a.labDescription),
      Overlay(d.publicationSectionTitle, a.publicationSectionTitle),
      PickArray(a.areas, d.areas),
      PickArray(a.publications, d.publications),
      PickArray(a.achievements, d.achievements))
  }

  function MergeTestimonials(d: TestimonialsContent, fetched: Option<FetchedTestimonials>): TestimonialsContent
  {
    var a := fetched.GetOr(AbsentTestimonials);
    TestimonialsContent(
      Overlay(d.titlePrefix, a.titlePrefix),
      Overlay(d.titleHighlight, a.titleHighlight),
      Overlay(d.subtitle, a.subtitle),
      PickArray(a.items, d.items),
      PickArray(a.stats, d.stats))
  }

  function MergeContact(d: ContactContent, fetched: Option<FetchedContact>): ContactContent
  {
    var a := fetched.GetOr(AbsentContact);
    ContactContent(
      Overlay(d.titlePrefix, a.titlePrefix),
      Overlay(d.titleHighlight, a.titleHighlight),
      Overlay(d.subtitle, a.subtitle),
      Overlay(d.infoTitle, a.infoTitle),
      Overlay(d.infoDescription, a.infoDescription),
      Overlay(d.responseTitle, a.responseTitle),
      Overlay(d.responseText, a.responseText),
      PickArray(a.items, d.items))
  }

  function MergeFooter(d: FooterContent, fetched: Option<FetchedFooter>): FooterContent
  {
    var a := fetched.GetOr(AbsentFooter);
    FooterContent(
      Overlay(d.description, a.description),
      PickArray(a.quickLinks, d.quickLinks),
      PickArray(a.services, d.services),
      PickArray(a.socialLinks, d.socialLinks),
      PickArray(a.legalLinks, d.legalLinks))
  }

  function MergeTrustedBy(d: TrustedByContent, fetched: Option<FetchedTrustedBy>): TrustedByContent
  {
    var a := fetched.GetOr(AbsentTrustedBy);
    TrustedByContent(
      Overlay(d.eyebrow, a.eyebrow),
      Overlay(d.titlePrefix, a.titlePrefix),
      Overlay(d.titleHighlight, a.titleHighlight),
      Overlay(d.subtitle, a.subtitle),
      Overlay(d.badgeText, a.badgeText))
  }


  /**
   * The value handed to `setContent`: the defaults `d`, then the payload spread over them, then
   * every section re-merged key by key. Every key of the model is re-set by the merge, so the
   * top-level spread of the payload has no effect of its own here.
   */
  function Hydrate(d: SiteContent, f: FetchedSiteContent): SiteContent
  {
    SiteContent(
      PickArray(f.navbarLinks, d.navbarLinks),
      MergeAbout(d.about, f.about),
      MergeServices(d.services, f.services),
      MergeIot(d.iot, f.iot),
      MergePortfolio(d.portfolio, f.portfolio),
      MergeBlog(d.blog, f.blog),
      MergeResearch(d.research, f.research),
      MergeTestimonials(d.testimonials, f.testimonials),
      MergeContact(d.contact, f.contact),
      MergeFooter(d.footer, f.footer),
      MergeTrustedBy(d.trustedBy, f.trustedBy))
  }

  // ---------------------------------------------------------------------------------------------
  // Properties of the merge.

  /** `pickArray` takes a non-empty fetched list whole, whatever its elements are. */
  lemma PickArrayAccepts<T>(xs: seq<T>, fallback: seq<T>)
    requires |xs| > 0
    ensures PickArray(Some(xs), fallback) == xs
  {
  }

  /** `pickArray` falls back when the list is missing or empty. */
  lemma PickArrayRejects<T>(fallback: seq<T>)
    ensures PickArray(None, fallback) == fallback
    ensures PickArray(Some([]), fallback) == fallback
  {
  }

  /** `pickArray` only returns a list that differs from the fallback when that list was accepted. */
  lemma PickArrayChangesOnlyWhenAccepted<T>(candidate: Option<seq<T>>, fallback: seq<T>)
    ensures PickArray(candidate, fallback) != fallback ==> Accepted(candidate) && PickArray(candidate, fallback) == candidate.value
  {
  }

  // Scalar keys of each section, in declaration order, and the corresponding fetched keys.
  function AboutScalars(c: AboutContent): seq<Value> { [c.titlePrefix, c.titleHighlight, c.subtitle, c.yearsValue, c.yearsLabel, c.paragraph1, c.paragraph2] }

  function FetchedAboutScalars(a: FetchedAbout): seq<Option<Value>> { [a.titlePrefix, a.titleHighlight, a.subtitle, a.yearsValue, a.yearsLabel, a.paragraph1, a.paragraph2] }

  function ServicesScalars(c: ServicesContent): seq<Value> { [c.titlePrefix, c.titleHighlight, c.subtitle, c.ctaText, c.ctaHref] }

  function FetchedServicesScalars(a: FetchedServices): seq<Option<Value>> { [a.titlePrefix, a.titleHighlight, a.subtitle, a.ctaText, a.ctaHref] }

  function IotScalars(c: IotContent): seq<Value> { [c.titlePrefix, c.titleHighlight, c.subtitle, c.implementationTitle, c.implementationDescription, c.applicationAreaTitle] }

  function FetchedIotScalars(a: FetchedIot): seq<Option<Value>> { [a.titlePrefix, a.titleHighlight, a.subtitle, a.implementationTitle, a.implementationDescription, a.applicationAreaTitle] }

  function PortfolioScalars(c: PortfolioContent): seq<Value> { [c.titlePrefix, c.titleHighlight, c.subtitle, c.ctaText, c.ctaHref] }

  function FetchedPortfolioScalars(a: FetchedPortfolio): seq<Option<Value>> { [a.titlePrefix, a.titleHighlight, a.subtitle, a.ctaText, a.ctaHref] }

  function BlogScalars(c: BlogContent): seq<Value> { [c.titlePrefix, c.titleHighlight, c.subtitle] }

  function FetchedBlogScalars(a: FetchedBlog): seq<Option<Value>> { [a.titlePrefix, a.titleHighlight, a.subtitle] }

  function ResearchScalars(c: ResearchContent): seq<Value> { [c.titlePrefix, c.titleHighlight, c.subtitle, c.labTitle, c.labDescription, c.publicationSectionTitle] }

  function FetchedResearchScalars(a: FetchedResearch): seq<Option<Value>> { [a.titlePrefix, a.titleHighlight, a.subtitle, a.labTitle, a.labDescription, a.publicationSectionTitle] }

  function TestimonialsScalars(c: TestimonialsContent): seq<Value> { [c.titlePrefix, c.titleHighlight, c.subtitle] }

  function FetchedTestimonialsScalars(a: FetchedTestimonials): seq<Option<Value>> { [a.titlePrefix, a.titleHighlight, a.subtitle] }

  function ContactScalars(c: ContactContent): seq<Value> { [c.titlePrefix, c.titleHighlight, c.subtitle, c.infoTitle, c.infoDescription, c.responseTitle, c.responseText] }

  function FetchedContactScalars(a: FetchedContact): seq<Option<Value>> { [a.titlePrefix, a.titleHighlight, a.subtitle, a.infoTitle, a.infoDescription, a.responseTitle, a.responseText] }

  function FooterScalars(c: FooterContent): seq<Value> { [c.description] }

  function FetchedFooterScalars(a: FetchedFooter): seq<Option<Value>> { [a.description] }

  function TrustedByScalars(c: TrustedByContent): seq<Value> { [c.eyebrow, c.titlePrefix, c.titleHighlight, c.subtitle, c.badgeText] }

  function FetchedTrustedByScalars(a: FetchedTrustedBy): seq<Option<Value>> { [a.eyebrow, a.titlePrefix, a.titleHighlight, a.subtitle, a.badgeText] }

  /** Every result scalar is the fetched value where the key is present and the default elsewhere. */
  predicate Overlaid(defaults: seq<Value>, fetched: seq<Option<Value>>, result: seq<Value>)
  {
    && |defaults| == |fetched| == |result|
    && (forall i :: 0 <= i < |result| && fetched[i].Some? ==> result[i] == fetched[i].value)
    && (forall i :: 0 <= i < |result| && fetched[i].None? ==> result[i] == defaults[i])
  }

  predicate NoneSet(fetched: seq<Option<Value>>)
  {
    forall i :: 0 <= i < |fetched| ==> fetched[i].None?
  }

  // Per-section forms of the merge properties.

  lemma MergeAboutOverlaid(d: AboutContent, fetched: Option<FetchedAbout>)
    ensures Overlaid(AboutScalars(d), FetchedAboutScalars(fetched.GetOr(AbsentAbout)), AboutScalars(MergeAbout(d, fetched)))
  {
  }

  lemma MergeAboutUnchanged(d: AboutContent, fetched: Option<FetchedAbout>)
    requires NoneSet(FetchedAboutScalars(fetched.GetOr(AbsentAbout))) && !Accepted(fetched.GetOr(AbsentAbout).highlights) && !Accepted(fetched.GetOr(AbsentAbout).values)
    ensures MergeAbout(d, fetched) == d
  {
    var a := fetched.GetOr(AbsentAbout);
    assert FetchedAboutScalars(a)[0].None?;
    assert FetchedAboutScalars(a)[1].None?;
    assert FetchedAboutScalars(a)[2].None?;
    assert FetchedAboutScalars(a)[3].None?;
    assert FetchedAboutScalars(a)[4].None?;
    assert FetchedAboutScalars(a)[5].None?;
    assert FetchedAboutScalars(a)[6].None?;
  }

  lemma MergeServicesOverlaid(d: ServicesContent, fetched: Option<FetchedServices>)
    ensures Overlaid(ServicesScalars(d), FetchedServicesScalars(fetched.GetOr(AbsentServices)), ServicesScalars(MergeServices(d, fetched)))
  {
  }

  lemma MergeServicesUnchanged(d: ServicesContent, fetched: Option<FetchedServices>)
    requires NoneSet(FetchedServicesScalars(fetched.GetOr(AbsentServices))) && !Accepted(fetched.GetOr(AbsentServices).items)
    ensures MergeServices(d, fetched) == d
  {
    var a := fetched.GetOr(AbsentServices);
    assert FetchedServicesScalars(a)[0].None?;
    assert FetchedServicesScalars(a)[1].None?;
    assert FetchedServicesScalars(a)[2].None?;
    assert FetchedServicesScalars(a)[3].None?;
    assert FetchedServicesScalars(a)[4].None?;
  }

  lemma MergeIotOverlaid(d: IotContent, fetched: Option<FetchedIot>)
    ensures Overlaid(IotScalars(d), FetchedIotScalars(fetched.GetOr(AbsentIot)), IotScalars(MergeIot(d, fetched)))
  {
  }

  lemma MergeIotUnchanged(d: IotContent, fetched: Option<FetchedIot>)
    requires NoneSet(FetchedIotScalars(fetched.GetOr(AbsentIot))) && !Accepted(fetched.GetOr(AbsentIot).features) && !Accepted(fetched.GetOr(AbsentIot).useCases)
    ensures MergeIot(d, fetched) == d
  {
    var a := fetched.GetOr(AbsentIot);
    assert FetchedIotScalars(a)[0].None?;
    assert FetchedIotScalars(a)[1].None?;
    assert FetchedIotScalars(a)[2].None?;
    assert FetchedIotScalars(a)[3].None?;
    assert FetchedIotScalars(a)[4].None?;
    assert FetchedIotScalars(a)[5].None?;
  }

  lemma MergePortfolioOverlaid(d: PortfolioContent, fetched: Option<FetchedPortfolio>)
    ensures Overlaid(PortfolioScalars(d), FetchedPortfolioScalars(fetched.GetOr(AbsentPortfolio)), PortfolioScalars(MergePortfolio(d, fetched)))
  {
  }

  lemma MergePortfolioUnchanged(d: PortfolioContent, fetched: Option<FetchedPortfolio>)
    requires NoneSet(FetchedPortfolioScalars(fetched.GetOr(AbsentPortfolio))) && !Accepted(fetched.GetOr(AbsentPortfolio).categories) && !Accepted(fetched.GetOr(AbsentPortfolio).items)
    ensures MergePortfolio(d, fetched) == d
  {
    var a := fetched.GetOr(AbsentPortfolio);
    assert FetchedPortfolioScalars(a)[0].None?;
    assert FetchedPortfolioScalars(a)[1].None?;
    assert FetchedPortfolioScalars(a)[2].None?;
    assert FetchedPortfolioScalars(a)[3].None?;
    assert FetchedPortfolioScalars(a)[4].None?;
  }

  lemma MergeBlogOverlaid(d: BlogContent, fetched: Option<FetchedBlog>)
    ensures Overlaid(BlogScalars(d), FetchedBlogScalars(fetched.GetOr(AbsentBlog)), BlogScalars(MergeBlog(d, fetched)))
  {
  }

  lemma MergeBlogUnchanged(d: BlogContent, fetched: Option<FetchedBlog>)
    requires NoneSet(FetchedBlogScalars(fetched.GetOr(AbsentBlog))) && !Accepted(fetched.GetOr(AbsentBlog).categories) && !Accepted(fetched.GetOr(AbsentBlog).posts)
    ensures MergeBlog(d, fetched) == d
  {
    var a := fetched.GetOr(AbsentBlog);
    assert FetchedBlogScalars(a)[0].None?;
    assert FetchedBlogScalars(a)[1].None?;
    assert FetchedBlogScalars(a)[2].None?;
  }

  lemma MergeResearchOverlaid(d: ResearchContent, fetched: Option<FetchedResearch>)
    ensures Overlaid(ResearchScalars(d), FetchedResearchScalars(fetched.GetOr(AbsentResearch)), ResearchScalars(MergeResearch(d, fetched)))
  {
  }

  lemma MergeResearchUnchanged(d: ResearchContent, fetched: Option<FetchedResearch>)
    requires NoneSet(FetchedResearchScalars(fetched.GetOr(AbsentResearch))) && !Accepted(fetched.GetOr(AbsentResearch).areas) && !Accepted(fetched.GetOr(AbsentResearch).publications) && !Accepted(fetched.GetOr(AbsentResearch).achievements)
    ensures MergeResearch(d, fetched) == d
  {
    var a := fetched.GetOr(AbsentResearch);
    assert FetchedResearchScalars(a)[0].None?;
    assert FetchedResearchScalars(a)[1].None?;
    assert FetchedResearchScalars(a)[2].None?;
    assert FetchedResearchScalars(a)[3].None?;
    assert FetchedResearchScalars(a)[4].None?;
    assert FetchedResearchScalars(a)[5].None?;
  }

  lemma MergeTestimonialsOverlaid(d: TestimonialsContent, fetched: Option<FetchedTestimonials>)
    ensures Overlaid(TestimonialsScalars(d), FetchedTestimonialsScalars(fetched.GetOr(AbsentTestimonials)), TestimonialsScalars(MergeTestimonials(d, fetched)))
  {
  }

  lemma MergeTestimonialsUnchanged(d: TestimonialsContent, fetched: Option<FetchedTestimonials>)
    requires NoneSet(FetchedTestimonialsScalars(fetched.GetOr(AbsentTestimonials))) && !Accepted(fetched.GetOr(AbsentTestimonials).items) && !Accepted(fetched.GetOr(AbsentTestimonials).stats)
    ensures MergeTestimonials(d, fetched) == d
  {
    var a := fetched.GetOr(AbsentTestimonials);
    assert FetchedTestimonialsScalars(a)[0].None?;
    assert FetchedTestimonialsScalars(a)[1].None?;
    assert FetchedTestimonialsScalars(a)[2].None?;
  }

  lemma MergeContactOverlaid(d: ContactContent, fetched: Option<FetchedContact>)
    ensures Overlaid(ContactScalars(d), FetchedContactScalars(fetched.GetOr(AbsentContact)), ContactScalars(MergeContact(d, fetched)))
  {
  }

  lemma MergeContactUnchanged(d: ContactContent, fetched: Option<FetchedContact>)
    requires NoneSet(FetchedContactScalars(fetched.GetOr(AbsentContact))) && !Accepted(fetched.GetOr(AbsentContact).items)
    ensures MergeContact(d, fetched) == d
  {
    var a := fetched.GetOr(AbsentContact);
    assert FetchedContactScalars(a)[0].None?;
    assert FetchedContactScalars(a)[1].None?;
    assert FetchedContactScalars(a)[2].None?;
    assert FetchedContactScalars(a)[3].None?;
    assert FetchedContactScalars(a)[4].None?;
    assert FetchedContactScalars(a)[5].None?;
    assert FetchedContactScalars(a)[6].None?;
  }

  lemma MergeFooterOverlaid(d: FooterContent, fetched: Option<FetchedFooter>)
    ensures Overlaid(FooterScalars(d), FetchedFooterScalars(fetched.GetOr(AbsentFooter)), FooterScalars(MergeFooter(d, fetched)))
  {
  }

  lemma MergeFooterUnchanged(d: FooterContent, fetched: Option<FetchedFooter>)
    requires NoneSet(FetchedFooterScalars(fetched.GetOr(AbsentFooter))) && !Accepted(fetched.GetOr(AbsentFooter).quickLinks) && !Accepted(fetched.GetOr(AbsentFooter).services) && !Accepted(fetched.GetOr(AbsentFooter).socialLinks) && !Accepted(fetched.GetOr(AbsentFooter).legalLinks)
    ensures MergeFooter(d, fetched) == d
  {
    var a := fetched.GetOr(AbsentFooter);
    assert FetchedFooterScalars(a)[0].None?;
  }

  lemma MergeTrustedByOverlaid(d: TrustedByContent, fetched: Option<FetchedTrustedBy>)
    ensures Overlaid(TrustedByScalars(d), FetchedTrustedByScalars(fetched.GetOr(AbsentTrustedBy)), TrustedByScalars(MergeTrustedBy(d, fetched)))
  {
  }

  lemma MergeTrustedByUnchanged(d: TrustedByContent, fetched: Option<FetchedTrustedBy>)
    requires NoneSet(FetchedTrustedByScalars(fetched.GetOr(AbsentTrustedBy)))
    ensures MergeTrustedBy(d, fetched) == d
  {
    var a := fetched.GetOr(AbsentTrustedBy);
    assert FetchedTrustedByScalars(a)[0].None?;
    assert FetchedTrustedByScalars(a)[1].None?;
    assert FetchedTrustedByScalars(a)[2].None?;
    assert FetchedTrustedByScalars(a)[3].None?;
    assert FetchedTrustedByScalars(a)[4].None?;
  }

  /** Spread semantics for every scalar key of every section, `trustedBy` included. */
  lemma HydrateScalarsOverlaid(d: SiteContent, f: FetchedSiteContent)
    ensures Overlaid(AboutScalars(d.about), FetchedAboutScalars(AboutOf(f)), AboutScalars(Hydrate(d, f).about))
    ensures Overlaid(ServicesScalars(d.services), FetchedServicesScalars(ServicesOf(f)), ServicesScalars(Hydrate(d, f).services))
    ensures Overlaid(IotScalars(d.iot), FetchedIotScalars(IotOf(f)), IotScalars(Hydrate(d, f).iot))
    ensures Overlaid(PortfolioScalars(d.portfolio), FetchedPortfolioScalars(PortfolioOf(f)), PortfolioScalars(Hydrate(d, f).portfolio))
    ensures Overlaid(BlogScalars(d.blog), FetchedBlogScalars(BlogOf(f)), BlogScalars(Hydrate(d, f).blog))
    ensures Overlaid(ResearchScalars(d.research), FetchedResearchScalars(ResearchOf(f)), ResearchScalars(Hydrate(d, f).research))
    ensures Overlaid(TestimonialsScalars(d.testimonials), FetchedTestimonialsScalars(TestimonialsOf(f)), TestimonialsScalars(Hydrate(d, f).testimonials))
    ensures Overlaid(ContactScalars(d.contact), FetchedContactScalars(ContactOf(f)), ContactScalars(Hydrate(d, f).contact))
    ensures Overlaid(FooterScalars(d.footer), FetchedFooterScalars(FooterOf(f)), FooterScalars(Hydrate(d, f).footer))
    ensures Overlaid(TrustedByScalars(d.trustedBy), FetchedTrustedByScalars(TrustedByOf(f)), TrustedByScalars(Hydrate(d, f).trustedBy))
  {
    MergeAboutOverlaid(d.about, f.about);
    MergeServicesOverlaid(d.services, f.services);
    MergeIotOverlaid(d.iot, f.iot);
    MergePortfolioOverlaid(d.portfolio, f.portfolio);
    MergeBlogOverlaid(d.blog, f.blog);
    MergeResearchOverlaid(d.research, f.research);
    MergeTestimonialsOverlaid(d.testimonials, f.testimonials);
    MergeContactOverlaid(d.contact, f.contact);
    MergeFooterOverlaid(d.footer, f.footer);
    MergeTrustedByOverlaid(d.trustedBy, f.trustedBy);
  }

  /** A section of the result depends on the same section of the payload only. */
  lemma SectionIndependence(d: SiteContent, f: FetchedSiteContent, g: FetchedSiteContent)
    ensures f.navbarLinks == g.navbarLinks ==> Hydrate(d, f).navbarLinks == Hydrate(d, g).navbarLinks
    ensures f.about == g.about ==> Hydrate(d, f).about == Hydrate(d, g).about
    ensures f.services == g.services ==> Hydrate(d, f).services == Hydrate(d, g).services
    ensures f.iot == g.iot ==> Hydrate(d, f).iot == Hydrate(d, g).iot
    ensures f.portfolio == g.portfolio ==> Hydrate(d, f).portfolio == Hydrate(d, g).portfolio
    ensures f.blog == g.blog ==> Hydrate(d, f).blog == Hydrate(d, g).blog
    ensures f.research == g.research ==> Hydrate(d, f).research == Hydrate(d, g).research
    ensures f.testimonials == g.testimonials ==> Hydrate(d, f).testimonials == Hydrate(d, g).testimonials
    ensures f.contact == g.contact ==> Hydrate(d, f).contact == Hydrate(d, g).contact
    ensures f.footer == g.footer ==> Hydrate(d, f).footer == Hydrate(d, g).footer
    ensures f.trustedBy == g.trustedBy ==> Hydrate(d, f).trustedBy == Hydrate(d, g).trustedBy
  {
  }

  /** A list of the result depends on the same list of the payload only, not on its siblings. */
  lemma ListIndependence(d: SiteContent, f: FetchedSiteContent, g: FetchedSiteContent)
    ensures AboutOf(f).highlights == AboutOf(g).highlights ==> Hydrate(d, f).about.highlights == Hydrate(d, g).about.highlights
    ensures AboutOf(f).values == AboutOf(g).values ==> Hydrate(d, f).about.values == Hydrate(d, g).about.values
    ensures ServicesOf(f).items == ServicesOf(g).items ==> Hydrate(d, f).services.items == Hydrate(d, g).services.items
    ensures IotOf(f).features == IotOf(g).features ==> Hydrate(d, f).iot.features == Hydrate(d, g).iot.features
    ensures IotOf(f).useCases == IotOf(g).useCases ==> Hydrate(d, f).iot.useCases == Hydrate(d, g).iot.useCases
    ensures PortfolioOf(f).categories == PortfolioOf(g).categories ==> Hydrate(d, f).portfolio.categories == Hydrate(d, g).portfolio.categories
    ensures PortfolioOf(f).items == PortfolioOf(g).items ==> Hydrate(d, f).portfolio.items == Hydrate(d, g).portfolio.items
    ensures BlogOf(f).categories == BlogOf(g).categories ==> Hydrate(d, f).blog.categories == Hydrate(d, g).blog.categories
    ensures BlogOf(f).posts == BlogOf(g).posts ==> Hydrate(d, f).blog.posts == Hydrate(d, g).blog.posts
    ensures ResearchOf(f).areas == ResearchOf(g).areas ==> Hydrate(d, f).research.areas == Hydrate(d, g).research.areas
    ensures ResearchOf(f).publications == ResearchOf(g).publications ==> Hydrate(d, f).research.publications == Hydrate(d, g).research.publications
    ensures ResearchOf(f).achievements == ResearchOf(g).achievements ==> Hydrate(d, f).research.achievements == Hydrate(d, g).research.achievements
    ensures TestimonialsOf(f).items == TestimonialsOf(g).items ==> Hydrate(d, f).testimonials.items == Hydrate(d, g).testimonials.items
    ensures TestimonialsOf(f).stats == TestimonialsOf(g).stats ==> Hydrate(d, f).testimonials.stats == Hydrate(d, g).testimonials.stats
    ensures ContactOf(f).items == ContactOf(g).items ==> Hydrate(d, f).contact.items == Hydrate(d, g).contact.items
    ensures FooterOf(f).quickLinks == FooterOf(g).quickLinks ==> Hydrate(d, f).footer.quickLinks == Hydrate(d, g).footer.quickLinks
    ensures FooterOf(f).services == FooterOf(g).services ==> Hydrate(d, f).footer.services == Hydrate(d, g).footer.services
    ensures FooterOf(f).socialLinks == FooterOf(g).socialLinks ==> Hydrate(d, f).footer.socialLinks == Hydrate(d, g).footer.socialLinks
    ensures FooterOf(f).legalLinks == FooterOf(g).legalLinks ==> Hydrate(d, f).footer.legalLinks == Hydrate(d, g).footer.legalLinks
  {
  }

  /** The payload offers nothing usable: no scalar key present and no list accepted. */
  predicate NothingUsable(f: FetchedSiteContent)
  {
    && !Accepted(f.navbarLinks)
    && NoneSet(FetchedAboutScalars(AboutOf(f)))
    && !Accepted(AboutOf(f).highlights)
    && !Accepted(AboutOf(f).values)
    && NoneSet(FetchedServicesScalars(ServicesOf(f)))
    && !Accepted(ServicesOf(f).items)
    && NoneSet(FetchedIotScalars(IotOf(f)))
    && !Accepted(IotOf(f).features)
    && !Accepted(IotOf(f).useCases)
    && NoneSet(FetchedPortfolioScalars(PortfolioOf(f)))
    && !Accepted(PortfolioOf(f).categories)
    && !Accepted(PortfolioOf(f).items)
    && NoneSet(FetchedBlogScalars(BlogOf(f)))
    && !Accepted(BlogOf(f).categories)
    && !Accepted(BlogOf(f).posts)
    && NoneSet(FetchedResearchScalars(ResearchOf(f)))
    && !Accepted(ResearchOf(f).areas)
    && !Accepted(ResearchOf(f).publications)
    && !Accepted(ResearchOf(f).achievements)
    && NoneSet(FetchedTestimonialsScalars(TestimonialsOf(f)))
    && !Accepted(TestimonialsOf(f).items)
    && !Accepted(TestimonialsOf(f).stats)
    && NoneSet(FetchedContactScalars(ContactOf(f)))
    && !Accepted(ContactOf(f).items)
    && NoneSet(FetchedFooterScalars(FooterOf(f)))
    && !Accepted(FooterOf(f).quickLinks)
    && !Accepted(FooterOf(f).services)
    && !Accepted(FooterOf(f).socialLinks)
    && !Accepted(FooterOf(f).legalLinks)
    && NoneSet(FetchedTrustedByScalars(TrustedByOf(f)))
  }

  /** A payload with nothing usable leaves the content equal to the defaults. */
  lemma NothingUsableKeepsDefaults(d: SiteContent, f: FetchedSiteContent)
    requires NothingUsable(f)
    ensures Hydrate(d, f) == d
  {
    MergeAboutUnchanged(d.about, f.about);
    MergeServicesUnchanged(d.services, f.services);
    MergeIotUnchanged(d.iot, f.iot);
    MergePortfolioUnchanged(d.portfolio, f.portfolio);
    MergeBlogUnchanged(d.blog, f.blog);
    MergeResearchUnchanged(d.research, f.research);
    MergeTestimonialsUnchanged(d.testimonials, f.testimonials);
    MergeContactUnchanged(d.contact, f.contact);
    MergeFooterUnchanged(d.footer, f.footer);
    MergeTrustedByUnchanged(d.trustedBy, f.trustedBy);
  }

  /** With non-empty default lists, no payload can empty a list of the content. */
  lemma HydratePreservesNonEmptyLists(d: SiteContent, f: FetchedSiteContent)
    requires AllListsNonEmpty(d)
    ensures AllListsNonEmpty(Hydrate(d, f))
  {
  }

  /** Merging the same payload again over the merged content changes nothing. */
  lemma HydrateIdempotent(d: SiteContent, f: FetchedSiteContent)
    ensures Hydrate(Hydrate(d, f), f) == Hydrate(d, f)
  {
  }

  /** `{ contact: { items: [] } }`: the empty list is refused and every default survives. */
  lemma EmptyContactItemsKeepDefaults(d: SiteContent)
    ensures Hydrate(d, EmptyPayload.(contact := Some(AbsentContact.(items := Some([]))))) == d
  {
    NothingUsableKeepsDefaults(d, EmptyPayload.(contact := Some(AbsentContact.(items := Some([])))));
  }

  /** `{ about: { titlePrefix: null } }`: the present null replaces the default title, nothing else moves. */
  lemma PresentNullScalarWins(d: SiteContent)
    ensures Hydrate(d, EmptyPayload.(about := Some(AbsentAbout.(titlePrefix := Some(Null))))).about
         == d.about.(titlePrefix := Null)
    ensures Hydrate(d, EmptyPayload.(about := Some(AbsentAbout.(titlePrefix := Some(Null))))).contact == d.contact
  {
  }

  /** Elements of an accepted list are not validated: an unknown icon name reaches the content. */
  lemma UnvalidatedElementsAccepted(d: SiteContent, v: AboutValue)
    requires ParseIconKey(v.icon).None?
    ensures Hydrate(d, EmptyPayload.(about := Some(AbsentAbout.(values := Some([v]))))).about.values == [v]
  {
  }

  // ---------------------------------------------------------------------------------------------
  // The provider.

  /** `SiteContentProvider`: the content state every section reads. */
  class SiteContentProvider {
    var content: SiteContent

    /** The first render shows the built-in defaults. */
    constructor()
      ensures content == DefaultSiteContent
    {
      content := DefaultSiteContent;
    }

    /**
     * `loadContent` once the fetch has settled: `fetched` is None when the service failed or
     * returned nothing, and `isMounted` is false when the provider was unmounted meanwhile.
     * The merge always starts from the built-in defaults, not from the current content.
     */
    method LoadContent(fetched: Option<FetchedSiteContent>, isMounted: bool)
      modifies this
      ensures !isMounted || fetched.None? ==> content == old(content)
      ensures isMounted && fetched.Some? ==> content == Hydrate(DefaultSiteContent, fetched.value)
      ensures AllListsNonEmpty(old(content)) ==> AllListsNonEmpty(content)
    {
      if !isMounted || fetched.None? {
        return;
      }
      DefaultListsNonEmpty();
      HydratePreservesNonEmptyLists(DefaultSiteContent, fetched.value);
      content := Hydrate(DefaultSiteContent, fetched.value);
    }
  }
}
