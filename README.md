# Zenture IT Solutions website: a verified model of its rules

The Zenture IT Solutions marketing site is a React single-page application. Most of it renders
fixed content. A few parts of it follow precise rules, and this project models those parts in
Dafny and proves properties about them:

- **Content hydration.** The `SiteContentProvider` merges a content-service payload, which may be
  partial or malformed, over a trusted default table. Section scalars are overlaid with
  object-spread semantics. Every list goes through `pickArray`, which takes a fetched list only
  when it is a non-empty array.
- **The default content table.** This covers the closed set of nineteen icon keys and the shape of
  the built-in lists.
- **The careers page.** The model covers:
  - the structural validators `isCareerPosition` and `isCareersData`;
  - the three-tier loader: content service, then the legacy JSON file, then the built-in fallback;
  - the stable newest-first sort of the open positions;
  - the application form with its honeypot, minimum-fill time and resume gate.
- **The contact form.** The model covers the same spam gate, the payload defaults, reset on
  success and retention on failure, and the choice of icon and link for each contact item.
- **The smaller components:**
  - the testimonial carousel, with its modular index and three-card window;
  - the category filters of the portfolio and the blog;
  - the grouping of the technology showcase;
  - the blog article lookup with its metadata fallbacks;
  - the navigation bar's click routing;
  - the icon tables of the About and IoT sections;
  - the find-or-append head-tag updates of the SEO component;
  - the logo cards, marquee, counters and visibility latch of the "Trusted by" section;
  - the footer's quick-link anchors.

Pure code is modelled as datatypes, functions and lemmas. Components whose state changes are
modelled as classes whose methods state the whole new state. The browser, the network, clocks and
date parsing are parameters:

- elapsed milliseconds of the form gates are integers, and `requestAnimationFrame` timestamps are reals;
- `new Date(x).getTime()` is a function argument `time`;
- `decodeURIComponent` and `JSON.stringify` are function arguments;
- an HTTP exchange is a small datatype of outcomes;
- the document head is a sequence of elements.

Modules, in file order of the application:

| file | module | models |
|---|---|---|
| wrappers.dfy | Wrappers | `Option` |
| js.dfy | Js | JavaScript values, truthiness, `s \|\| fallback` |
| strings.dfy | Strings | `startsWith`, `indexOf`, `replace` with a string pattern, ASCII `toLowerCase`, `charAt(0)` |
| site_content.dfy | SiteContent | `src/app/lib/siteContent.ts`: `IconKey`, the content records, `defaultSiteContent` |
| hydration.dfy | Hydration | `src/app/context/SiteContentContext.tsx` |
| stable_sort.dfy | StableSort | the stable sort behind `sortedPositions` |
| careers.dfy | Careers | `src/app/components/Careers.tsx` |
| contact.dfy | Contact | `src/app/components/Contact.tsx` |
| testimonials.dfy | Testimonials | `src/app/components/Testimonials.tsx` |
| category_filter.dfy | CategoryFilter | the `filter` by category and the grouping by categories |
| portfolio.dfy | Portfolio | `src/app/components/Portfolio.tsx` |
| blog.dfy | Blog | `src/app/components/Blog.tsx` |
| tech_showcase.dfy | TechShowcase | `TechShowcase.tsx` |
| seo.dfy | Seo | `src/app/components/SEO.tsx` |
| blog_article.dfy | BlogArticle | `src/app/components/BlogArticle.tsx` |
| navbar.dfy | Navbar | `src/app/components/Navbar.tsx` |
| about.dfy | About | `src/app/components/About.tsx` |
| iot_showcase.dfy | IotShowcase | `src/app/components/IoTShowcase.tsx` |
| trusted_by.dfy | TrustedBy | `src/app/components/TrustedBy.tsx` |
| footer.dfy | Footer | `src/app/components/Footer.tsx` |

## Model

| member | source | states |
|---|---|---|
| Js.FalsyValues | src/app/components/Careers.tsx:89-101 | A value is falsy exactly when it is "", 0, false, null or undefined; every object or array is truthy. |
| Js.Truthy | src/app/components/Careers.tsx:89-101 | Defines `Boolean(v)` on the modelled values; it has no contract of its own, and Js.FalsyValues states which values are falsy. |
| Js.OrElse | src/app/components/Contact.tsx:43 | `s \|\| fallback` returns `s` when `s` is non-empty and otherwise the fallback; it is empty only when both are. |
| Strings.StartsWith | src/app/components/Navbar.tsx:26 | Defines `s.startsWith(p)` as a prefix test; it has no contract of its own and is used by Navbar.IsHashNavigation, whose consequences Navbar.NavDecision states. |
| Strings.ReplaceFirst | src/app/components/BlogArticle.tsx:8 | Defines `replace` with a string pattern at the first occurrence given by Strings.IndexOf; it has no contract of its own, and Strings.ReplaceLeadingPattern, ReplaceAbsentPattern and ReplaceFirstLength state its behaviour. |
| Strings.IndexOfFrom | src/app/components/BlogArticle.tsx:8 | The first index at or after `i` where the pattern occurs, or None when there is none from `i` on. |
| Strings.IndexOf | src/app/components/BlogArticle.tsx:8 | `indexOf` returns the least index where the pattern occurs, and None exactly when it occurs nowhere. |
| Strings.ReplaceLeadingPattern | src/app/components/BlogArticle.tsx:8 | Removing the first occurrence of `p` from `p + t` leaves `t`. |
| Strings.ReplaceAbsentPattern | src/app/components/BlogArticle.tsx:8 | When the pattern does not occur, `replace` returns the string unchanged. |
| Strings.ReplaceFirstLength | src/app/components/Footer.tsx:54 | `replace` removes exactly one occurrence, the first, when there is one: the length changes by the replacement's length minus the pattern's. |
| Strings.CharMismatch | src/app/components/Footer.tsx:54 | A position whose character differs from the pattern's first character is not an occurrence. |
| Strings.NoCharOccurrence | src/app/components/Footer.tsx:54 | A one-character pattern whose character is absent from the string is not found. |
| Strings.FirstCharOccurrence | src/app/components/Footer.tsx:54 | A one-character pattern is found at the first position holding that character. |
| Strings.ToLowerAscii | src/app/components/Footer.tsx:54 | Lowercasing keeps the length and lowercases each ASCII letter in place. |
| Strings.ToLowerAsciiIdempotent | src/app/components/Footer.tsx:54 | Lowercasing twice equals lowercasing once, and no upper-case ASCII letter is left. |
| Strings.CharAt0 | TechShowcase.tsx:177 | `charAt(0)` is the first character, or "" for an empty name. |
| SiteContent.ParseIconKey | src/app/lib/siteContent.ts:1-20 | A parsed identifier is a key whose name is exactly that identifier. |
| SiteContent.ParseNameFirstSix | src/app/lib/siteContent.ts:1-7 | Parsing the name of target, lightbulb, rocket, globe, code or smartphone gives that key back. |
| SiteContent.ParseNameNextSix | src/app/lib/siteContent.ts:8-13 | Parsing the name of cpu, brain, code2, wifi, database or shield gives that key back. |
| SiteContent.ParseNameLastSeven | src/app/lib/siteContent.ts:14-20 | Parsing the name of cloud, zap, beaker, trendingUp, users, award or bookOpen gives that key back. |
| SiteContent.AllIconKeysComplete | src/app/lib/siteContent.ts:1-20 | The list of keys has 19 distinct entries and contains every key. |
| SiteContent.IconKeyClosedSet | src/app/lib/siteContent.ts:1-20 | `IconKey` is a closed set of exactly 19 names: there are 19 distinct keys, every name parses back to its key, and no two keys share a name. |
| SiteContent.InheritedNamesAreNotKeys | src/app/lib/siteContent.ts:1-20 | No icon key is named like a member that every object inherits from `Object.prototype`, so such a name never parses as a key. |
| SiteContent.DefaultListsNonEmpty | src/app/lib/siteContent.ts:238-716 | Every list field of the default table is non-empty. |
| SiteContent.DefaultNavbarLinksShape | src/app/lib/siteContent.ts:238-245 | There are six navigation links. The fifth is Careers at '/careers', and every other link begins with '/#'. |
| SiteContent.DefaultPortfolioIdsDistinct | src/app/lib/siteContent.ts:401-441 | The default portfolio ids are 1, 2, 3 and are pairwise distinct. |
| SiteContent.DefaultBlogIdsDistinct | src/app/lib/siteContent.ts:448-545 | The default blog post ids are 1 to 6 and are pairwise distinct. |
| SiteContent.DefaultTestimonialIdsDistinct | src/app/lib/siteContent.ts:618-645 | The default testimonial ids are 1, 2, 3 and are pairwise distinct. |
| SiteContent.DefaultBlogSlugs | src/app/lib/siteContent.ts:458-538 | The slugs of the default posts are the six listed slugs, in order. |
| SiteContent.SlugListDistinct | src/app/lib/siteContent.ts:458-538 | The six listed slugs are pairwise distinct. |
| SiteContent.DefaultSlugsDistinct | src/app/lib/siteContent.ts:448-545 | The default posts have six pairwise distinct slugs. |
| SiteContent.DefaultAboutIcons | src/app/lib/siteContent.ts:262-281 | The about values use the icons target, lightbulb and rocket, in that order. |
| SiteContent.DefaultIotIcons | src/app/lib/siteContent.ts:343-374 | The IoT features use the icons cpu, wifi, database, shield, cloud and zap, in that order. |
| SiteContent.DefaultContactLinks | src/app/lib/siteContent.ts:662-680 | The email and phone items carry a link; the location item has none. |
| Hydration.Overlay | src/app/context/SiteContentContext.tsx:32-34 | Spreading one key: a present key wins even when it holds null or undefined, and an absent key keeps the default. |
| Hydration.PickArray | src/app/context/SiteContentContext.tsx:25-26 | `pickArray` returns the fallback or the candidate list itself, and it never returns an empty list when the fallback is non-empty. |
| Hydration.PickArrayAccepts | src/app/context/SiteContentContext.tsx:25-26 | A non-empty fetched list is taken whole. |
| Hydration.PickArrayRejects | src/app/context/SiteContentContext.tsx:25-26 | A missing or non-array candidate, or an empty list, gives the fallback. |
| Hydration.PickArrayChangesOnlyWhenAccepted | src/app/context/SiteContentContext.tsx:25-26 | A result other than the fallback is an accepted candidate list. |
| Hydration.AboutOf | src/app/context/SiteContentContext.tsx:35-36 | Defines `cmsContent.about?.<key>`: a missing section reads as one with no keys. No contract of its own; used by Hydration.MergeAboutOverlaid. |
| Hydration.ServicesOf | src/app/context/SiteContentContext.tsx:41 | The same for `cmsContent.services?.<key>`. |
| Hydration.IotOf | src/app/context/SiteContentContext.tsx:46-47 | The same for `cmsContent.iot?.<key>`. |
| Hydration.PortfolioOf | src/app/context/SiteContentContext.tsx:52-53 | The same for `cmsContent.portfolio?.<key>`. |
| Hydration.BlogOf | src/app/context/SiteContentContext.tsx:58-59 | The same for `cmsContent.blog?.<key>`. |
| Hydration.ResearchOf | src/app/context/SiteContentContext.tsx:64-66 | The same for `cmsContent.research?.<key>`. |
| Hydration.TestimonialsOf | src/app/context/SiteContentContext.tsx:71-72 | The same for `cmsContent.testimonials?.<key>`. |
| Hydration.ContactOf | src/app/context/SiteContentContext.tsx:77 | The same for `cmsContent.contact?.<key>`. |
| Hydration.FooterOf | src/app/context/SiteContentContext.tsx:82-85 | The same for `cmsContent.footer?.<key>`. |
| Hydration.TrustedByOf | src/app/context/SiteContentContext.tsx:87 | The same for `cmsContent.trustedBy`. |
| Hydration.MergeAbout | src/app/context/SiteContentContext.tsx:32-37 | Defines the about merge: seven scalars overlaid, two lists through `pickArray`. No contract of its own; Hydration.MergeAboutOverlaid and MergeAboutUnchanged state it. |
| Hydration.MergeServices | src/app/context/SiteContentContext.tsx:38-42 | Defines the services merge: five scalars overlaid, one list picked. Stated by Hydration.MergeServicesOverlaid and MergeServicesUnchanged. |
| Hydration.MergeIot | src/app/context/SiteContentContext.tsx:43-48 | Defines the IoT merge: six scalars overlaid, two lists picked. Stated by Hydration.MergeIotOverlaid and MergeIotUnchanged. |
| Hydration.MergePortfolio | src/app/context/SiteContentContext.tsx:49-54 | Defines the portfolio merge: five scalars overlaid, two lists picked. Stated by Hydration.MergePortfolioOverlaid and MergePortfolioUnchanged. |
| Hydration.MergeBlog | src/app/context/SiteContentContext.tsx:55-60 | Defines the blog merge: three scalars overlaid, two lists picked. Stated by Hydration.MergeBlogOverlaid and MergeBlogUnchanged. |
| Hydration.MergeResearch | src/app/context/SiteContentContext.tsx:61-67 | Defines the research merge: six scalars overlaid, three lists picked. Stated by Hydration.MergeResearchOverlaid and MergeResearchUnchanged. |
| Hydration.MergeTestimonials | src/app/context/SiteContentContext.tsx:68-73 | Defines the testimonials merge: three scalars overlaid, two lists picked. Stated by Hydration.MergeTestimonialsOverlaid and MergeTestimonialsUnchanged. |
| Hydration.MergeContact | src/app/context/SiteContentContext.tsx:74-78 | Defines the contact merge: seven scalars overlaid, one list picked. Stated by Hydration.MergeContactOverlaid and MergeContactUnchanged. |
| Hydration.MergeFooter | src/app/context/SiteContentContext.tsx:79-86 | Defines the footer merge: one scalar overlaid, four lists picked. Stated by Hydration.MergeFooterOverlaid and MergeFooterUnchanged. |
| Hydration.MergeTrustedBy | src/app/context/SiteContentContext.tsx:87 | Defines the `trustedBy` merge by spread alone: five scalars overlaid. Stated by Hydration.MergeTrustedByOverlaid and MergeTrustedByUnchanged. |
| Hydration.Hydrate | src/app/context/SiteContentContext.tsx:28-87 | Defines the value handed to `setContent`: the navigation links picked and every section merged. No contract of its own; Hydration.HydrateScalarsOverlaid, SectionIndependence, ListIndependence, NothingUsableKeepsDefaults, HydratePreservesNonEmptyLists and HydrateIdempotent state it. |
| Hydration.MergeAboutOverlaid | src/app/context/SiteContentContext.tsx:32-37 | Every about scalar is the fetched value where the key is present and the default elsewhere. |
| Hydration.MergeAboutUnchanged | src/app/context/SiteContentContext.tsx:32-37 | An about payload with no key present and no accepted list leaves the section as it was. |
| Hydration.MergeServicesOverlaid | src/app/context/SiteContentContext.tsx:38-42 | Every services scalar is the fetched value where the key is present and the default elsewhere. |
| Hydration.MergeServicesUnchanged | src/app/context/SiteContentContext.tsx:38-42 | A services payload with no key present and no accepted list leaves the section as it was. |
| Hydration.MergeIotOverlaid | src/app/context/SiteContentContext.tsx:43-48 | Every IoT scalar is the fetched value where the key is present and the default elsewhere. |
| Hydration.MergeIotUnchanged | src/app/context/SiteContentContext.tsx:43-48 | An IoT payload with no key present and no accepted list leaves the section as it was. |
| Hydration.MergePortfolioOverlaid | src/app/context/SiteContentContext.tsx:49-54 | Every portfolio scalar is the fetched value where the key is present and the default elsewhere. |
| Hydration.MergePortfolioUnchanged | src/app/context/SiteContentContext.tsx:49-54 | A portfolio payload with no key present and no accepted list leaves the section as it was. |
| Hydration.MergeBlogOverlaid | src/app/context/SiteContentContext.tsx:55-60 | Every blog scalar is the fetched value where the key is present and the default elsewhere. |
| Hydration.MergeBlogUnchanged | src/app/context/SiteContentContext.tsx:55-60 | A blog payload with no key present and no accepted list leaves the section as it was. |
| Hydration.MergeResearchOverlaid | src/app/context/SiteContentContext.tsx:61-67 | Every research scalar is the fetched value where the key is present and the default elsewhere. |
| Hydration.MergeResearchUnchanged | src/app/context/SiteContentContext.tsx:61-67 | A research payload with no key present and no accepted list leaves the section as it was. |
| Hydration.MergeTestimonialsOverlaid | src/app/context/SiteContentContext.tsx:68-73 | Every testimonials scalar is the fetched value where the key is present and the default elsewhere. |
| Hydration.MergeTestimonialsUnchanged | src/app/context/SiteContentContext.tsx:68-73 | A testimonials payload with no key present and no accepted list leaves the section as it was. |
| Hydration.MergeContactOverlaid | src/app/context/SiteContentContext.tsx:74-78 | Every contact scalar is the fetched value where the key is present and the default elsewhere. |
| Hydration.MergeContactUnchanged | src/app/context/SiteContentContext.tsx:74-78 | A contact payload with no key present and no accepted list leaves the section as it was. |
| Hydration.MergeFooterOverlaid | src/app/context/SiteContentContext.tsx:79-86 | The footer scalar is the fetched value where the key is present and the default elsewhere. |
| Hydration.MergeFooterUnchanged | src/app/context/SiteContentContext.tsx:79-86 | A footer payload with no key present and no accepted list leaves the section as it was. |
| Hydration.MergeTrustedByOverlaid | src/app/context/SiteContentContext.tsx:87 | `trustedBy` is merged by spread alone: every scalar is the fetched value where present and the default elsewhere. |
| Hydration.MergeTrustedByUnchanged | src/app/context/SiteContentContext.tsx:87 | A `trustedBy` payload with no key present leaves the section as it was. |
| Hydration.HydrateScalarsOverlaid | src/app/context/SiteContentContext.tsx:28-87 | In every section of the merged content, each scalar is the fetched value where the key is present and the default where the key or the whole section is absent. |
| Hydration.SectionIndependence | src/app/context/SiteContentContext.tsx:31-87 | Each section of the result depends only on the same section of the payload, so bad data in one section never changes another. |
| Hydration.ListIndependence | src/app/context/SiteContentContext.tsx:31-86 | Each list of the result depends only on its own fetched list and its own default, not on its sibling fields. |
| Hydration.NothingUsableKeepsDefaults | src/app/context/SiteContentContext.tsx:19-87 | A payload with no present key and no accepted list leaves the content equal to the defaults. |
| Hydration.HydratePreservesNonEmptyLists | src/app/context/SiteContentContext.tsx:25-86 | When every default list is non-empty, every list of the merged content is non-empty, whatever the payload. |
| Hydration.HydrateIdempotent | src/app/context/SiteContentContext.tsx:25-87 | Merging the same payload again over the merged content changes nothing. |
| Hydration.EmptyContactItemsKeepDefaults | src/app/context/SiteContentContext.tsx:74-78 | A payload whose only content is an empty contact item list leaves every default in place. |
| Hydration.PresentNullScalarWins | src/app/context/SiteContentContext.tsx:32-34 | A present `titlePrefix: null` replaces the default title prefix and leaves the other sections alone. |
| Hydration.UnvalidatedElementsAccepted | src/app/context/SiteContentContext.tsx:25-26 | An accepted list is taken without checking its elements: an about value whose icon name is not an icon key reaches the content unchanged. |
| Hydration.SiteContentProvider.constructor | src/app/context/SiteContentContext.tsx:14 | The first render shows the default content. |
| Hydration.SiteContentProvider.LoadContent | src/app/context/SiteContentContext.tsx:19-94 | With no content, or after unmounting, the state is unchanged; otherwise it becomes the payload merged over the defaults. Non-empty lists stay non-empty. |
| StableSort.Insert | src/app/components/Careers.tsx:177-183 | Insertion adds exactly the inserted entry to the multiset of entries. |
| StableSort.InsertSorted | src/app/components/Careers.tsx:177-183 | Inserting into a list sorted by descending key keeps it sorted. |
| StableSort.SortByKeyDesc | src/app/components/Careers.tsx:177-183 | The sort returns a permutation of its input in non-increasing key order. |
| StableSort.WithKeyAppend | src/app/components/Careers.tsx:177-183 | The entries with a given key in `a + b` are those of `a` followed by those of `b`. |
| StableSort.WithKeySingle | src/app/components/Careers.tsx:177-183 | A one-entry list contributes that entry to its own key only. |
| StableSort.InsertSameKey | src/app/components/Careers.tsx:177-183 | An inserted entry comes before every entry already present with the same key. |
| StableSort.InsertOtherKey | src/app/components/Careers.tsx:177-183 | Inserting an entry leaves the order of the entries of every other key unchanged. |
| StableSort.SortStable | src/app/components/Careers.tsx:177-183 | Stability: for every key, the entries with that key keep their input order. |
| StableSort.SortOfSorted | src/app/components/Careers.tsx:177-183 | A list with strictly decreasing keys is returned unchanged. |
| Careers.Accept | src/app/components/Careers.tsx:104-116 | An accepted payload is read back as page data with the same heading, subheading and positions. |
| Careers.AsRawAccept | src/app/components/Careers.tsx:104-116 | Accepting a payload and writing it back gives the payload, and the data read is valid. |
| Careers.AcceptAsRaw | src/app/components/Careers.tsx:104-116 | Writing valid page data back and accepting it gives the same data. |
| Careers.IsCareerPosition | src/app/components/Careers.tsx:83-102 | Defines `isCareerPosition`. No contract of its own; Careers.IsCareerPositionIff states it in both directions. |
| Careers.IsCareersData | src/app/components/Careers.tsx:104-116 | Defines `isCareersData`. No contract of its own; Careers.Accept, OneBadPositionRejects and EmptyPositionsAccepted state it. |
| Careers.IsCareerPositionIff | src/app/components/Careers.tsx:83-102 | A position is accepted iff it is an object, its nine scalar keys are truthy, and requirements and responsibilities are arrays. |
| Careers.EmptyScalarRejects | src/app/components/Careers.tsx:83-102 | An empty string in any of the nine scalar keys rejects the position. |
| Careers.KindCheckedOnlyForTruthiness | src/app/components/Careers.tsx:94 | `type` is only checked for truthiness: an accepted position with `type` 'Freelance', which is not an employment type, is still accepted. |
| Careers.ObjectScalarAccepted | src/app/components/Careers.tsx:89-101 | A truthy object where a string is expected passes: an accepted position stays accepted with `title: {}` or `postedDate: {}`. |
| Careers.EmptyListsAccepted | src/app/components/Careers.tsx:97-98 | Empty requirement and responsibility arrays are accepted. |
| Careers.OneBadPositionRejects | src/app/components/Careers.tsx:114 | One invalid position rejects the whole payload. |
| Careers.EmptyPositionsAccepted | src/app/components/Careers.tsx:104-116 | An empty positions array is accepted when heading and subheading are truthy. |
| Careers.FallbackIsCareersData | src/app/components/Careers.tsx:11-81 | The built-in fallback passes the page's own validator. |
| Careers.LoadedData | src/app/components/Careers.tsx:137-175 | Defines the three-tier choice of data. No contract of its own; Careers.CmsTierWins, LegacyTierSecond, FailuresKeepCurrent and LoadedDataValid state it. |
| Careers.CmsTierWins | src/app/components/Careers.tsx:142-146 | Valid content-service data is used whatever the legacy file holds and whatever was shown before. |
| Careers.LegacyTierSecond | src/app/components/Careers.tsx:148-161 | Without valid content-service data, a valid legacy body is used. |
| Careers.FailuresKeepCurrent | src/app/components/Careers.tsx:150-163 | A failed fetch, a non-ok response, an unreadable body or invalid legacy data leaves the shown data unchanged. |
| Careers.LoadedDataValid | src/app/components/Careers.tsx:137-175 | Loading never replaces valid data by invalid data. |
| Careers.SortedPositions | src/app/components/Careers.tsx:177-183 | `sortedPositions` is a permutation of the positions, newest first, with equal dates in input order. |
| Careers.FallbackSortOrder | src/app/components/Careers.tsx:11-81 | With the three fallback dates in calendar order, the fallback sorts as fullstack, frontend, backend. |
| Careers.SetApplicationField | src/app/components/Careers.tsx:185-189 | The named field takes the new value and every other field is unchanged. |
| Careers.ApplicationPayloadOf | src/app/components/Careers.tsx:219-233 | Defines the application payload. No contract of its own; Careers.ApplicationPayloadPosition states it. |
| Careers.ApplicationGate | src/app/components/Careers.tsx:207-215 | Defines the three outcomes of the checks made before sending. No contract of its own; Careers.ApplicationGateIff states it. |
| Careers.ApplicationPayloadPosition | src/app/components/Careers.tsx:219-233 | A blank position is sent as 'General Application', the subject names the position sent, and the resume name is included. |
| Careers.ApplicationGateIff | src/app/components/Careers.tsx:207-215 | A request proceeds iff the honeypot is empty, 3000 ms have passed and a resume is attached; a filled honeypot always blocks. |
| Careers.CareersPage.constructor | src/app/components/Careers.tsx:119-135 | The first render shows the fallback data while loading, with an empty form, no resume and no message. |
| Careers.CareersPage.LoadCareersFromCMS | src/app/components/Careers.tsx:137-175 | The data becomes the tiered result, the legacy file is fetched iff the content-service data is rejected, loading ends false, and the form is untouched. |
| Careers.CareersPage.SortedView | src/app/components/Careers.tsx:177-183 | The positions shown are a permutation of the loaded positions, newest first, with equal dates in their loaded order. |
| Careers.CareersPage.HandleApplicationChange | src/app/components/Careers.tsx:185-189 | Only the named form field changes. |
| Careers.CareersPage.HandleResumeChange | src/app/components/Careers.tsx:191-194 | The resume becomes the first selected file, or none; nothing else changes. |
| Careers.CareersPage.HandleApplyNowClick | src/app/components/Careers.tsx:196-201 | The position is preselected and the previous outcome and message are cleared. |
| Careers.CareersPage.HandleApplicationSubmit | src/app/components/Careers.tsx:203-265 | A blocked gate gives 'Unable to submit…' and a missing resume gives 'Please attach your resume…', both without a request. Otherwise the payload is posted: success clears the form, the resume and the timer, and failure keeps them. Submitting ends false. |
| Contact.SetContactField | src/app/components/Contact.tsx:67-72 | The named field takes the new value and every other field is unchanged. |
| Contact.ContactPayloadOf | src/app/components/Contact.tsx:40-48 | Defines the contact payload. No contract of its own; Contact.ContactPayloadFields states it. |
| Contact.PassesGate | src/app/components/Contact.tsx:27 | Defines the spam gate: an empty honeypot and at least 3000 ms. No contract of its own; Contact.ContactSection.HandleSubmit states what each side of it does. |
| Contact.ContactPayloadFields | src/app/components/Contact.tsx:40-48 | An empty company is sent as 'N/A', the subject is 'New Contact Inquiry - ' followed by the name, the template is 'table' and the captcha 'false'. |
| Contact.ContactSection.constructor | src/app/components/Contact.tsx:9-19 | The first render has an empty form, the start time now, and no message. |
| Contact.ContactSection.HandleSubmit | src/app/components/Contact.tsx:21-65 | A filled honeypot or less than 3000 ms gives 'Unable to submit…', with no request and no state change. Otherwise the payload is posted. Success resets all five fields and the start time and marks the form sent; failure keeps the form and reports failure. Submitting ends false. |
| Contact.ContactSection.HandleChange | src/app/components/Contact.tsx:67-72 | Only the named form field changes. |
| Contact.ItemIcon | src/app/components/Contact.tsx:113 | Email shows Mail, phone shows Phone, and every other type shows MapPin. |
| Contact.RendersLink | src/app/components/Contact.tsx:128 | Defines `item.link && item.type !== 'location'`. No contract of its own; Contact.LocationNeverLinks and DefaultItemsRendering state it. |
| Contact.LocationNeverLinks | src/app/components/Contact.tsx:128 | A location item is never rendered as a link and shows MapPin. |
| Contact.DefaultItemsRendering | src/app/components/Contact.tsx:112-141 | With the default items, email and phone render as links with their icons and the location renders as text. |
| Testimonials.NextIndex | src/app/components/Testimonials.tsx:66-68 | `next` keeps the index in [0, n). |
| Testimonials.PrevIndex | src/app/components/Testimonials.tsx:70-72 | `prev` keeps the index in [0, n). |
| Testimonials.PrevFromFirst | src/app/components/Testimonials.tsx:66-72 | From the first card `prev` goes to the last, and from the last `next` goes to the first. |
| Testimonials.NextPrevInverse | src/app/components/Testimonials.tsx:66-72 | `next` and `prev` undo each other on [0, n). |
| Testimonials.NextTimes | src/app/components/Testimonials.tsx:66-68 | Repeated `next` calls stay in range. |
| Testimonials.NextTimesIsShift | src/app/components/Testimonials.tsx:66-68 | Any number `k` of calls of `next` advance the index by `k` modulo `n`; up to `n` calls wrap around at most once. |
| Testimonials.NextFullTurn | src/app/components/Testimonials.tsx:66-68 | `n` calls of `next` return to the starting index. |
| Testimonials.VisibleWindow | src/app/components/Testimonials.tsx:84-91 | The visible window has exactly three cards. |
| Testimonials.WindowDistinct | src/app/components/Testimonials.tsx:84-91 | With at least three distinct testimonials, the three visible cards are distinct. |
| Testimonials.TestimonialsDistinct | src/app/components/Testimonials.tsx:5-60 | The six testimonials are distinct. |
| Testimonials.Carousel.constructor | src/app/components/Testimonials.tsx:63-64 | The carousel starts at the first card with autoplay on. |
| Testimonials.Carousel.Next | src/app/components/Testimonials.tsx:66-68 | The index becomes `(i + 1) mod n`, and autoplay is unchanged. |
| Testimonials.Carousel.Prev | src/app/components/Testimonials.tsx:70-72 | The index becomes `(i - 1 + n) mod n`, and autoplay is unchanged. |
| Testimonials.Carousel.AutoPlayTick | src/app/components/Testimonials.tsx:74-82 | A tick advances the card only while autoplay is on. |
| Testimonials.Carousel.OnPrevClick | src/app/components/Testimonials.tsx:235-238 | The left arrow moves to the previous card and stops autoplay. |
| Testimonials.Carousel.OnDotClick | src/app/components/Testimonials.tsx:249-252 | Dot `k` sets the index to `k` and stops autoplay. |
| Testimonials.Carousel.SetAutoPlaying | src/app/components/Testimonials.tsx:138-139 | Hovering or touching the cards pauses autoplay, and leaving them resumes it; the card does not move. |
| Testimonials.Carousel.OnNextClick | src/app/components/Testimonials.tsx:263-266 | The right arrow moves to the next card and stops autoplay. |
| Testimonials.Carousel.GetVisibleTestimonials | src/app/components/Testimonials.tsx:84-91 | The three visible cards are testimonials `(i + k) mod n` for k = 0, 1, 2, and they are distinct. |
| CategoryFilter.FilterBy | src/app/components/Portfolio.tsx:76 | The filter never grows the list, and every entry kept has the chosen category. |
| CategoryFilter.Keep | src/app/components/Portfolio.tsx:76 | One entry is kept iff its category is the chosen one. |
| CategoryFilter.FilterCons | src/app/components/Portfolio.tsx:76 | Filtering a list with a leading entry is filtering that entry, then the rest. |
| CategoryFilter.FilterOne | src/app/components/Portfolio.tsx:76 | Filtering a single entry keeps it exactly when it matches. |
| CategoryFilter.FilterOfSix | src/app/components/Portfolio.tsx:76 | An unrolling used for the built-in data: the filter of a six-entry list, entry by entry. The filter's general properties are CategoryFilter.FilterMembership and FilterIsSubsequence. |
| CategoryFilter.FilterMembership | src/app/components/Portfolio.tsx:76 | An entry is in the filter iff it is in the list and has the chosen category. |
| CategoryFilter.FilterIsSubsequence | src/app/components/Portfolio.tsx:76 | The filter is an order-preserving subsequence of its input. |
| CategoryFilter.FilterAllMatch | src/app/components/Portfolio.tsx:76 | When every entry matches, the filter returns the input. |
| CategoryFilter.FilterAppend | src/app/components/Portfolio.tsx:76 | Filtering distributes over concatenation. |
| CategoryFilter.FilterOrAll | src/app/components/Portfolio.tsx:74-76 | Defines `active === 'All' ? items : items.filter(...)`. No contract of its own; CategoryFilter.FilterOrAllMeaning states it. |
| CategoryFilter.FilterOrAllMeaning | src/app/components/Portfolio.tsx:74-76 | 'All' gives the whole list in order. Any other choice gives exactly the entries of that category, as a subsequence. |
| CategoryFilter.SubsequenceRefl | src/app/components/Portfolio.tsx:74-75 | A list is a subsequence of itself. |
| CategoryFilter.Groups | TechShowcase.tsx:153-155 | There is one group per category, in category order, and each group is that category's filter. |
| CategoryFilter.OccurrencesOfDistinct | TechShowcase.tsx:117 | In a list of distinct categories, each category occurs once or not at all. |
| CategoryFilter.TotalSizeCons | TechShowcase.tsx:153-155 | A leading entry adds one card for each occurrence of its category. |
| CategoryFilter.GroupsPartition | TechShowcase.tsx:140-155 | With distinct categories covering every entry, the groups hold exactly as many cards as there are entries. |
| CategoryFilter.EmptyGroups | TechShowcase.tsx:153-155 | An empty list gives no cards. |
| CategoryFilter.EntryInOneGroup | TechShowcase.tsx:153-155 | An entry lies in the group of its own category and in no other. |
| Portfolio.FilteredProjectsMeaning | src/app/components/Portfolio.tsx:74-76 | 'All' gives the six projects in order. Any other category gives exactly its projects, as a subsequence. |
| Portfolio.FilteredProjects | src/app/components/Portfolio.tsx:74-76 | Defines `filteredProjects` over the built-in projects. No contract of its own; Portfolio.FilteredProjectsMeaning states it. |
| Portfolio.FilteredProjectsByCategory | src/app/components/Portfolio.tsx:5-68 | With the built-in data, 'Web Application' gives projects 2 and 6, each other category button gives its one project, and an unknown category gives nothing. |
| Portfolio.WebApplicationIds | src/app/components/Portfolio.tsx:5-66 | 'Web Application' shows the projects with ids 2 and 6. |
| Portfolio.FilterByBuiltInCategories | src/app/components/Portfolio.tsx:76 | The same result for any six projects with the built-in categories in the built-in order. |
| Portfolio.PortfolioSection.constructor | src/app/components/Portfolio.tsx:71-72 | The section starts at 'All' with no hovered project. |
| Portfolio.PortfolioSection.OnCategoryClick | src/app/components/Portfolio.tsx:113 | A category button sets the active category and leaves the hover alone. |
| Portfolio.PortfolioSection.OnHoverStart | src/app/components/Portfolio.tsx:143 | Hover start sets the hovered project to its id. |
| Portfolio.PortfolioSection.OnHoverEnd | src/app/components/Portfolio.tsx:144 | Hover end resets the hovered project to null. |
| Blog.FilteredPostsMeaning | src/app/components/Blog.tsx:80-82 | 'All' gives the six posts in order. Any other category gives exactly its posts, as a subsequence. |
| Blog.FilteredPosts | src/app/components/Blog.tsx:80-82 | Defines `filteredPosts` over the built-in posts. No contract of its own; Blog.FilteredPostsMeaning states it. |
| Blog.FilteredPostsByCategory | src/app/components/Blog.tsx:6-75 | A fact about the built-in posts, obtained by unrolling the filter: each of the six category buttons after 'All' gives exactly one post, and an unknown category gives none. |
| Blog.FilterByPostCategories | src/app/components/Blog.tsx:82 | The same result for any six posts with those categories in that order. |
| Blog.ReadMoreHref | src/app/components/Blog.tsx:184 | The 'Read More' link is '#blog/' followed by the slug. |
| Blog.ReadMoreHrefInjective | src/app/components/Blog.tsx:184 | Two posts have the same link iff they have the same slug. |
| Blog.BlogSection.constructor | src/app/components/Blog.tsx:78 | The section starts at 'All'. |
| Blog.BlogSection.OnCategoryClick | src/app/components/Blog.tsx:116-119 | A category button sets the active category and shows that category's posts. |
| TechShowcase.TechGroups | TechShowcase.tsx:140-155 | There is one section per category, in the order of `categories`, each holding that category's technologies. |
| TechShowcase.CategoriesDistinct | TechShowcase.tsx:117 | The six categories are distinct. |
| TechShowcase.EveryCategoryListed | TechShowcase.tsx:4-117 | Each of the 22 technologies has one of the six categories. |
| TechShowcase.ShowcaseGroups | TechShowcase.tsx:153-155 | Each section holds exactly its category's technologies in list order. The sections hold 22 cards together, and every technology is in a section. |
| TechShowcase.Avatar | TechShowcase.tsx:177 | A card's avatar is the first character of the name. |
| Seo.SetValue | src/app/components/SEO.tsx:39 | Overwriting an element's value does not change which selectors it matches. |
| Seo.Matches | src/app/components/SEO.tsx:33-53 | Defines the three selectors `meta[attribute="name"]`, `link[rel="rel"]` and `script#id`. No contract of its own; Seo.Create and SetValue state how it relates to created and updated elements. |
| Seo.Create | src/app/components/SEO.tsx:33-38 | A created element matches exactly its own selector and carries the value. |
| Seo.FirstMatch | src/app/components/SEO.tsx:33 | `querySelector` gives the first matching element, and none exactly when nothing matches. |
| Seo.Current | src/app/components/SEO.tsx:33-55 | Defines what a reader of `querySelector(sel)` sees. No contract of its own; Seo.Upsert, UpsertKeepsOthers and LastUpdateWins state it. |
| Seo.Upsert | src/app/components/SEO.tsx:32-40 | After an update, the first match holds the given value. |
| Seo.FirstMatchSamePattern | src/app/components/SEO.tsx:33 | Two heads whose elements match at the same positions have the same first match. |
| Seo.FirstMatchAppendOther | src/app/components/SEO.tsx:38 | Appending a non-matching element leaves the first match where it was. |
| Seo.FirstMatchAfterSet | src/app/components/SEO.tsx:39 | Overwriting the first match's value keeps it the first match. |
| Seo.FirstMatchAfterAppend | src/app/components/SEO.tsx:33-38 | With no match, the appended element becomes the first match. |
| Seo.UpsertAppendsWhenAbsent | src/app/components/SEO.tsx:33-38 | With no match, exactly one element is appended, carrying the selector and the value. |
| Seo.UpsertUpdatesFirstMatch | src/app/components/SEO.tsx:33-39 | With a match, only that element's value changes: nothing is added and the other elements are untouched. |
| Seo.UpsertIdempotent | src/app/components/SEO.tsx:32-40 | Repeating an update with the same arguments changes nothing. |
| Seo.ApplyAllAppend | src/app/components/SEO.tsx:64-155 | Running two runs of updates in sequence is running their concatenation. |
| Seo.ApplyAll | src/app/components/SEO.tsx:64-155 | Defines a run of updates, applied in call order. No contract of its own; Seo.ApplyAllAppend, ApplyAllUntouched and LastUpdateWins state it. |
| Seo.Selectors | src/app/components/SEO.tsx:64-155 | The selectors of a run are exactly those its updates use. |
| Seo.UpsertKeepsExclusive | src/app/components/SEO.tsx:32-61 | Updates never create an element that matches two selectors of the set. |
| Seo.ApplyAllKeepsExclusive | src/app/components/SEO.tsx:64-155 | A run of updates keeps every element matching at most one selector of the set. |
| Seo.UpsertKeepsOthers | src/app/components/SEO.tsx:32-61 | When no element of the head matches two of the selectors, an update of one selector leaves what every other selector reads unchanged. |
| Seo.ApplyAllUntouched | src/app/components/SEO.tsx:64-155 | When no element of the head matches two of the run's selectors, a run that never uses a selector leaves what it reads unchanged. |
| Seo.LastUpdateWins | src/app/components/SEO.tsx:64-155 | When no element of the head matches two of the run's selectors, a selector reads the value of its last update after the run. |
| Seo.WithinSuffix | src/app/components/SEO.tsx:64-155 | A suffix of a run uses only selectors of the run's set. |
| Seo.Resolve | src/app/components/SEO.tsx:12-21 | The props fall back to their defaults: the default title, the site URL for ogUrl, 'website' for the page type, and indexing allowed. |
| Seo.Robots | src/app/components/SEO.tsx:26 | robots is 'noindex, nofollow' iff `noIndex`, and 'index, follow' otherwise. |
| Seo.StandardTags | src/app/components/SEO.tsx:64-72 | Nine standard tags; the fourth sets robots and no later one touches it. |
| Seo.OpenGraphTags | src/app/components/SEO.tsx:75-81 | Seven Open Graph tags, all keyed by property: og:url carries `ogUrl`, og:type the page type, and neither is set again in the group. |
| Seo.TwitterTags | src/app/components/SEO.tsx:84-89 | Six Twitter tags; twitter:url carries `ogUrl` and is not set again, and robots is not touched. |
| Seo.TrailingUpdates | src/app/components/SEO.tsx:92-155 | The theme tags, the canonical link carrying `ogUrl`, then three scripts, none of which touches robots, twitter:url, og:url or og:type. |
| Seo.SeoUpdates | src/app/components/SEO.tsx:64-155 | The effect makes 28 updates. |
| Seo.UntouchedAppend | src/app/components/SEO.tsx:64-155 | Two runs that never use a selector concatenate to one that never does. |
| Seo.UntouchedSuffix | src/app/components/SEO.tsx:64-155 | A suffix clear of a selector, followed by another run clear of it, is clear of it. |
| Seo.SeoOutcome | src/app/components/SEO.tsx:25-96 | After the effect, robots follows `noIndex`, og:url, twitter:url and the canonical link all carry `ogUrl`, and og:type carries the page type. |
| Seo.GroupUpdateWins | src/app/components/SEO.tsx:64-155 | An update inside a group wins when neither the rest of the group nor what follows uses its selector. |
| Seo.RobotsOutcome | src/app/components/SEO.tsx:67 | After the effect, the robots tag reads the robots value. |
| Seo.OgUrlOutcome | src/app/components/SEO.tsx:78 | After the effect, og:url reads `ogUrl`. |
| Seo.OgTypeOutcome | src/app/components/SEO.tsx:79 | After the effect, og:type reads the page type. |
| Seo.TwitterOutcome | src/app/components/SEO.tsx:88 | After the effect, twitter:url reads `ogUrl`. |
| Seo.CanonicalOutcome | src/app/components/SEO.tsx:96 | After the effect, the canonical link reads `ogUrl`. |
| Seo.DocumentHead.constructor | src/app/components/SEO.tsx:22 | The head holds the given title and elements. |
| Seo.DocumentHead.UpdateMetaTag | src/app/components/SEO.tsx:32-40 | The first meta tag matching the attribute and name gets the content, or one is appended. |
| Seo.DocumentHead.UpdateLinkTag | src/app/components/SEO.tsx:42-50 | The first link with that rel gets the href, or one is appended. |
| Seo.DocumentHead.UpdateJsonLdScript | src/app/components/SEO.tsx:52-61 | The script with that id gets the serialised data, or one is appended. |
| Seo.DocumentHead.ApplyUpdates | src/app/components/SEO.tsx:64-155 | The calls of a run, one after the other. |
| Seo.DocumentHead.ApplySeo | src/app/components/SEO.tsx:22-156 | The effect sets the title, then makes its updates in call order. |
| BlogArticle.SlugFromPath | src/app/components/BlogArticle.tsx:8 | The slug is the path with its first '/blog/' removed, then decoded; a path without '/blog/' is decoded whole. |
| BlogArticle.SlugOfArticlePath | src/app/components/BlogArticle.tsx:8 | `/blog/<rest>` gives the decoded rest. |
| BlogArticle.FindPost | src/app/components/BlogArticle.tsx:9 | `find` gives the first post with the slug, and none exactly when no post has it. |
| BlogArticle.FindBySlug | src/app/components/BlogArticle.tsx:9 | With distinct slugs, each post is found by its own slug. |
| BlogArticle.RenderArticle | src/app/components/BlogArticle.tsx:8-65 | The not-found view appears iff no post has the slug, and its ogUrl carries the slug; otherwise the found post is shown. |
| BlogArticle.NotFoundSeo | src/app/components/BlogArticle.tsx:11-19 | The not-found view asks robots not to index, uses the not-found title and description, and carries the slug in its URL. |
| BlogArticle.FoundSeo | src/app/components/BlogArticle.tsx:34-37 | A found post's title is its meta title if non-empty, else its title with the site suffix. The description and the body fall back to the excerpt. The page is an indexable article whose URL carries the slug. |
| BlogArticle.DefaultArticleFound | src/app/components/BlogArticle.tsx:8-65 | Each default post is found at `/blog/<its slug>` and rendered with its fallbacks. |
| Navbar.IsHashNavigation | src/app/components/Navbar.tsx:26 | Defines `href.startsWith('/#')`. No contract of its own; Navbar.NavDecision and SectionLinkScrolls state what follows from it. |
| Navbar.NavDecision | src/app/components/Navbar.tsx:25-44 | The link is followed iff it is not `/#…` or the page is not home. '#home' scrolls to the top. Another hash scrolls to the element with that id, or does nothing when there is none. |
| Navbar.SectionLinkScrolls | src/app/components/Navbar.tsx:35-42 | On the home page, `/#<id>` scrolls to the section iff it exists. |
| Navbar.HomeLink | src/app/components/Navbar.tsx:36-37 | `/#home` scrolls to the top on the home page and is followed elsewhere. |
| Navbar.PlainLinkFollowed | src/app/components/Navbar.tsx:26-30 | `/careers` is always followed. |
| Navbar.NavbarState.constructor | src/app/components/Navbar.tsx:8-10 | The bar starts unscrolled with the menu closed, and it is the home page iff the path is '/'. |
| Navbar.NavbarState.OnScroll | src/app/components/Navbar.tsx:15 | `isScrolled` holds iff scrollY > 50. |
| Navbar.NavbarState.HandleNavClick | src/app/components/Navbar.tsx:25-44 | The outcome is the navigation decision, and the menu is closed afterwards. |
| Navbar.NavbarState.ToggleMenu | src/app/components/Navbar.tsx:90 | The menu button flips the menu. |
| About.ValueIconMap | src/app/components/About.tsx:11-31 | The map is total over the 19 keys; lightbulb and rocket have their own glyphs and the other 17 keys, target among them, show Target. |
| About.ValueIcon | src/app/components/About.tsx:122 | 'lightbulb' and 'rocket' show their glyphs. A name inherited from `Object.prototype`, such as 'constructor', yields that member, so the fallback is not taken. Every other string, including one outside `IconKey`, shows Target. |
| About.ValueIconOfKey | src/app/components/About.tsx:122 | A key's own name looks up its entry of the map. |
| About.DefaultValueGlyphs | src/app/components/About.tsx:12-14 | The three default values show Target, Lightbulb and Rocket. |
| IotShowcase.FeatureIconMap | src/app/components/IoTShowcase.tsx:19-39 | The map is total over the 19 keys; wifi, database, shield, cloud and zap have their own glyphs and the other 14 keys, cpu among them, show Cpu. |
| IotShowcase.FeatureIcon | src/app/components/IoTShowcase.tsx:107 | The five named strings show their glyphs. A name inherited from `Object.prototype` yields that member, so the fallback is not taken. Every other string shows Cpu. |
| IotShowcase.FeatureIconOfKey | src/app/components/IoTShowcase.tsx:107 | A key's own name looks up its entry of the map. |
| IotShowcase.DefaultFeatureGlyphs | src/app/components/IoTShowcase.tsx:20-25 | The six default features show six different glyphs. |
| TrustedBy.Utf8 | src/app/components/TrustedBy.tsx:84 | A character encodes to one to four bytes below 256, and to one byte, itself, iff it is below 0x80. |
| TrustedBy.Unreserved | src/app/components/TrustedBy.tsx:84 | Defines the characters `encodeURIComponent` keeps. No contract of its own; TrustedBy.EncodeChar and EncodeUnreservedIdentity state it. |
| TrustedBy.HexDigit | src/app/components/TrustedBy.tsx:84 | A hexadecimal digit needs no escape. |
| TrustedBy.PercentEncode | src/app/components/TrustedBy.tsx:84 | Each byte becomes three characters, '%' and two digits. |
| TrustedBy.EncodeChar | src/app/components/TrustedBy.tsx:84 | An unreserved character is kept; any other becomes the '%XY' of its UTF-8 bytes. |
| TrustedBy.EncodeUriComponent | src/app/components/TrustedBy.tsx:84 | The encoding is never shorter than the input and uses only '%' and unreserved characters. |
| TrustedBy.EncodeAppend | src/app/components/TrustedBy.tsx:84 | The encoding of a concatenation is the concatenation of the encodings. |
| TrustedBy.EncodeUnreservedIdentity | src/app/components/TrustedBy.tsx:84 | A string of unreserved characters is its own encoding. |
| TrustedBy.EncodeSpace | src/app/components/TrustedBy.tsx:84 | A space becomes '%20'. |
| TrustedBy.EncodeWithExtension | src/app/components/TrustedBy.tsx:84 | A file name ending in an unreserved extension encodes to the encoded stem followed by that extension. |
| TrustedBy.EncodedEndsWith | src/app/components/TrustedBy.tsx:84 | An encoded logo path keeps the file's unreserved extension at its end. |
| TrustedBy.EncodeSpaced | src/app/components/TrustedBy.tsx:84 | Two unreserved words joined by a space encode with '%20' between them. |
| TrustedBy.EncodeJoin | src/app/components/TrustedBy.tsx:84 | Two self-encoding words around a separator encode as the words around the encoded separator. |
| TrustedBy.FirstClientPrimarySrc | src/app/components/TrustedBy.tsx:12-36 | The first client's logo path is '/client-logos/indian%20Army.png'. |
| TrustedBy.PrimarySrc | src/app/components/TrustedBy.tsx:84 | Defines the primary logo path. No contract of its own; TrustedBy.FirstClientPrimarySrc and PrimaryNotFallback state it. |
| TrustedBy.FallbackSrc | src/app/components/TrustedBy.tsx:128 | Defines the fallback logo path. No contract of its own; TrustedBy.PrimaryNotFallback and LogoCard.OnError state it. |
| TrustedBy.Marquee | src/app/components/TrustedBy.tsx:145 | Defines the cards of one marquee row. No contract of its own; TrustedBy.MarqueeRepeats states it. |
| TrustedBy.MarqueeRepeats | src/app/components/TrustedBy.tsx:145 | A row holds the client list three times: `3n` cards, card `i` being client `i mod n`. |
| TrustedBy.DefaultMarquee | src/app/components/TrustedBy.tsx:12-36 | Each row shows the 11 clients three times in order: 33 cards. |
| TrustedBy.PrimaryNotFallback | src/app/components/TrustedBy.tsx:84-130 | A '.png' logo with an '.svg' fallback gives two different image sources. |
| TrustedBy.DefaultClientFiles | src/app/components/TrustedBy.tsx:12-36 | Every listed client has a '.png' logo and an '.svg' fallback, so its two sources differ. |
| TrustedBy.LogoCard.constructor | src/app/components/TrustedBy.tsx:83-84 | A card starts on the primary file path, not hovered. |
| TrustedBy.LogoCard.OnError | src/app/components/TrustedBy.tsx:127-130 | An error switches to the fallback path; an error while on the fallback changes nothing. |
| TrustedBy.LogoCard.SetClient | src/app/components/TrustedBy.tsx:86-88 | A new client whose file differs resets the source to its primary path; with the same file the source is kept. |
| TrustedBy.LogoCard.OnMouseEnter | src/app/components/TrustedBy.tsx:92 | The mouse entering sets the hover and changes nothing else. |
| TrustedBy.LogoCard.OnMouseLeave | src/app/components/TrustedBy.tsx:93 | The mouse leaving clears the hover and changes nothing else. |
| TrustedBy.YearsOfTrust | src/app/components/TrustedBy.tsx:190 | The figure is the year minus 2019 from 2020 on, and 1 up to 2020: always at least 1. |
| TrustedBy.Progress | src/app/components/TrustedBy.tsx:46 | The progress is at most 1, reaches 1 exactly when the duration has elapsed, and is never negative once time has started. |
| TrustedBy.CountAt | src/app/components/TrustedBy.tsx:47 | The count shows the target once the duration has elapsed, and stays between 0 and the target before then. |
| TrustedBy.CountMonotone | src/app/components/TrustedBy.tsx:44-49 | The shown count never goes down as time passes. |
| TrustedBy.CountUp.constructor | src/app/components/TrustedBy.tsx:41-43 | The effect starts with no start time, and the count keeps what it showed. |
| TrustedBy.CountUp.Tick | src/app/components/TrustedBy.tsx:44-49 | The first frame fixes the start time and shows 0. Each frame shows the count for the elapsed time and asks for another frame until the duration has passed, at which point the count is the target. |
| TrustedBy.VisibilityLatch.constructor | src/app/components/TrustedBy.tsx:192 | The section starts not visible. |
| TrustedBy.VisibilityLatch.OnIntersect | src/app/components/TrustedBy.tsx:194-203 | An intersecting callback sets `visible`, and no callback clears it. |
| TrustedBy.IndexOfTrue | src/app/components/TrustedBy.tsx:197 | Gives a callback that saw the section. |
| TrustedBy.LatchStaysSet | src/app/components/TrustedBy.tsx:192-203 | Once seen, the section stays visible whatever later callbacks report. |
| Footer.QuickLinkHref | src/app/components/Footer.tsx:54 | A quick-link anchor starts with '#' and is one character longer than its label, or the same length when a space was removed. |
| Footer.LowerKeepsSpaces | src/app/components/Footer.tsx:54 | Lowercasing keeps every space a space and creates none. |
| Footer.QuickLinkNoSpace | src/app/components/Footer.tsx:54 | A label without a space gives '#' followed by the lowercased label. |
| Footer.QuickLinkFirstSpace | src/app/components/Footer.tsx:54 | Only the first space is removed and later spaces are kept. |
| Footer.DefaultQuickLinkHrefs | src/app/components/Footer.tsx:51-54 | The five quick links give '#home', '#services', '#techstack', '#clients' and '#about'. |
| Footer.QuickLinkTargets | src/app/components/Footer.tsx:54 | Of the five anchors, all but the 'Tech Stack' one name a section of the page. |
| Footer.SectionAnchor | src/app/components/TechStack.tsx:162 | A label's section anchor is '#' followed by the label lowercased with each space turned into '-'. |
| Footer.SectionAnchorAgrees | src/app/components/Footer.tsx:54 | For a label without a space, the section anchor is the anchor the footer builds. |
| Footer.QuickLinksReachSections | src/app/components/Footer.tsx:51-54 | With section anchors, all five quick links name a section of the page. |
| Footer.ServiceLinksReachServices | src/app/components/Footer.tsx:68-77 | The five service links all point to '#services', which is a section of the page. |

## Left out

- Hydration: the content-service client (`src/app/lib/sanity.ts`) and `fetchSiteContentFromSanity` are not part of this model. The model represents the fetch result as an optional payload, with None standing for a failure or no content.
- Hydration.SiteContentProvider.LoadContent: the promise ordering and the effect cleanup are not modelled. Unmounting is modelled only as a flag read when the fetch settles.
- Hydration: the top-level spread of the payload is not modelled separately. Every key of the model is re-set by the section merges, so a payload key outside the model's records is not carried over.
- Hydration: the elements of a fetched list are typed records. `pickArray` takes any non-empty array, but a `null` element, an element with missing fields or a field of the wrong type inside an accepted list is not represented. Neither is what the consumers then do: `post.slug` on a `null` post throws (src/app/components/BlogArticle.tsx:9), and a post with neither `metaTitle` nor `title` gets the page title 'undefined \| Zenture IT Solutions' (src/app/components/BlogArticle.tsx:34). Only a well-typed element with an unknown icon name is shown to pass through.
- Hydration: a fetched section is an object or absent. Spreading null or undefined adds no key, so both read as absent, as in JavaScript. A section holding a string or a number, whose spread would add index keys, is not represented.
- Careers.CareersPage.LoadCareersFromCMS: modelled only while the page stays mounted. When it is unmounted, the source's `!isMounted` return in the first tier falls through to the legacy tier instead of stopping (src/app/components/Careers.tsx:143).
- Careers and Contact: `fetch`, `FormData`, `File`, the form-relay service and `console.error` are left out. Each HTTP exchange is a parameter that says how the request ended. The time when the request settled is a parameter too.
- Careers.SortedPositions: date parsing is a function parameter from values to integers. Invalid dates (NaN) and the comparator's behaviour on NaN are not modelled.
- BlogArticle.SlugFromPath: `decodeURIComponent` is a function parameter, and the `URIError` it can throw is not modelled.
- Seo: `JSON.stringify` of the three schema objects is a function parameter. The head is a sequence, and `querySelector` is its first match. The selector grammar of the DOM is not modelled.
- Seo.SeoOutcome: this requires that no element of the head matches two selectors of the effect. The source's own result depends on the same condition: an element such as `<meta name="robots" property="og:url">` is the first match of both selectors, so both updates overwrite it and it ends up carrying only the later value. The outcome for such a head is not stated.
- Navbar.NavDecision: `querySelector(hash)` is modelled as a lookup of the id after '#'. `scrollIntoView`, `scrollTo`, `preventDefault` and the scroll listener's registration are left out.
- Strings.ToLowerAscii: `toLowerCase` is modelled for ASCII letters only.
- Js.Value: numbers are integers, so a fractional number is not represented, and neither is NaN, which is falsy. Objects and arrays are one truthy value `Obj` whose contents are not modelled.
- About.ValueIcon and IotShowcase.FeatureIcon: what React does when it is handed an inherited `Object.prototype` member as a component is not modelled. The model only records that the lookup yields that member and the fallback is not taken.
- TrustedBy.CountAt: real arithmetic stands in for floating-point division and multiplication.
- TrustedBy.CountUp.Tick: the model requires a positive duration. The only caller passes 2000 ms.
- TrustedBy.CountUp.Tick: a 0 timestamp counts as falsy in the model, as in the source. NaN timestamps are not modelled.
- TrustedBy: `requestAnimationFrame`, `IntersectionObserver` thresholds and disconnection, the stat pills' rendering, and the current year's clock are parameters or left out.
- TrustedBy.LogoCard.SetClient: the model does not represent the render between a prop change and the effect that resets the source.
- TrustedBy.VisibilityLatch: the callback history is a ghost field, used only to state the latch property.
- Testimonials.Carousel.AutoPlayTick: the 5000 ms interval and its re-arming on every index change are reduced to a tick that fires while autoplay is on.
- Portfolio, Blog and Testimonials: these components use their own local lists, not the hydrated content, and the model follows them.
- Animation, motion and styling props, the animated globe, the neon flow demo, the scroll progress bar, the lazy sections and the static sections (Hero, Services, Research, Clients, ProjectDetail, App) have no rule to verify. The same goes for the content-service studio schema and configuration.
- TechStack's years figure uses the same formula as `TrustedBy.YearsOfTrust` and is not modelled again.

## Findings

| source | as written | input that shows it | evidently intended | confidence | as-written member | corrected member |
|---|---|---|---|---|---|---|
| src/app/components/Footer.tsx:54 | The anchor is `#` plus the label lowercased with only its first space removed. | The label 'Tech Stack' gives '#techstack', but the section's id is 'tech-stack' (src/app/components/TechStack.tsx:162), so the link leads nowhere. | The anchor of each quick link names the section of that label: spaces become '-', which gives '#tech-stack'. | not executed | Footer.QuickLinkTargets | Footer.QuickLinksReachSections |
