/**
 * The footer's link lists: the quick links, whose anchors are built from their labels, and the
 * service links, which all lead to the services section. The anchors are compared with the ids
 * of the page's sections.
 */
module Footer {
  import opened Strings

  const QuickLinkLabels: seq<string> := ["Home", "Services", "Tech Stack", "Clients", "About"]

  const ServiceLabels: seq<string> :=
    ["Web Development", "Software Development", "Mobile Apps", "IoT Solutions", "AI Solutions"]

  /** The ids of the sections of the home page (hero, services, tech stack, clients, about). */
  const SectionIds: set<string> := {"home", "services", "tech-stack", "clients", "about"}

  predicate NoSpace(s: string)
  {
    forall k :: 0 <= k < |s| ==> s[k] != ' '
  }

  /**
   * `#${link.toLowerCase().replace(' ', '')}`: the anchor of a quick link as the footer builds
   * it; only the first space of the text is removed.
   */
  function QuickLinkHref(text: string): (href: string)
    ensures |href| >= 1 && href[0] == '#'
    ensures |href| == |text| + 1 || |href| == |text|
  {
    "#" + ReplaceFirst(ToLowerAscii(text), " ", "")
  }

  /** Lowercasing turns a space into a space and nothing else into one. */
  lemma LowerKeepsSpaces(s: string)
    ensures forall k :: 0 <= k < |s| ==> (ToLowerAscii(s)[k] == ' ' <==> s[k] == ' ')
  {
  }

  /** A text without a space gives '#' and the lowercased text. */
  lemma QuickLinkNoSpace(text: string)
    requires NoSpace(text)
    ensures QuickLinkHref(text) == "#" + ToLowerAscii(text)
  {
    LowerKeepsSpaces(text);
    NoCharOccurrence(ToLowerAscii(text), ' ');
  }

  /** The first space is removed and every later one is kept. */
  lemma QuickLinkFirstSpace(a: string, b: string)
    requires NoSpace(a)
    ensures QuickLinkHref(a + " " + b) == "#" + ToLowerAscii(a) + ToLowerAscii(b)
  {
    var s := a + " " + b;
    var l := ToLowerAscii(s);
    LowerKeepsSpaces(s);
    assert l == ToLowerAscii(a) + " " + ToLowerAscii(b);
    FirstCharOccurrence(l, ' ', |a|);
    assert l[..|a|] == ToLowerAscii(a) && l[|a| + 1..] == ToLowerAscii(b);
  }

  const QuickLinkAnchors: seq<string> := ["#home", "#services", "#techstack", "#clients", "#about"]

  /** The five quick links as the footer writes them. */
  lemma DefaultQuickLinkHrefs()
    ensures forall i :: 0 <= i < |QuickLinkLabels| ==> QuickLinkHref(QuickLinkLabels[i]) == QuickLinkAnchors[i]
  {
    forall i | 0 <= i < |QuickLinkLabels| ensures QuickLinkHref(QuickLinkLabels[i]) == QuickLinkAnchors[i] {
      if i == 0 {
        WordHref(QuickLinkLabels[i], "home");
        assert "#" + "home" == "#home";
      } else if i == 1 {
        WordHref(QuickLinkLabels[i], "services");
        assert "#" + "services" == "#services";
      } else if i == 2 {
        TechStackHref(QuickLinkLabels[i]);
      } else if i == 3 {
        WordHref(QuickLinkLabels[i], "clients");
        assert "#" + "clients" == "#clients";
      } else {
        WordHref(QuickLinkLabels[i], "about");
        assert "#" + "about" == "#about";
      }
    }
  }

  /** The one label of two words: the space is dropped and both words are lowered. */
  lemma TechStackHref(t: string)
    requires t == "Tech Stack"
    ensures QuickLinkHref(t) == "#techstack"
  {
    assert "Tech Stack" == "Tech" + " " + "Stack";
    TwoWordHref(t, "Tech", "Stack", "tech", "stack");
    assert "#" + "tech" + "stack" == "#techstack";
  }

  /** A label without a space links to `#` and its lower-case form. */
  lemma WordHref(t: string, lower: string)
    requires NoSpace(t) && ToLowerAscii(t) == lower
    ensures QuickLinkHref(t) == "#" + lower
  {
    QuickLinkNoSpace(t);
  }

  /** A label of two words links to `#` and both words lowered, with the space dropped. */
  lemma TwoWordHref(t: string, a: string, b: string, la: string, lb: string)
    requires t == a + " " + b && NoSpace(a) && ToLowerAscii(a) == la && ToLowerAscii(b) == lb
    ensures QuickLinkHref(t) == "#" + la + lb
  {
    QuickLinkFirstSpace(a, b);
  }

  /** Among the quick links only 'Tech Stack' names no section of the page. */
  lemma QuickLinkTargets()
    ensures forall i :: 0 <= i < |QuickLinkLabels| ==> (QuickLinkHref(QuickLinkLabels[i])[1..] in SectionIds <==> i != 2)
  {
    DefaultQuickLinkHrefs();
    forall i | 0 <= i < |QuickLinkLabels| ensures QuickLinkHref(QuickLinkLabels[i])[1..] in SectionIds <==> i != 2 {
      AnchorTarget(i);
    }
  }

  lemma AnchorTarget(i: nat)
    requires i < |QuickLinkAnchors|
    ensures QuickLinkAnchors[i][1..] in SectionIds <==> i != 2
  {
    if i == 0 { assert QuickLinkAnchors[i][1..] == "home"; }
    else if i == 1 { assert QuickLinkAnchors[i][1..] == "services"; }
    else if i == 2 { assert QuickLinkAnchors[i][1..] == "techstack"; }
    else if i == 3 { assert QuickLinkAnchors[i][1..] == "clients"; }
    else { assert QuickLinkAnchors[i][1..] == "about"; }
  }

  /** The anchor of a section named by a text: lowercased, every space turned into '-'. */
  function SectionAnchor(text: string): (href: string)
    ensures |href| == |text| + 1 && href[0] == '#'
    ensures forall k :: 0 <= k < |text| ==> href[k + 1] == (if text[k] == ' ' then '-' else LowerChar(text[k]))
  {
    "#" + seq(|text|, k requires 0 <= k < |text| => if text[k] == ' ' then '-' else LowerChar(text[k]))
  }

  /** For a text without a space the anchor is the one the footer builds. */
  lemma SectionAnchorAgrees(text: string)
    requires NoSpace(text)
    ensures SectionAnchor(text) == QuickLinkHref(text)
  {
    QuickLinkNoSpace(text);
    assert SectionAnchor(text)[1..] == ToLowerAscii(text);
  }

  /** Every quick link, with its anchor built by `SectionAnchor`, names a section of the page. */
  lemma QuickLinksReachSections()
    ensures forall i :: 0 <= i < |QuickLinkLabels| ==> SectionAnchor(QuickLinkLabels[i])[1..] in SectionIds
  {
    forall i | 0 <= i < |QuickLinkLabels| ensures SectionAnchor(QuickLinkLabels[i])[1..] in SectionIds {
      if i == 0 { WordAnchor(QuickLinkLabels[i], "home"); }
      else if i == 1 { WordAnchor(QuickLinkLabels[i], "services"); }
      else if i == 2 {
        assert QuickLinkLabels[i] == "Tech" + " " + "Stack";
        assert "tech" + "-" + "stack" == "tech-stack";
        TwoWordAnchor(QuickLinkLabels[i], "Tech", "Stack", "tech", "stack");
      }
      else if i == 3 { WordAnchor(QuickLinkLabels[i], "clients"); }
      else { WordAnchor(QuickLinkLabels[i], "about"); }
    }
  }

  lemma WordAnchor(t: string, id: string)
    requires NoSpace(t) && ToLowerAscii(t) == id && id in SectionIds
    ensures SectionAnchor(t)[1..] in SectionIds
  {
    assert SectionAnchor(t)[1..] == id;
  }

  lemma TwoWordAnchor(t: string, a: string, b: string, la: string, lb: string)
    requires t == a + " " + b && NoSpace(a) && NoSpace(b)
    requires ToLowerAscii(a) == la && ToLowerAscii(b) == lb && la + "-" + lb in SectionIds
    ensures SectionAnchor(t)[1..] in SectionIds
  {
    assert SectionAnchor(t)[1..] == la + "-" + lb;
  }

  /** The href of every service link. */
  const ServiceLinkHref := "#services"

  /** The service links all lead to the services section. */
  lemma ServiceLinksReachServices()
    ensures |ServiceLabels| == 5
    ensures ServiceLinkHref[1..] in SectionIds
  {
    assert ServiceLinkHref[1..] == "services";
  }
}
