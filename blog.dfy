/**
 * The blog section: its own list of six posts, the category buttons and the filtered grid, and
 * the 'Read More' link of each card.
 */
module Blog {
  import opened CategoryFilter

  datatype BlogPost = BlogPost(
    id: int, title: string, excerpt: string, author: string, date: string, readTime: string,
    category: string, image: string, slug: string)

  /** The section's own posts (it does not read the site content). */
  const BlogPosts: seq<BlogPost> := [
    BlogPost(1, "The Future of AI in Software Development",
      "Explore how artificial intelligence is revolutionizing the way we build and deploy software applications.",
      "Zenture Team", "2026-02-15", "5 min read", "AI & ML", "ai-technology", "future-of-ai-in-software-development"),
    BlogPost(2, "Building Scalable IoT Solutions",
      "Learn best practices for creating IoT systems that can handle millions of connected devices efficiently.",
      "John Doe", "2026-02-10", "7 min read", "IoT", "iot-devices", "building-scalable-iot-solutions"),
    BlogPost(3, "Mobile App Development Trends 2026",
      "Discover the latest trends shaping mobile application development this year.",
      "Jane Smith", "2026-02-05", "6 min read", "Mobile Development", "mobile-app-development", "mobile-app-development-trends-2026"),
    BlogPost(4, "Cloud Architecture Best Practices",
      "Essential patterns and strategies for building robust cloud-native applications.",
      "Zenture Team", "2026-01-28", "8 min read", "Cloud Computing", "cloud-infrastructure", "cloud-architecture-best-practices"),
    BlogPost(5, "Cybersecurity in Modern Web Apps",
      "Critical security measures every developer should implement in their web applications.",
      "Security Team", "2026-01-20", "10 min read", "Security", "cybersecurity", "cybersecurity-modern-web-apps"),
    BlogPost(6, "The Rise of Low-Code Development",
      "How low-code platforms are democratizing software development and accelerating delivery.",
      "Tech Insights", "2026-01-15", "5 min read", "Development", "coding-workspace", "rise-of-low-code-development")
  ]

  const Categories: seq<string> :=
    ["All", "AI & ML", "IoT", "Mobile Development", "Cloud Computing", "Security", "Development"]

  function PostCategory(p: BlogPost): string { p.category }

  /** `filteredPosts` for the active category. */
  function FilteredPosts(active: string): seq<BlogPost>
  {
    FilterOrAll(BlogPosts, PostCategory, active)
  }

  /** 'All' shows all six posts in order; any other category shows exactly its posts, in order. */
  lemma FilteredPostsMeaning(active: string, p: BlogPost)
    ensures active == "All" ==> FilteredPosts(active) == BlogPosts
    ensures active != "All" ==> (p in FilteredPosts(active) <==> p in BlogPosts && p.category == active)
    ensures IsSubsequence(FilteredPosts(active), BlogPosts)
  {
    FilterOrAllMeaning(BlogPosts, PostCategory, active, p);
  }

  /**
   * Each category button after 'All' shows exactly one post, the one in the same position; a
   * category no post has shows an empty grid.
   */
  lemma FilteredPostsByCategory(active: string)
    requires active != "All"
    ensures FilteredPosts(active) ==
      if active == "AI & ML" then [BlogPosts[0]]
      else if active == "IoT" then [BlogPosts[1]]
      else if active == "Mobile Development" then [BlogPosts[2]]
      else if active == "Cloud Computing" then [BlogPosts[3]]
      else if active == "Security" then [BlogPosts[4]]
      else if active == "Development" then [BlogPosts[5]]
      else []
  {
    FilterByPostCategories(BlogPosts, active);
  }

  /** The same over any six posts with the categories of the buttons after 'All', in that order. */
  lemma FilterByPostCategories(p: seq<BlogPost>, active: string)
    requires |p| == 6
    requires p[0].category == "AI & ML" && p[1].category == "IoT"
    requires p[2].category == "Mobile Development" && p[3].category == "Cloud Computing"
    requires p[4].category == "Security" && p[5].category == "Development"
    ensures FilterBy(p, PostCategory, active) ==
      if active == "AI & ML" then [p[0]]
      else if active == "IoT" then [p[1]]
      else if active == "Mobile Development" then [p[2]]
      else if active == "Cloud Computing" then [p[3]]
      else if active == "Security" then [p[4]]
      else if active == "Development" then [p[5]]
      else []
  {
    FilterOfSix(p, PostCategory, active);
  }

  /** The 'Read More' link of a card: the hash `#blog/` followed by the post's slug. */
  function ReadMoreHref(post: BlogPost): (href: string)
    ensures |href| == 6 + |post.slug|
    ensures href[..6] == "#blog/" && href[6..] == post.slug
  {
    "#blog/" + post.slug
  }

  /** Distinct slugs give distinct links. */
  lemma ReadMoreHrefInjective(p: BlogPost, q: BlogPost)
    ensures ReadMoreHref(p) == ReadMoreHref(q) <==> p.slug == q.slug
  {
    if ReadMoreHref(p) == ReadMoreHref(q) {
      assert p.slug == ReadMoreHref(p)[6..];
    }
  }

  /** The blog section state. */
  class BlogSection {
    var activeCategory: string

    constructor()
      ensures activeCategory == "All"
    {
      activeCategory := "All";
    }

    /** The posts on screen. */
    function Visible(): seq<BlogPost>
      reads this
    {
      FilteredPosts(activeCategory)
    }

    /** A category button. */
    method OnCategoryClick(category: string)
      modifies this
      ensures activeCategory == category
      ensures Visible() == FilteredPosts(category)
    {
      activeCategory := category;
    }
  }
}
