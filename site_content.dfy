/**
 * The content schema of the site (every section's fields and the closed set of icon
 * identifiers) and the compiled-in default content table.
 *
 * Section-level scalar fields are `Js.Value`: the defaults are all strings, but after
 * hydration a field holds whatever value the content service sent for it, null included.
 * Elements of list fields keep their declared field types. Icon fields hold the raw
 * identifier string, which is checked against `IconKey` only when a component renders it.
 */
module SiteContent {
  import opened Wrappers
  import opened Js

  /** The closed set of icon identifiers. */
  datatype IconKey =
    | Target | Lightbulb | Rocket | Globe | Code | Smartphone | Cpu | Brain | Code2 | Wifi
    | Database | Shield | Cloud | Zap | Beaker | TrendingUp | Users | Award | BookOpen
  {
    /** The identifier as it appears in content. */
    function Name(): string
    {
      match this
      case Target => "target"
      case Lightbulb => "lightbulb"
      case Rocket => "rocket"
      case Globe => "globe"
      case Code => "code"
      case Smartphone => "smartphone"
      case Cpu => "cpu"
      case Brain => "brain"
      case Code2 => "code2"
      case Wifi => "wifi"
      case Database => "database"
      case Shield => "shield"
      case Cloud => "cloud"
      case Zap => "zap"
      case Beaker => "beaker"
      case TrendingUp => "trendingUp"
      case Users => "users"
      case Award => "award"
      case BookOpen => "bookOpen"
    }
  }

  const AllIconKeys: seq<IconKey> :=
    [Target, Lightbulb, Rocket, Globe, Code, Smartphone, Cpu, Brain, Code2, Wifi,
     Database, Shield, Cloud, Zap, Beaker, TrendingUp, Users, Award, BookOpen]

  /** Reads a runtime identifier: None when it is not one of the nineteen names. */
  function ParseIconKey(s: string): (r: Option<IconKey>)
    ensures r.Some? ==> r.value.Name() == s
  {
    if s == "target" then Some(Target)
    else if s == "lightbulb" then Some(Lightbulb)
    else if s == "rocket" then Some(Rocket)
    else if s == "globe" then Some(Globe)
    else if s == "code" then Some(Code)
    else if s == "smartphone" then Some(Smartphone)
    else if s == "cpu" then Some(Cpu)
    else if s == "brain" then Some(Brain)
    else if s == "code2" then Some(Code2)
    else if s == "wifi" then Some(Wifi)
    else if s == "database" then Some(Database)
    else if s == "shield" then Some(Shield)
    else if s == "cloud" then Some(Cloud)
    else if s == "zap" then Some(Zap)
    else if s == "beaker" then Some(Beaker)
    else if s == "trendingUp" then Some(TrendingUp)
    else if s == "users" then Some(Users)
    else if s == "award" then Some(Award)
    else if s == "bookOpen" then Some(BookOpen)
    else None
  }

  /** Parsing a key's name gives the key back (the first six keys). */
  lemma ParseNameFirstSix(k: IconKey)
    requires k in {Target, Lightbulb, Rocket, Globe, Code, Smartphone}
    ensures ParseIconKey(k.Name()) == Some(k)
  {
  }

  /** Parsing a key's name gives the key back (the next six keys). */
  lemma ParseNameNextSix(k: IconKey)
    requires k in {Cpu, Brain, Code2, Wifi, Database, Shield}
    ensures ParseIconKey(k.Name()) == Some(k)
  {
  }

  /** Parsing a key's name gives the key back (the last seven keys). */
  lemma ParseNameLastSeven(k: IconKey)
    requires k in {Cloud, Zap, Beaker, TrendingUp, Users, Award, BookOpen}
    ensures ParseIconKey(k.Name()) == Some(k)
  {
  }

  /** The nineteen keys listed in AllIconKeys are distinct and are all the keys there are. */
  lemma AllIconKeysComplete()
    ensures |AllIconKeys| == 19
    ensures Distinct(AllIconKeys)
    ensures forall k: IconKey :: k in AllIconKeys
  {
    forall k: IconKey ensures k in AllIconKeys {
      match k
      case Target => case Lightbulb => case Rocket => case Globe => case Code =>
      case Smartphone => case Cpu => case Brain => case Code2 => case Wifi =>
      case Database => case Shield => case Cloud => case Zap => case Beaker =>
      case TrendingUp => case Users => case Award => case BookOpen =>
    }
  }

  /**
   * IconKey is a closed set of exactly nineteen names: parsing a name gives its key back,
   * so no two keys share a name, and a string parses only to the key of that name.
   */
  lemma {:induction false} IconKeyClosedSet()
    ensures |AllIconKeys| == 19 && Distinct(AllIconKeys)
    ensures forall k: IconKey :: k in AllIconKeys && ParseIconKey(k.Name()) == Some(k)
    ensures forall k1: IconKey, k2: IconKey :: k1.Name() == k2.Name() ==> k1 == k2
  {
    AllIconKeysComplete();
    forall k: IconKey ensures ParseIconKey(k.Name()) == Some(k) {
      match k
      case Target => ParseNameFirstSix(k);
      case Lightbulb => ParseNameFirstSix(k);
      case Rocket => ParseNameFirstSix(k);
      case Globe => ParseNameFirstSix(k);
      case Code => ParseNameFirstSix(k);
      case Smartphone => ParseNameFirstSix(k);
      case Cpu => ParseNameNextSix(k);
      case Brain => ParseNameNextSix(k);
      case Code2 => ParseNameNextSix(k);
      case Wifi => ParseNameNextSix(k);
      case Database => ParseNameNextSix(k);
      case Shield => ParseNameNextSix(k);
      case Cloud => ParseNameLastSeven(k);
      case Zap => ParseNameLastSeven(k);
      case Beaker => ParseNameLastSeven(k);
      case TrendingUp => ParseNameLastSeven(k);
      case Users => ParseNameLastSeven(k);
      case Award => ParseNameLastSeven(k);
      case BookOpen => ParseNameLastSeven(k);
    }
    forall k1: IconKey, k2: IconKey | k1.Name() == k2.Name() ensures k1 == k2 {
      assert ParseIconKey(k1.Name()) == Some(k1);
      assert ParseIconKey(k2.Name()) == Some(k2);
    }
  }

  /** No key is named like a member every object inherits, so such a name never parses. */
  lemma InheritedNamesAreNotKeys()
    ensures forall k: IconKey :: k.Name() !in ObjectPrototypeNames
    ensures forall s :: s in ObjectPrototypeNames ==> ParseIconKey(s).None?
  {
    forall k: IconKey ensures k.Name() !in ObjectPrototypeNames {
      match k
      case Target => case Lightbulb => case Rocket => case Globe => case Code =>
      case Smartphone => case Cpu => case Brain => case Code2 => case Wifi =>
      case Database => case Shield => case Cloud => case Zap => case Beaker =>
      case TrendingUp => case Users => case Award => case BookOpen =>
    }
  }

  datatype NavLink = NavLink(name: string, href: string)

  datatype AboutValue = AboutValue(icon: string, title: string, description: string)

  datatype AboutContent = AboutContent(
    titlePrefix: Value, titleHighlight: Value, subtitle: Value, yearsValue: Value,
    yearsLabel: Value, paragraph1: Value, paragraph2: Value,
    highlights: seq<string>, values: seq<AboutValue>)

  datatype ServiceItem = ServiceItem(icon: string, title: string, description: string, color: string)

  datatype ServicesContent = ServicesContent(
    titlePrefix: Value, titleHighlight: Value, subtitle: Value, ctaText: Value, ctaHref: Value,
    items: seq<ServiceItem>)

  datatype PortfolioItem = PortfolioItem(
    id: int, title: string, category: string, description: string, tags: seq<string>,
    icon: string, gradient: string, isActive: Option<bool>, liveUrl: Option<string>,
    repoUrl: Option<string>)

  datatype PortfolioContent = PortfolioContent(
    titlePrefix: Value, titleHighlight: Value, subtitle: Value, categories: seq<string>,
    ctaText: Value, ctaHref: Value, items: seq<PortfolioItem>)

  datatype BlogPostContent = BlogPostContent(
    id: int, title: string, excerpt: string, author: string, date: string, readTime: string,
    category: string, slug: string, content: Option<string>, metaTitle: Option<string>,
    metaDescription: Option<string>)

  datatype BlogContent = BlogContent(
    titlePrefix: Value, titleHighlight: Value, subtitle: Value, categories: seq<string>,
    posts: seq<BlogPostContent>)

  datatype ResearchArea = ResearchArea(
    icon: string, title: string, description: string, publications: int, color: string)

  datatype IotFeature = IotFeature(icon: string, title: string, description: string)

  datatype IotContent = IotContent(
    titlePrefix: Value, titleHighlight: Value, subtitle: Value, implementationTitle: Value,
    implementationDescription: Value, applicationAreaTitle: Value,
    features: seq<IotFeature>, useCases: seq<string>)

  /** `kind` is the field the schema calls `type`. */
  datatype ResearchPublication = ResearchPublication(
    title: string, journal: string, year: string, authors: string, kind: string)

  datatype ResearchAchievement = ResearchAchievement(icon: string, title: string, description: string)

  datatype ResearchContent = ResearchContent(
    titlePrefix: Value, titleHighlight: Value, subtitle: Value, labTitle: Value,
    labDescription: Value, publicationSectionTitle: Value, areas: seq<ResearchArea>,
    publications: seq<ResearchPublication>, achievements: seq<ResearchAchievement>)

  datatype TestimonialItem = TestimonialItem(
    id: int, name: string, position: string, organization: string, content: string, rating: int)

  /** `caption` is the field the schema calls `label`. */
  datatype TestimonialStat = TestimonialStat(number: string, caption: string)

  datatype TestimonialsContent = TestimonialsContent(
    titlePrefix: Value, titleHighlight: Value, subtitle: Value,
    items: seq<TestimonialItem>, stats: seq<TestimonialStat>)

  /** `kind` is the field the schema calls `type` ('email', 'phone' or 'location'). */
  datatype ContactInfoItem = ContactInfoItem(kind: string, title: string, content: string, link: Option<string>)

  datatype ContactContent = ContactContent(
    titlePrefix: Value, titleHighlight: Value, subtitle: Value, infoTitle: Value,
    infoDescription: Value, responseTitle: Value, responseText: Value, items: seq<ContactInfoItem>)

  datatype FooterSocialLink = FooterSocialLink(platform: string, link: string)

  /** `text` is the field the schema calls `label`. */
  datatype FooterLegalLink = FooterLegalLink(text: string, href: string)

  datatype FooterContent = FooterContent(
    description: Value, quickLinks: seq<string>, services: seq<string>,
    socialLinks: seq<FooterSocialLink>, legalLinks: seq<FooterLegalLink>)

  datatype TrustedByContent = TrustedByContent(
    eyebrow: Value, titlePrefix: Value, titleHighlight: Value, subtitle: Value, badgeText: Value)

  datatype SiteContent = SiteContent(
    navbarLinks: seq<NavLink>,
    about: AboutContent,
    services: ServicesContent,
    iot: IotContent,
    portfolio: PortfolioContent,
    blog: BlogContent,
    research: ResearchContent,
    testimonials: TestimonialsContent,
    contact: ContactContent,
    footer: FooterContent,
    trustedBy: TrustedByContent)

  /** Every list field of the content is non-empty. */
  predicate AllListsNonEmpty(c: SiteContent)
  {
    && |c.navbarLinks| > 0
    && |c.about.highlights| > 0 && |c.about.values| > 0
    && |c.services.items| > 0
    && |c.iot.features| > 0 && |c.iot.useCases| > 0
    && |c.portfolio.categories| > 0 && |c.portfolio.items| > 0
    && |c.blog.categories| > 0 && |c.blog.posts| > 0
    && |c.research.areas| > 0 && |c.research.publications| > 0 && |c.research.achievements| > 0
    && |c.testimonials.items| > 0 && |c.testimonials.stats| > 0
    && |c.contact.items| > 0
    && |c.footer.quickLinks| > 0 && |c.footer.services| > 0
    && |c.footer.socialLinks| > 0 && |c.footer.legalLinks| > 0
  }

  /** No two entries of `s` are equal. */
  predicate Distinct<T(==)>(s: seq<T>)
  {
    forall i, j :: 0 <= i < j < |s| ==> s[i] != s[j]
  }

  const DefaultNavbarLinks: seq<NavLink> := [
    NavLink("Home", "/#home"),
    NavLink("About", "/#about"),
    NavLink("Services", "/#services"),
    NavLink("Portfolio", "/#portfolio"),
    NavLink("Careers", "/careers"),
    NavLink("Contact", "/#contact")
  ]

  const DefaultAbout: AboutContent := AboutContent(
    Str("About"),
    Str("Zenture IT"),
    Str("Pioneering digital transformation through innovative technology solutions"),
    Str("15+"),
    Str("Years of Excellence"),
    Str("Zenture IT Solutions is a leading software development company specializing in creating innovative digital solutions that drive business growth and transformation."),
    Str("With expertise spanning web development, mobile applications, IoT, and AI, we empower organizations to harness the full potential of technology."),
    ["Expert team of developers and engineers", "Agile development methodology", "End-to-end project management", "24/7 technical support and maintenance"],
    [
      AboutValue(
        "target",
        "Our Mission",
        "To deliver cutting-edge technology solutions that empower businesses to achieve their digital ambitions."),
      AboutValue(
        "lightbulb",
        "Innovation",
        "Constantly exploring new technologies and methodologies to stay ahead of the curve."),
      AboutValue(
        "rocket",
        "Excellence",
        "Committed to delivering the highest quality solutions that exceed client expectations.")
    ])

  const DefaultServices: ServicesContent := ServicesContent(
    Str("Our"),
    Str("Services"),
    Str("Comprehensive technology solutions to power your digital transformation"),
    Str("Start Your Project"),
    Str("#contact"),
    [
      ServiceItem(
        "globe",
        "Web Development",
        "Create stunning, responsive websites and web applications that drive engagement and deliver exceptional user experiences.",
        "from-cyan-500 to-blue-500"),
      ServiceItem(
        "code",
        "Software Development",
        "Custom software solutions tailored to your business needs, built with modern technologies and best practices.",
        "from-blue-500 to-purple-500"),
      ServiceItem(
        "smartphone",
        "Mobile App Development",
        "Native and cross-platform mobile applications for iOS and Android that provide seamless user experiences.",
        "from-purple-500 to-pink-500"),
      ServiceItem(
        "cpu",
        "IoT Development",
        "Connect physical devices to the digital world with innovative IoT solutions that transform how businesses operate.",
        "from-pink-500 to-red-500"),
      ServiceItem(
        "brain",
        "AI Solutions",
        "Harness the power of artificial intelligence and machine learning to automate processes and gain valuable insights.",
        "from-red-500 to-orange-500"),
      ServiceItem(
        "lightbulb",
        "IT Consultation",
        "Expert technology consulting to help you make informed decisions and develop strategic technology roadmaps.",
        "from-orange-500 to-yellow-500")
    ])

  const DefaultIot: IotContent := IotContent(
    Str("Full Spectrum"),
    Str("Technology Solutions"),
    Str("Connecting the physical and digital worlds through innovative Internet of Things solutions"),
    Str("Enterprise Field Implementation"),
    Str("We design, build, and deploy resilient digital systems that perform reliably in enterprise, industrial, and government-grade environments."),
    Str("IoT Application Areas"),
    [
      IotFeature("cpu", "Edge Computing", "Process data closer to the source for faster insights"),
      IotFeature("wifi", "Connectivity", "Multi-protocol support for seamless device integration"),
      IotFeature("database", "Data Analytics", "Real-time data processing and visualization"),
      IotFeature("shield", "Security", "Enterprise-grade encryption and security protocols"),
      IotFeature(
        "cloud",
        "Cloud Integration",
        "Seamless cloud connectivity and data synchronization"),
      IotFeature("zap", "Automation", "Intelligent automation and remote monitoring")
    ],
    ["Smart Agriculture", "Industrial Automation", "Smart Cities", "Healthcare Monitoring", "Environmental Sensing", "Asset Tracking", "Energy Management", "Supply Chain"])

  const DefaultPortfolio: PortfolioContent := PortfolioContent(
    Str("Our"),
    Str("Portfolio"),
    Str("Explore our successful projects that have transformed businesses and delivered exceptional results"),
    ["All", "Web Application", "Mobile Application", "IoT Solution", "AI/ML Solution", "Enterprise Software"],
    Str("Start Your Project"),
    Str("#contact"),
    [
      PortfolioItem(
        1,
        "Army Communication System",
        "Enterprise Software",
        "Secure real-time communication platform for military operations with end-to-end encryption.",
        ["React", "Node.js", "WebRTC", "Security"],
        "code2",
        "from-cyan-500 to-blue-600",
        Some(true),
        Some("#"),
        Some("#")),
      PortfolioItem(
        2,
        "Forest Management Portal",
        "Web Application",
        "Comprehensive wildlife tracking and forest resource management system with GIS integration.",
        ["Angular", "Python", "MongoDB", "GIS"],
        "globe",
        "from-green-500 to-emerald-600",
        Some(true),
        Some("#"),
        Some("#")),
      PortfolioItem(
        3,
        "Records Verification App",
        "Mobile Application",
        "Digital platform for Guinness World Records verification and management processes.",
        ["Flutter", "Firebase", "AI/ML"],
        "smartphone",
        "from-purple-500 to-pink-600",
        Some(true),
        Some("#"),
        Some("#"))
    ])

  const DefaultBlog: BlogContent := BlogContent(
    Str("Latest"),
    Str("Insights"),
    Str("Stay updated with the latest trends, insights, and best practices in technology"),
    ["All", "AI & ML", "IoT", "Mobile Development", "Cloud Computing", "Security", "Development"],
    [
      BlogPostContent(
        1,
        "AI in Software Development: Practical Use Cases That Improve Delivery Speed",
        "A practical guide to using AI in software development workflows for faster releases, better quality, and lower engineering cost.",
        "Zenture Team",
        "2026-02-20",
        "8 min read",
        "AI & ML",
        "ai-in-software-development-practical-use-cases",
        Some("Artificial intelligence is now a practical engineering accelerator, not a future concept. Teams use AI-assisted coding for faster scaffolding, test generation for better QA coverage, and log anomaly detection to reduce production incidents. The highest ROI often comes from combining AI with disciplined engineering practices: clear architecture boundaries, quality gates, and measurable delivery metrics. At Zenture, we recommend starting with two implementation tracks. First, developer productivity: pair-programming assistants, AI code review checklists, and documentation generation. Second, operational intelligence: release risk scoring, error pattern clustering, and support-ticket classification. Organizations that adopt this phased approach typically reduce lead time and improve sprint predictability without compromising code quality."),
        Some("AI in Software Development: Use Cases, Tools, and ROI | Zenture"),
        Some("Learn how AI and ML improve software delivery with test automation, code review intelligence, and predictive planning.")),
      BlogPostContent(
        2,
        "Building Scalable IoT Platforms: Architecture Patterns for Reliability",
        "Design principles for IoT systems that support growth, secure device onboarding, and real-time analytics at scale.",
        "Zenture IoT Team",
        "2026-02-18",
        "9 min read",
        "IoT",
        "building-scalable-iot-platforms-architecture-patterns",
        Some("Scalable IoT architecture starts with clear separation between device communication, event processing, and application services. Use secure provisioning for every device identity, message brokers for decoupled ingestion, and stream processing for near-real-time decisions. For enterprise systems, edge computing reduces latency and cloud egress cost, while central observability ensures fleet-level visibility. Reliability depends on retry policies, dead-letter handling, and schema versioning for payloads. Security should be treated as a product capability, not an add-on: certificate rotation, least-privilege access, and signed firmware updates are baseline requirements. Teams that build these foundations early can scale from pilot to production faster and with fewer operational risks."),
        Some("Scalable IoT Architecture Patterns for Enterprise Systems | Zenture"),
        Some("Discover how to architect secure and scalable IoT platforms with edge processing, event pipelines, and resilient cloud services.")),
      BlogPostContent(
        3,
        "Mobile App Development in 2026: Performance, Security, and UX Priorities",
        "Key strategies for shipping fast, secure, and user-centric mobile apps across Android and iOS.",
        "Zenture Mobile Team",
        "2026-02-15",
        "7 min read",
        "Mobile Development",
        "mobile-app-development-2026-performance-security-ux",
        Some("Modern mobile development balances speed to market with long-term product quality. High-performing apps prioritize startup optimization, network efficiency, and responsive UI states. Security remains non-negotiable: secure token storage, certificate pinning where needed, and strict API authorization controls. On the user experience side, retention improves when teams invest in reliability, not just features. Offline handling, graceful error states, and fast support loops directly impact app ratings and engagement. Product teams should also align analytics with business outcomes by tracking activation, retention, and conversion events from day one. This enables data-informed roadmap decisions and sustainable growth."),
        Some("Mobile App Development 2026: Performance, Security, UX | Zenture"),
        Some("Learn modern mobile development practices for high performance, secure architecture, and better app retention.")),
      BlogPostContent(
        4,
        "Cloud Computing Best Practices for Cost Optimization and Resilience",
        "How to structure cloud architecture for high availability while controlling infrastructure spend.",
        "Zenture Cloud Team",
        "2026-02-12",
        "8 min read",
        "Cloud Computing",
        "cloud-computing-best-practices-cost-optimization-resilience",
        Some("Cloud architecture maturity comes from balancing resilience and cost efficiency. Start with workload profiling and right-size compute resources based on real usage patterns. Introduce autoscaling policies only where demand variability justifies it. For resilience, design with failure domains in mind: multi-zone deployment, health checks, and rollback-ready CI/CD pipelines. Observability should include service-level metrics, distributed tracing, and actionable alerting thresholds. Cost optimization is not only about reducing bills; it is about improving engineering decisions. Teams with clear ownership and visibility can forecast spending, prevent waste, and sustain platform reliability during growth."),
        Some("Cloud Best Practices: Cost Optimization and Resilience | Zenture"),
        Some("A practical cloud strategy for scalable systems: right-sized compute, observability, and resilient deployment pipelines.")),
      BlogPostContent(
        5,
        "Web Application Security Checklist for Modern Engineering Teams",
        "A practical security checklist covering authentication, API hardening, and deployment safeguards.",
        "Zenture Security Team",
        "2026-02-09",
        "10 min read",
        "Security",
        "web-application-security-checklist-modern-engineering-teams",
        Some("Application security is most effective when integrated into delivery workflows. Start with robust identity controls: strong session management, MFA for privileged users, and token lifecycle policies. API hardening should include schema validation, rate limiting, and explicit authorization checks at every sensitive boundary. Shift-left security practices such as dependency scanning, static analysis, and secret detection reduce exposure early in development. In production, WAF rules, centralized logging, and incident runbooks improve response readiness. Security must be iterative; periodic threat modeling and controlled penetration testing help teams adapt to changing attack patterns."),
        Some("Web App Security Checklist: Authentication, API, DevSecOps | Zenture"),
        Some("Strengthen your web application security with practical controls across authentication, API hardening, and secure delivery pipelines.")),
      BlogPostContent(
        6,
        "Modern Software Development Lifecycle: Faster Delivery Without Quality Tradeoffs",
        "How high-performing teams combine agile planning, engineering standards, and automation for reliable releases.",
        "Zenture Engineering",
        "2026-02-06",
        "9 min read",
        "Development",
        "modern-software-development-lifecycle-faster-delivery",
        Some("A modern SDLC is defined by tight feedback loops, strong quality gates, and predictable release motion. Agile planning works best when paired with clear definition of done, enforceable coding standards, and automated testing at multiple levels. Continuous integration pipelines should validate linting, unit tests, and security checks before merge approval. Continuous delivery improves when environments are reproducible and deployment steps are version-controlled. Engineering leaders should measure throughput and quality together, tracking cycle time, change failure rate, and mean time to restore service. This balance enables teams to move fast while maintaining product stability and stakeholder trust."),
        Some("Modern SDLC: Faster Delivery With High Quality | Zenture"),
        Some("Build a modern software development lifecycle with automation, quality gates, and release confidence at scale."))
    ])

  const DefaultResearch: ResearchContent := ResearchContent(
    Str("Research &"),
    Str("Innovation"),
    Str("Pushing the boundaries of technology through cutting-edge research and development"),
    Str("State-of-the-Art Research Facilities"),
    Str("Our advanced research lab equipped with cutting-edge technology for IoT, AI, and embedded systems development"),
    Str("Recent Publications"),
    [
      ResearchArea(
        "beaker",
        "AI & Machine Learning",
        "Exploring advanced neural networks, natural language processing, and computer vision applications.",
        8,
        "from-cyan-500 to-blue-500"),
      ResearchArea(
        "trendingUp",
        "IoT & Edge Computing",
        "Research on low-power IoT devices, edge AI, and distributed computing architectures.",
        6,
        "from-blue-500 to-purple-500"),
      ResearchArea(
        "users",
        "Human-Computer Interaction",
        "Studying user experience patterns, accessibility, and intuitive interface design.",
        5,
        "from-purple-500 to-pink-500")
    ],
    [
      ResearchPublication(
        "Optimizing Edge AI for Low-Power IoT Devices",
        "IEEE Transactions on IoT",
        "2025",
        "Zenture Research Team",
        "Conference Paper"),
      ResearchPublication(
        "Neural Network Architectures for Real-Time Object Detection",
        "International Journal of Computer Vision",
        "2025",
        "AI Research Division",
        "Journal Article")
    ],
    [
      ResearchAchievement("award", "Best Paper Award", "IEEE International Conference on IoT 2025"),
      ResearchAchievement("bookOpen", "25+ Publications", "In leading journals and conferences"),
      ResearchAchievement("users", "Industry Collaborations", "Partnerships with top universities")
    ])

  const DefaultTestimonials: TestimonialsContent := TestimonialsContent(
    Str("Client"),
    Str("Testimonials"),
    Str("Don't just take our word for it - hear what our clients have to say about working with us"),
    [
      TestimonialItem(
        1,
        "Col. Rajesh Kumar",
        "Project Director",
        "Indian Army",
        "Zenture IT Solutions delivered a robust and secure communication system that exceeded our expectations.",
        5),
      TestimonialItem(
        2,
        "Dr. Priya Sharma",
        "Chief Technology Officer",
        "Indian Forest Department",
        "The wildlife tracking system has revolutionized our forest management. The team's expertise is outstanding.",
        5),
      TestimonialItem(
        3,
        "Michael Chen",
        "Digital Operations Manager",
        "Guinness World Records",
        "Working with Zenture was a pleasure. They streamlined our verification process.",
        5)
    ],
    [
      TestimonialStat("200+", "Happy Clients"),
      TestimonialStat("98%", "Satisfaction Rate"),
      TestimonialStat("150+", "Projects Delivered"),
      TestimonialStat("24/7", "Support Available")
    ])

  const DefaultContact: ContactContent := ContactContent(
    Str("Get in"),
    Str("Touch"),
    Str("Ready to start your next project? Let's discuss how we can help you achieve your goals"),
    Str("Contact Information"),
    Str("We're here to answer your questions and discuss your project requirements."),
    Str("Quick Response Time"),
    Str("We typically respond to inquiries within 24 hours"),
    [
      ContactInfoItem("email", "Email", "info@zenture.in", Some("mailto:info@zenture.in")),
      ContactInfoItem("phone", "Phone", "+91 7715861605", Some("tel:+917715861605")),
      ContactInfoItem("location", "Location", "NIBM, Pune - MH, India", None)
    ])

  const DefaultFooter: FooterContent := FooterContent(
    Str("Transforming ideas into innovative digital solutions. We specialize in web development, mobile apps, IoT, and AI-powered applications."),
    ["Home", "About", "Services", "Tech Stack", "Portfolio", "Clients", "Research", "Blog", "Careers", "Contact"],
    ["Web Development", "Software Development", "Mobile Apps", "IoT Solutions", "AI Solutions", "IT Consultation"],
    [
      FooterSocialLink("github", "#"),
      FooterSocialLink("linkedin", "#"),
      FooterSocialLink("twitter", "#"),
      FooterSocialLink("mail", "#")
    ],
    [
      FooterLegalLink("Privacy Policy", "#"),
      FooterLegalLink("Terms of Service", "#"),
      FooterLegalLink("Cookie Policy", "#")
    ])

  const DefaultTrustedBy: TrustedByContent := TrustedByContent(
    Str("Our Clientele"),
    Str("Trusted by"),
    Str("Industry Leaders"),
    Str("Partnerships built on delivery, reliability, and measurable impact across defense, education, logistics, and industrial sectors."),
    Str("Active collaborations across 5+ industry verticals"))

  const DefaultSiteContent: SiteContent := SiteContent(
    DefaultNavbarLinks, DefaultAbout, DefaultServices, DefaultIot, DefaultPortfolio,
    DefaultBlog, DefaultResearch, DefaultTestimonials, DefaultContact, DefaultFooter,
    DefaultTrustedBy)

  /** Every list field of the default table is non-empty. */
  lemma DefaultListsNonEmpty()
    ensures AllListsNonEmpty(DefaultSiteContent)
  {
  }

  /** Six navigation links; all but 'Careers' ('/careers') are '/#' section anchors. */
  lemma DefaultNavbarLinksShape()
    ensures |DefaultSiteContent.navbarLinks| == 6
    ensures DefaultSiteContent.navbarLinks[4] == NavLink("Careers", "/careers")
    ensures forall i :: 0 <= i < 6 && i != 4 ==> DefaultSiteContent.navbarLinks[i].href[..2] == "/#"
    ensures DefaultSiteContent.navbarLinks[4].href[..2] != "/#"
  {
    assert DefaultSiteContent.navbarLinks[4].href[1] == 'c';
  }

  function PortfolioIds(items: seq<PortfolioItem>): seq<int>
  {
    seq(|items|, i requires 0 <= i < |items| => items[i].id)
  }

  function BlogPostIds(posts: seq<BlogPostContent>): seq<int>
  {
    seq(|posts|, i requires 0 <= i < |posts| => posts[i].id)
  }

  function BlogPostSlugs(posts: seq<BlogPostContent>): seq<string>
  {
    seq(|posts|, i requires 0 <= i < |posts| => posts[i].slug)
  }

  function TestimonialIds(items: seq<TestimonialItem>): seq<int>
  {
    seq(|items|, i requires 0 <= i < |items| => items[i].id)
  }

  /** Portfolio item ids are pairwise distinct. */
  lemma DefaultPortfolioIdsDistinct()
    ensures PortfolioIds(DefaultSiteContent.portfolio.items) == [1, 2, 3]
    ensures Distinct(PortfolioIds(DefaultSiteContent.portfolio.items))
  {
  }

  /** Blog post ids are pairwise distinct. */
  lemma DefaultBlogIdsDistinct()
    ensures BlogPostIds(DefaultSiteContent.blog.posts) == [1, 2, 3, 4, 5, 6]
    ensures Distinct(BlogPostIds(DefaultSiteContent.blog.posts))
  {
    var ids := BlogPostIds(DefaultBlog.posts);
    forall i | 0 <= i < 6 ensures ids[i] == i + 1 {
      if i == 0 {} else if i == 1 {} else if i == 2 {} else if i == 3 {} else if i == 4 {} else {}
    }
    assert ids == [1, 2, 3, 4, 5, 6];
  }

  /** Testimonial ids are pairwise distinct. */
  lemma DefaultTestimonialIdsDistinct()
    ensures TestimonialIds(DefaultSiteContent.testimonials.items) == [1, 2, 3]
    ensures Distinct(TestimonialIds(DefaultSiteContent.testimonials.items))
  {
  }

  /** The default blog post slugs, in order. */
  const DefaultSlugList: seq<string> := [
    "ai-in-software-development-practical-use-cases",
    "building-scalable-iot-platforms-architecture-patterns",
    "mobile-app-development-2026-performance-security-ux",
    "cloud-computing-best-practices-cost-optimization-resilience",
    "web-application-security-checklist-modern-engineering-teams",
    "modern-software-development-lifecycle-faster-delivery"]

  lemma DefaultBlogSlugs()
    ensures BlogPostSlugs(DefaultSiteContent.blog.posts) == DefaultSlugList
  {
    var slugs := BlogPostSlugs(DefaultBlog.posts);
    forall i | 0 <= i < 6 ensures slugs[i] == DefaultSlugList[i] {
      if i == 0 {} else if i == 1 {} else if i == 2 {} else if i == 3 {} else if i == 4 {} else {}
    }
  }

  lemma SlugListDistinct()
    ensures Distinct(DefaultSlugList)
  {
    var e := DefaultSlugList;
    forall i, j | 0 <= i < j < 6 ensures e[i] != e[j] {
      if i == 0 {
        if j == 1 {} else if j == 2 {} else if j == 3 {} else if j == 4 {} else {}
      } else if i == 1 {
        if j == 2 {} else if j == 3 {} else if j == 4 {} else {}
      } else if i == 2 {
        if j == 3 {} else if j == 4 {} else {}
      } else if i == 3 {
        if j == 4 {} else {}
      }
    }
  }

  /** Blog post slugs are pairwise distinct. */
  lemma DefaultSlugsDistinct()
    ensures |BlogPostSlugs(DefaultSiteContent.blog.posts)| == 6
    ensures Distinct(BlogPostSlugs(DefaultSiteContent.blog.posts))
  {
    DefaultBlogSlugs();
    SlugListDistinct();
  }

  /** The about values use the target, lightbulb and rocket icons, in that order. */
  lemma DefaultAboutIcons()
    ensures |DefaultSiteContent.about.values| == 3
    ensures DefaultSiteContent.about.values[0].icon == "target"
    ensures DefaultSiteContent.about.values[1].icon == "lightbulb"
    ensures DefaultSiteContent.about.values[2].icon == "rocket"
  {
  }

  /** The IoT features use the cpu, wifi, database, shield, cloud and zap icons, in that order. */
  lemma DefaultIotIcons()
    ensures |DefaultSiteContent.iot.features| == 6
    ensures DefaultSiteContent.iot.features[0].icon == "cpu"
    ensures DefaultSiteContent.iot.features[1].icon == "wifi"
    ensures DefaultSiteContent.iot.features[2].icon == "database"
    ensures DefaultSiteContent.iot.features[3].icon == "shield"
    ensures DefaultSiteContent.iot.features[4].icon == "cloud"
    ensures DefaultSiteContent.iot.features[5].icon == "zap"
  {
  }

  /** The email and phone contact items carry a link; the location item has none. */
  lemma DefaultContactLinks()
    ensures |DefaultSiteContent.contact.items| == 3
    ensures DefaultSiteContent.contact.items[0].kind == "email" && DefaultSiteContent.contact.items[0].link.Some?
    ensures DefaultSiteContent.contact.items[1].kind == "phone" && DefaultSiteContent.contact.items[1].link.Some?
    ensures DefaultSiteContent.contact.items[2].kind == "location" && DefaultSiteContent.contact.items[2].link.None?
  {
  }
}
