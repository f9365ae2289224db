/**
 * projectData.ts: the seed collection of projects, and the load and save helpers
 * every project view goes through (`getAllProjects`, `saveProjects`) over the
 * `portfolio_projects` key.
 */
module ProjectData {
  import opened Wrappers
  import opened Records
  import opened Collections
  import opened Storage

  /** `DEFAULT_PROJECTS`, written when the key holds no usable collection. */
  const DEFAULT_PROJECTS: seq<Project> := [
    Project(
      id := "1",
      title := "AI YouTube Thumbnail Generator",
      description := "An AI-powered SaaS platform allowing content creators to generate high-CTR thumbnails using text prompts.",
      longDescription := Some("AI YouTube Thumbnail Generator is a cutting-edge SaaS application designed to revolutionize how content creators design their YouTube thumbnails. By leveraging the power of Google's Gemini API and advanced image generation models, users can simply describe their video concept in text, and the system generates high-quality, click-optimized thumbnails in seconds. The platform includes a drag-and-drop editor for final touches, user authentication, and a credit-based payment system."),
      tags := ["Next.js", "React", "Gemini API", "Tailwind CSS", "Stripe", "PostgreSQL"],
      imageUrl := "https://picsum.photos/id/20/1200/800",
      demoUrl := Some("https://ai.studio/apps/drive/1-TUt9noZtxaxsDkKrB5dOGhyGqLZDP6P?fullscreenApplet=true"),
      repoUrl := Some("https://github.com/Muler8905/-Muler8905-AI-You-tube-Thaminal-Generator"),
      features := Some(["Text-to-Image Generation using Gemini Vision capabilities", "Real-time credit system integrated with Stripe", "Drag-and-drop canvas editor for text overlays", "Cloud storage for user asset management", "Responsive dashboard for analytics and history"]),
      challenges := Some("Integrating the payment gateway securely while managing asynchronous AI generation tasks was a complex challenge. We implemented a webhook-based architecture to ensure credits are only deducted upon successful image generation.")),
    Project(
      id := "2",
      title := "FinTech Dashboard",
      description := "Real-time cryptocurrency trading interface with sub-millisecond updates, interactive charts, and portfolio management.",
      longDescription := Some("This comprehensive FinTech Dashboard provides traders with a professional-grade interface for monitoring cryptocurrency markets. Built with performance in mind, it utilizes WebSockets for live price feeds and D3.js for rendering complex, high-frequency financial charts without rendering lag. The application supports multiple wallets, transaction history tracking, and predictive market analysis indicators."),
      tags := ["TypeScript", "React", "WebSocket", "D3.js", "Node.js", "Redis"],
      imageUrl := "https://picsum.photos/id/3/1200/800",
      demoUrl := Some("#"),
      repoUrl := Some("https://github.com/Muler8905"),
      features := Some(["Live WebSocket data streaming for 50+ pairs", "Interactive candlestick charts with technical indicators", "Portfolio performance tracking and aggregation", "Dark/Light mode optimized for prolonged usage", "Secure JWT authentication with session management"]),
      challenges := None),
    Project(
      id := "3",
      title := "HealthTrack Pro",
      description := "HIPAA-compliant patient management system for private clinics. Features appointment scheduling and telemedicine.",
      longDescription := Some("HealthTrack Pro is a robust Electronic Health Record (EHR) system tailored for small to medium-sized private clinics. It digitizes the entire patient lifecycle, from appointment booking to diagnosis and prescription. Security was the primary focus, employing end-to-end encryption for patient data and strictly adhering to HIPAA compliance standards. It also features a built-in video consultation module using WebRTC."),
      tags := ["React Native", "PostgreSQL", "AWS", "Docker", "WebRTC", "Node.js"],
      imageUrl := "https://picsum.photos/id/4/1200/800",
      demoUrl := Some("#"),
      repoUrl := Some("https://github.com/Muler8905"),
      features := Some(["Secure patient record management (EMR)", "Real-time appointment scheduling with calendar sync", "Integrated HD video consultation (Telemedicine)", "Automated prescription PDF generation", "Role-based access control (RBAC) for doctors and staff"]),
      challenges := None),
    Project(
      id := "4",
      title := "Fitness Hub AI",
      description := "Personalized workout and diet plan generator using AI to tailor schedules to user biometrics.",
      longDescription := Some("Fitness Hub uses generative AI to create highly personalized fitness regimes. Unlike static apps, it adapts to the user's progress, available equipment, and dietary restrictions. The backend processes user feedback to refine future recommendations, acting as a virtual personal trainer."),
      tags := ["React", "OpenAI API", "Tailwind", "MongoDB"],
      imageUrl := "https://picsum.photos/id/96/1200/800",
      demoUrl := Some("#"),
      repoUrl := Some("https://github.com/Muler8905"),
      features := Some(["AI-generated weekly workout schedules", "Calorie and macro calculator based on biometrics", "Progress tracking with visual charts", "Social sharing features for accountability"]),
      challenges := None)
  ]

  /** The seed holds four projects whose ids are "1" to "4", all different. */
  lemma DefaultProjectsIds()
    ensures |DEFAULT_PROJECTS| == 4
    ensures DEFAULT_PROJECTS[0].id == "1" && DEFAULT_PROJECTS[1].id == "2"
    ensures DEFAULT_PROJECTS[2].id == "3" && DEFAULT_PROJECTS[3].id == "4"
    ensures DistinctIds(DEFAULT_PROJECTS, ProjectId)
  {
  }

  /**
   * What `getAllProjects` returns for a stored value, and what it writes back,
   * `seed` being the collection it falls back to. An array, the empty array
   * included, is returned as it is and nothing is written; a missing key or a
   * non-array value is replaced by the seed, which is returned and written; a
   * value that does not parse returns the seed and is left in place. The
   * function never throws.
   */
  function ProjectsLoadWith(seed: seq<Project>, s: Stored<Project>): (l: Load<Project>)
    ensures l.Load?
    ensures s.Text? && s.parsed.Arr? ==> l.items == s.parsed.items && l.write == None
    ensures s.Missing? || (s.Text? && (s.parsed.NonArray? || s.parsed.JsonString?)) ==> l.items == seed && l.write == Some(seed)
    ensures s == Text(ParseError) ==> l.items == seed && l.write == None
  {
    match s
    case Missing => Load(seed, Some(seed))
    case Text(Arr(xs)) => Load(xs, None)
    case Text(NonArray) => Load(seed, Some(seed))
    case Text(JsonString(_)) => Load(seed, Some(seed))
    case Text(ParseError) => Load(seed, None)
  }

  /** The load `getAllProjects` performs: the one that falls back to `DEFAULT_PROJECTS`. */
  function ProjectsLoad(s: Stored<Project>): Load<Project> {
    ProjectsLoadWith(DEFAULT_PROJECTS, s)
  }

  /**
   * Loading is idempotent: once a load has written what it writes, loading again
   * returns the same projects and writes nothing.
   */
  lemma ProjectsLoadIdempotent(seed: seq<Project>, s: Stored<Project>)
    ensures var l := ProjectsLoadWith(seed, s);
      ProjectsLoadWith(seed, AfterLoad(s, l)) == Load(l.items, None)
  {
  }

  /** A collection written by `saveProjects` is what the next load returns, with no write. */
  lemma SaveThenLoad(seed: seq<Project>, xs: seq<Project>)
    ensures ProjectsLoadWith(seed, Written(xs)) == Load(xs, None)
  {
  }

  /**
   * `getAllProjects()`. It returns what `ProjectsLoad` says; the key either keeps
   * its value or holds what the load writes back. When that write is refused the
   * error is caught and the seed is returned all the same.
   */
  method GetAllProjects(ls: LocalStorage) returns (xs: seq<Project>)
    modifies ls`projects
    ensures xs == ProjectsLoad(old(ls.projects)).items
    ensures ls.projects == old(ls.projects) || ls.projects == AfterLoad(old(ls.projects), ProjectsLoad(old(ls.projects)))
  {
    match ls.projects
    case Text(Arr(items)) =>
      xs := items;
    case Text(ParseError) =>
      xs := DEFAULT_PROJECTS;
    case _ =>
      var _ := ls.SetProjects(DEFAULT_PROJECTS);
      xs := DEFAULT_PROJECTS;
  }

  /**
   * `saveProjects(xs)`. A refused write is caught and reported to the user (the
   * alert), never propagated: `saved` tells which of the two happened.
   */
  method SaveProjects(ls: LocalStorage, xs: seq<Project>) returns (saved: bool)
    modifies ls`projects
    ensures saved ==> ls.projects == Written(xs)
    ensures !saved ==> ls.projects == old(ls.projects)
  {
    saved := ls.SetProjects(xs);
  }

  /** Two consecutive `getAllProjects()` calls, with no other write between them, return equal collections. */
  method LoadTwice(ls: LocalStorage) returns (first: seq<Project>, second: seq<Project>)
    modifies ls`projects
    ensures first == second
  {
    first := GetAllProjects(ls);
    ProjectsLoadIdempotent(DEFAULT_PROJECTS, old(ls.projects));
    second := GetAllProjects(ls);
  }

  /** `saveProjects(xs)` and then `getAllProjects()` return `xs` when the write succeeded. */
  method SaveThenGet(ls: LocalStorage, xs: seq<Project>) returns (saved: bool, ys: seq<Project>)
    modifies ls`projects
    ensures saved ==> ys == xs
  {
    saved := SaveProjects(ls, xs);
    ys := GetAllProjects(ls);
  }
}
