/**
 * components/BlogPreview.tsx: the three newest posts on the home page, read from
 * the same `blogPosts` key the blog page writes, with its own copy of the seed
 * and its own, different, validity check.
 */
module BlogPreview {
  import opened Wrappers
  import opened Records
  import opened Collections
  import opened Storage
  import opened BlogPage

  /** `defaultPosts`, the preview's own copy of the seed. */
  const PREVIEW_DEFAULT_POSTS: seq<BlogPost> := [
    BlogPost(
      id := "1",
      title := "The Future of Full Stack in 2025",
      excerpt := "Exploring how AI and Serverless architectures are redefining the role of a Full Stack Developer.",
      content := "The landscape of full-stack development is rapidly evolving. By 2025, the definition of a \"Full Stack Developer\" will likely shift from someone who builds the entire stack to someone who orchestrates it.\n\nServerless architecture and Edge Computing are moving from niche to norm. Tools like Vercel and Cloudflare Workers allow us to run compute at the edge, reducing latency and removing the need for traditional server management. Database management is following suit with serverless SQL databases like Neon and PlanetScale.\n\nFurthermore, AI-driven coding assistants are becoming integral. They handle boilerplate code, unit tests, and even complex refactoring. This doesn't replace the developer but elevates them to an architect role, focusing on system design, security, and business logic rather than syntax. The future belongs to those who can integrate these disparate services into a cohesive, performant product.",
      author := "Muluken Ugamo",
      date := "Oct 12, 2024",
      category := "Tech Trends",
      imageUrl := "https://images.unsplash.com/photo-1555066931-4365d14bab8c?q=80&w=800&auto=format&fit=crop",
      readTime := "5 min read"),
    BlogPost(
      id := "2",
      title := "Mastering Tailwind CSS for Scalable UI",
      excerpt := "Why utility-first CSS is winning and how to organize your components for long-term maintenance.",
      content := "Tailwind CSS has polarized the community, but its value proposition for scalability is undeniable. The utility-first approach solves one of the hardest problems in CSS: maintainability.\n\nIn large-scale applications, the traditional \"semantic class\" approach often leads to append-only stylesheets. Developers are afraid to delete classes because they don't know what might break. Tailwind removes this fear. Styles are local to the markup.\n\nTo master Tailwind for scale, you must embrace componentization. Don't use @apply prematurely. Instead, build small, reusable React components (Buttons, Cards, Inputs) that encapsulate the utility classes. Use tools like clsx and tailwind-merge to allow for clean overrides. This \"Component-First\" architecture, combined with a strict tailwind.config.js design system, is the secret to keeping your UI consistent as your team grows.",
      author := "Muluken Ugamo",
      date := "Sep 28, 2024",
      category := "Frontend",
      imageUrl := "https://images.unsplash.com/photo-1587620962725-abab7fe55159?q=80&w=800&auto=format&fit=crop",
      readTime := "8 min read"),
    BlogPost(
      id := "3",
      title := "Building AI Agents with Gemini API",
      excerpt := "A step-by-step guide to integrating Google Gemini into your React applications for smarter UX.",
      content := "Integrating AI into web applications is no longer just a cool feature; it's a user expectation. Google's Gemini API provides a powerful, multimodal entry point for developers.\n\nIn this guide, we look at building a \"Smart Document Assistant\". The architecture is straightforward: React on the frontend, a Node.js proxy for security, and the Google GenAI SDK.\n\nKey to success is \"System Instructions\". By giving the model a persona and strict rules before the user even types a query, you control the output quality. For example, telling Gemini \"You are a helpful coding tutor who only answers in JSON\" drastically changes the utility of the response. We also explore \"Streaming\", which is crucial for UX. Instead of waiting 5 seconds for a full answer, streaming allows the user to see text appear in real-time, making the application feel instantaneous.",
      author := "Muluken Ugamo",
      date := "Aug 15, 2024",
      category := "AI Engineering",
      imageUrl := "https://images.unsplash.com/photo-1677442136019-21780ecad995?q=80&w=800&auto=format&fit=crop",
      readTime := "10 min read")
  ]

  /** The preview's seed is the blog page's seed, post for post. */
  lemma PreviewSeedIsBlogSeed()
    ensures PREVIEW_DEFAULT_POSTS == DEFAULT_POSTS
  {
  }

  const PREVIEW_SIZE := 3

  /**
   * The load effect, `seed` being the list it falls back to. A missing key shows
   * the seed and writes it. Stored text is parsed without a guard: text that does
   * not parse throws, and so does an object, number, boolean or `null`, which has
   * no `slice`. A non-empty array whose first post has no content is replaced by
   * the seed, which is written, and so is a non-empty string (its first character
   * has no `content`); any other array is shown cut to its first three posts, and
   * nothing is written. The empty string passes the check and is shown as the
   * list, which the render's `map` cannot take: it throws too.
   */
  function PreviewLoadWith(seed: seq<BlogPost>, s: Stored<BlogPost>): (l: Load<BlogPost>)
    ensures l.Threw? <==> s == Text(ParseError) || s == Text(NonArray) || s == Text(JsonString(""))
    ensures l.Load? && l.write.Some? ==> l.write.value == seed && l.items == seed
    ensures l.Load? && l.write.Some? <==>
              s.Missing? || (s.Text? && s.parsed.JsonString? && s.parsed.value != "") ||
              (s.Text? && s.parsed.Arr? && s.parsed.items != [] && !Truthy(s.parsed.items[0].content))
    ensures l.Load? && l.write.None? ==> s.Text? && s.parsed.Arr? && l.items == Take(s.parsed.items, PREVIEW_SIZE)
  {
    match s
    case Missing => Load(seed, Some(seed))
    case Text(Arr(xs)) =>
      if |xs| > 0 && !Truthy(xs[0].content) then Load(seed, Some(seed))
      else Load(Take(xs, PREVIEW_SIZE), None)
    case Text(JsonString(v)) => if |v| > 0 then Load(seed, Some(seed)) else Threw
    case Text(_) => Threw
  }

  /** The preview's load, which falls back to `PREVIEW_DEFAULT_POSTS`. */
  function PreviewLoad(s: Stored<BlogPost>): Load<BlogPost> {
    PreviewLoadWith(PREVIEW_DEFAULT_POSTS, s)
  }

  /**
   * When the load does not throw, the preview shows at most three posts (the seed
   * having at most three), and without a reseed they are the first ones stored.
   */
  lemma PreviewIsPrefix(seed: seq<BlogPost>, s: Stored<BlogPost>)
    requires |seed| <= PREVIEW_SIZE
    requires PreviewLoadWith(seed, s).Load?
    ensures |PreviewLoadWith(seed, s).items| <= PREVIEW_SIZE
    ensures PreviewLoadWith(seed, s).write.None? ==> PreviewLoadWith(seed, s).items <= s.parsed.items
  {
  }

  /**
   * Loading the preview again after its own write shows the same posts and
   * writes nothing, for a seed of at most three posts that passes the preview's
   * check (as the site's seed does, by `DefaultPostsIds` and `DefaultPostsFilled`).
   */
  lemma PreviewLoadIdempotent(seed: seq<BlogPost>, s: Stored<BlogPost>)
    requires |seed| <= PREVIEW_SIZE && (seed == [] || Truthy(seed[0].content))
    requires PreviewLoadWith(seed, s).Load?
    ensures var l := PreviewLoadWith(seed, s);
      PreviewLoadWith(seed, AfterLoad(s, l)) == Load(l.items, None)
  {
    var l := PreviewLoadWith(seed, s);
    if l.write.Some? {
      assert Take(seed, PREVIEW_SIZE) == seed;
    } else {
      assert Take(l.items, PREVIEW_SIZE) == l.items;
    }
  }

  /**
   * The two loaders disagree. A stored list whose first post has a title but no
   * content (one written by an earlier version of the site, say) passes the blog
   * page's check and is shown as it is; but the next preview load replaces the
   * whole list by the seed, so once that write is done the blog page shows the
   * seed and that post is gone. This holds for any seed whose first post has a
   * title and whose posts all have content.
   */
  lemma EmptyContentPostIsOverwritten(seed: seq<BlogPost>, xs: seq<BlogPost>)
    requires seed == [] || Truthy(seed[0].title)
    requires forall i :: 0 <= i < |seed| ==> Truthy(seed[i].content)
    requires xs != [] && Truthy(xs[0].title) && !Truthy(xs[0].content)
    ensures var after := AfterLoad(Written(xs), PreviewLoadWith(seed, Written(xs)));
      PostsLoadWith(seed, Written(xs)).items == xs &&
      PreviewLoadWith(seed, Written(xs)).write == Some(seed) &&
      PostsLoadWith(seed, after).items == seed &&
      xs[0] !in PostsLoadWith(seed, after).items
  {
  }

  /**
   * On the site itself: once the preview has loaded a stored list whose first post
   * has a title but no content, the blog page shows `DEFAULT_POSTS` and that post
   * is gone, though the blog page alone would have kept it.
   */
  lemma SiteLosesEmptyContentPost(xs: seq<BlogPost>)
    requires xs != [] && Truthy(xs[0].title) && !Truthy(xs[0].content)
    ensures var after := AfterLoad(Written(xs), PreviewLoad(Written(xs)));
      PostsLoad(Written(xs)).items == xs &&
      PostsLoad(after).items == DEFAULT_POSTS &&
      xs[0] !in PostsLoad(after).items
  {
    PreviewSeedIsBlogSeed();
    DefaultPostsFilled();
    assert DEFAULT_POSTS[0] in DEFAULT_POSTS;
    forall i | 0 <= i < |DEFAULT_POSTS| ensures Truthy(DEFAULT_POSTS[i].content) {
      assert DEFAULT_POSTS[i] in DEFAULT_POSTS;
    }
    EmptyContentPostIsOverwritten(DEFAULT_POSTS, xs);
  }

  /** The state of the preview section. */
  class BlogPreviewSection {
    var posts: seq<BlogPost>

    constructor ()
      ensures posts == []
    {
      posts := [];
    }

    /**
     * The load effect. When it throws nothing changes; otherwise the section
     * shows what `PreviewLoad` says, and `written` tells whether its write went
     * through (a refused write is an error no code catches).
     */
    method Mount(ls: LocalStorage) returns (threw: bool, written: bool)
      modifies this`posts, ls`posts
      ensures threw <==> PreviewLoad(old(ls.posts)).Threw?
      ensures threw ==> posts == old(posts) && !written
      ensures !threw ==> posts == PreviewLoad(old(ls.posts)).items
      ensures written ==> ls.posts == AfterLoad(old(ls.posts), PreviewLoad(old(ls.posts)))
      ensures !written ==> ls.posts == old(ls.posts)
    {
      var l := PreviewLoad(ls.posts);
      threw := l.Threw?;
      written := false;
      if !threw {
        posts := l.items;
        if l.write.Some? {
          written := ls.SetPosts(l.write.value);
        }
      }
    }
  }
}
