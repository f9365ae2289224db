/**
 * components/BlogPage.tsx: the blog page with its list, detail and compose views
 * over the `blogPosts` key. Saving a new post prepends it; saving an edit merges
 * the draft into the post with that id; deleting filters by id. Each change
 * writes the whole list back.
 */
module BlogPage {
  import opened Wrappers
  import opened Records
  import opened Collections
  import opened Storage

  /** `DEFAULT_POSTS`. */
  const DEFAULT_POSTS: seq<BlogPost> := [
    BlogPost(
      id := "1",
      title := "The Future of Full Stack in 2025",
      excerpt := "Exploring how AI and Serverless architectures are redefining the role of a Full Stack Developer.",
      content := "The landscape of full-stack development is rapidly evolving. By 2025, the definition of a \"Full Stack Developer\" will likely shift from someone who builds the entire stack to someone who orchestrates it.\n\nServerless architecture and Edge Computing are moving from niche to norm. Tools like Vercel and Cloudflare Workers allow us to run compute at the edge, reducing latency and removing the need for traditional server management. Database management is following suit with serverless SQL databases like Neon and PlanetScale.\n\nFurthermore, AI-driven coding assistants are becoming integral. They handle boilerplate code, unit tests, and even complex refactoring. This doesn't replace the developer but elevates them to an architect role, focusing on system design, security, and business logic rather than syntax. The future belongs to those who can integrate these disparate services into a cohesive, performant product.",
      author := "Muluken Ugamo",
      date := "Oct 12, 2024",
      category := "Tech Trends",
      imageUrl := "https://images.unsplash.com/photo-1555066931-4365d14bab8c?q=80&w=800&auto=format&fit=crop",
      readTime := "5 min read"),
    BlogPost(
      id := "2",
      title := "Mastering Tailwind CSS for Scalable UI",
      excerpt := "Why utility-first CSS is winning and how to organize your components for long-term maintenance.",
      content := "Tailwind CSS has polarized the community, but its value proposition for scalability is undeniable. The utility-first approach solves one of the hardest problems in CSS: maintainability.\n\nIn large-scale applications, the traditional \"semantic class\" approach often leads to append-only stylesheets. Developers are afraid to delete classes because they don't know what might break. Tailwind removes this fear. Styles are local to the markup.\n\nTo master Tailwind for scale, you must embrace componentization. Don't use @apply prematurely. Instead, build small, reusable React components (Buttons, Cards, Inputs) that encapsulate the utility classes. Use tools like clsx and tailwind-merge to allow for clean overrides. This \"Component-First\" architecture, combined with a strict tailwind.config.js design system, is the secret to keeping your UI consistent as your team grows.",
      author := "Muluken Ugamo",
      date := "Sep 28, 2024",
      category := "Frontend",
      imageUrl := "https://images.unsplash.com/photo-1587620962725-abab7fe55159?q=80&w=800&auto=format&fit=crop",
      readTime := "8 min read"),
    BlogPost(
      id := "3",
      title := "Building AI Agents with Gemini API",
      excerpt := "A step-by-step guide to integrating Google Gemini into your React applications for smarter UX.",
      content := "Integrating AI into web applications is no longer just a cool feature; it's a user expectation. Google's Gemini API provides a powerful, multimodal entry point for developers.\n\nIn this guide, we look at building a \"Smart Document Assistant\". The architecture is straightforward: React on the frontend, a Node.js proxy for security, and the Google GenAI SDK.\n\nKey to success is \"System Instructions\". By giving the model a persona and strict rules before the user even types a query, you control the output quality. For example, telling Gemini \"You are a helpful coding tutor who only answers in JSON\" drastically changes the utility of the response. We also explore \"Streaming\", which is crucial for UX. Instead of waiting 5 seconds for a full answer, streaming allows the user to see text appear in real-time, making the application feel instantaneous.",
      author := "Muluken Ugamo",
      date := "Aug 15, 2024",
      category := "AI Engineering",
      imageUrl := "https://images.unsplash.com/photo-1677442136019-21780ecad995?q=80&w=800&auto=format&fit=crop",
      readTime := "10 min read")
  ]

  /** The seed holds three posts, ids "1" to "3". */
  lemma DefaultPostsIds()
    ensures |DEFAULT_POSTS| == 3
    ensures DEFAULT_POSTS[0].id == "1" && DEFAULT_POSTS[1].id == "2" && DEFAULT_POSTS[2].id == "3"
    ensures DistinctIds(DEFAULT_POSTS, PostId)
  {
  }

  /** Every seed post has a title and content. */
  lemma DefaultPostsFilled()
    ensures forall p :: p in DEFAULT_POSTS ==> Truthy(p.title) && Truthy(p.content)
  {
    assert |DEFAULT_POSTS[0].title| > 0 && |DEFAULT_POSTS[0].content| > 0;
    assert |DEFAULT_POSTS[1].title| > 0 && |DEFAULT_POSTS[1].content| > 0;
    assert |DEFAULT_POSTS[2].title| > 0 && |DEFAULT_POSTS[2].content| > 0;
  }

  /**
   * The load effect, `seed` being the list it falls back to. A stored array that
   * is empty, or whose first post has a truthy title, is shown as it is and
   * nothing is written (only the first post is checked). Anything else (a missing
   * key, text that does not parse, a non-array, a first post without a title)
   * shows the seed and writes it.
   */
  function PostsLoadWith(seed: seq<BlogPost>, s: Stored<BlogPost>): (l: Load<BlogPost>)
    ensures l.Load?
    ensures l.write.Some? ==> l.write.value == seed && l.items == seed
    ensures l.write.None? <==> s.Text? && s.parsed.Arr? && (s.parsed.items == [] || Truthy(s.parsed.items[0].title))
    ensures l.write.None? ==> l.items == s.parsed.items
  {
    match s
    case Text(Arr(xs)) =>
      if xs == [] then Load([], None)
      else if Truthy(xs[0].title) then Load(xs, None)
      else Load(seed, Some(seed))
    case _ => Load(seed, Some(seed))
  }

  /** The blog page's load, which falls back to `DEFAULT_POSTS`. */
  function PostsLoad(s: Stored<BlogPost>): Load<BlogPost> {
    PostsLoadWith(DEFAULT_POSTS, s)
  }

  /**
   * Loading again after the load's own write shows the same posts and writes
   * nothing, for a seed that passes the load's own check (as `DEFAULT_POSTS`
   * does, by `DefaultPostsFilled`).
   */
  lemma PostsLoadIdempotent(seed: seq<BlogPost>, s: Stored<BlogPost>)
    requires seed == [] || Truthy(seed[0].title)
    ensures var l := PostsLoadWith(seed, s);
      PostsLoadWith(seed, AfterLoad(s, l)) == Load(l.items, None)
  {
  }

  datatype BlogView = PostList | PostDetail | Compose

  /** The composer's `Partial<BlogPost>`: every field may be absent. */
  datatype PostDraft = PostDraft(
    id: Option<string>,
    title: Option<string>,
    excerpt: Option<string>,
    content: Option<string>,
    author: Option<string>,
    date: Option<string>,
    category: Option<string>,
    imageUrl: Option<string>,
    readTime: Option<string>)

  /** The draft the composer starts from and is reset to: five empty text fields, nothing else. */
  const EMPTY_DRAFT := PostDraft(None, Some(""), Some(""), Some(""), None, None, Some(""), Some(""), None)

  const UNTITLED_POST := "Untitled"
  const POST_AUTHOR := "Muluken Ugamo"
  const GENERAL_CATEGORY := "General"
  const DEFAULT_POST_IMAGE := "https://images.unsplash.com/photo-1517694712202-14dd9538aa97?q=80&w=800&auto=format&fit=crop"
  const NEW_POST_READ_TIME := "3 min read"

  /** `setNewPost(post)`: editing starts from the whole post. */
  function DraftOfPost(p: BlogPost): PostDraft {
    PostDraft(Some(p.id), Some(p.title), Some(p.excerpt), Some(p.content), Some(p.author),
              Some(p.date), Some(p.category), Some(p.imageUrl), Some(p.readTime))
  }

  /** `{ ...p, ...d }`: every field the draft has wins, every field it lacks is kept from `p`. */
  function Merge(p: BlogPost, d: PostDraft): (q: BlogPost)
    ensures d.id.Some? ==> q.id == d.id.value
    ensures d.id.None? ==> q.id == p.id
    ensures q.title == d.title.GetOr(p.title) && q.excerpt == d.excerpt.GetOr(p.excerpt)
    ensures q.content == d.content.GetOr(p.content) && q.author == d.author.GetOr(p.author)
    ensures q.date == d.date.GetOr(p.date) && q.category == d.category.GetOr(p.category)
    ensures q.imageUrl == d.imageUrl.GetOr(p.imageUrl) && q.readTime == d.readTime.GetOr(p.readTime)
  {
    BlogPost(d.id.GetOr(p.id), d.title.GetOr(p.title), d.excerpt.GetOr(p.excerpt),
             d.content.GetOr(p.content), d.author.GetOr(p.author), d.date.GetOr(p.date),
             d.category.GetOr(p.category), d.imageUrl.GetOr(p.imageUrl), d.readTime.GetOr(p.readTime))
  }

  /** Merging a post's own draft gives the drafted post; merging a draft with no fields changes nothing. */
  lemma MergeLaws(p: BlogPost, q: BlogPost)
    ensures Merge(p, DraftOfPost(q)) == q
    ensures Merge(p, PostDraft(None, None, None, None, None, None, None, None, None)) == p
  {
  }

  /**
   * The post `handleSavePost` creates, with `freshId` for `Date.now()` and `today`
   * for the formatted date: falsy title, category and image get their defaults,
   * falsy excerpt and content become empty, the author and reading time are fixed.
   */
  function NewPost(d: PostDraft, freshId: string, today: string): (p: BlogPost)
    ensures p.id == freshId && p.date == today
    ensures p.author == POST_AUTHOR && p.readTime == NEW_POST_READ_TIME
    ensures p.title == OrElse(d.title, UNTITLED_POST) && Truthy(p.title)
    ensures p.category == OrElse(d.category, GENERAL_CATEGORY) && Truthy(p.category)
    ensures p.imageUrl == OrElse(d.imageUrl, DEFAULT_POST_IMAGE) && Truthy(p.imageUrl)
    ensures p.excerpt == OrElse(d.excerpt, "") && p.content == OrElse(d.content, "")
  {
    BlogPost(
      id := freshId,
      title := OrElse(d.title, UNTITLED_POST),
      excerpt := OrElse(d.excerpt, ""),
      content := OrElse(d.content, ""),
      author := POST_AUTHOR,
      date := today,
      category := OrElse(d.category, GENERAL_CATEGORY),
      imageUrl := OrElse(d.imageUrl, DEFAULT_POST_IMAGE),
      readTime := NEW_POST_READ_TIME)
  }

  /** Whether saving updates an existing post: `isEditing && newPost.id`. */
  predicate Updates(isEditing: bool, d: PostDraft) {
    isEditing && TruthyOpt(d.id)
  }

  /** `updatedPosts` in `handleSavePost`. */
  function SavedPosts(posts: seq<BlogPost>, isEditing: bool, d: PostDraft, freshId: string, today: string): seq<BlogPost> {
    if Updates(isEditing, d) then ReplaceId(posts, PostId, d.id.value, p => Merge(p, d))
    else [NewPost(d, freshId, today)] + posts
  }

  /** A save that is not an update prepends the new post to the others, in order. */
  lemma CreatePrependsPost(posts: seq<BlogPost>, isEditing: bool, d: PostDraft, freshId: string, today: string)
    requires !Updates(isEditing, d)
    ensures var r := SavedPosts(posts, isEditing, d, freshId, today);
      r == [NewPost(d, freshId, today)] + posts && |r| == |posts| + 1
  {
  }

  /**
   * An update merges the draft into each post with the draft's id, in its place,
   * and nowhere else: the length stays, the ids stay, and an id no post has
   * changes nothing.
   */
  lemma UpdateMerges(posts: seq<BlogPost>, d: PostDraft, freshId: string, today: string)
    requires Updates(true, d)
    ensures var r := SavedPosts(posts, true, d, freshId, today);
      |r| == |posts| &&
      (forall i :: 0 <= i < |r| && posts[i].id == d.id.value ==> r[i] == Merge(posts[i], d)) &&
      (forall i :: 0 <= i < |r| && posts[i].id != d.id.value ==> r[i] == posts[i]) &&
      Ids(r, PostId) == Ids(posts, PostId)
    ensures d.id.value !in Ids(posts, PostId) ==> SavedPosts(posts, true, d, freshId, today) == posts
  {
    ReplaceIdKeepsIds(posts, PostId, d.id.value, p => Merge(p, d));
    if d.id.value !in Ids(posts, PostId) {
      ReplaceMissingIdIsIdentity(posts, PostId, d.id.value, p => Merge(p, d));
    }
  }

  /** Saving keeps post ids distinct, given a `Date.now()` id no post has yet. */
  lemma SavedPostsKeepDistinct(posts: seq<BlogPost>, isEditing: bool, d: PostDraft, freshId: string, today: string)
    requires DistinctIds(posts, PostId)
    requires !Updates(isEditing, d) ==> freshId !in Ids(posts, PostId)
    ensures DistinctIds(SavedPosts(posts, isEditing, d, freshId, today), PostId)
  {
    if Updates(isEditing, d) {
      ReplaceIdKeepsIds(posts, PostId, d.id.value, p => Merge(p, d));
    } else {
      PrependFreshKeepsDistinct(NewPost(d, freshId, today), posts, PostId);
    }
  }

  /** What the detail view shows as the body: `content || excerpt`. */
  function DetailBody(p: BlogPost): (body: string)
    ensures Truthy(p.content) ==> body == p.content
    ensures !Truthy(p.content) ==> body == p.excerpt
  {
    if Truthy(p.content) then p.content else p.excerpt
  }

  /** The state of one mounted `BlogPage`. */
  class BlogPageView {
    var view: BlogView
    var selectedPost: Option<BlogPost>
    var posts: seq<BlogPost>
    var isEditing: bool
    var newPost: PostDraft

    /** The `useState` initial values. */
    constructor ()
      ensures view == PostList && selectedPost == None && posts == [] && !isEditing && newPost == EMPTY_DRAFT
    {
      view := PostList;
      selectedPost := None;
      posts := [];
      isEditing := false;
      newPost := EMPTY_DRAFT;
    }

    /**
     * The load effect: the posts `PostsLoad` shows, and its write, when it has one.
     * `written` is false when there was nothing to write or the write was refused.
     */
    method Mount(ls: LocalStorage) returns (written: bool)
      modifies this`posts, ls`posts
      ensures posts == PostsLoad(old(ls.posts)).items
      ensures written ==> ls.posts == AfterLoad(old(ls.posts), PostsLoad(old(ls.posts)))
      ensures !written ==> ls.posts == old(ls.posts)
    {
      var l := PostsLoad(ls.posts);
      posts := l.items;
      written := false;
      if l.write.Some? {
        written := ls.SetPosts(l.write.value);
      }
    }

    /** `handleReadPost`: the detail view on that post. */
    method ReadPost(p: BlogPost)
      modifies this`selectedPost, this`view
      ensures selectedPost == Some(p) && view == PostDetail
    {
      selectedPost := Some(p);
      view := PostDetail;
    }

    /** "New Post": the composer on an empty draft, creating. */
    method StartNewPost()
      modifies this`newPost, this`isEditing, this`view
      ensures newPost == EMPTY_DRAFT && !isEditing && view == Compose
    {
      newPost := EMPTY_DRAFT;
      isEditing := false;
      view := Compose;
    }

    /** `handleEditClick`: the composer on the whole post, editing. */
    method EditClick(p: BlogPost)
      modifies this`newPost, this`isEditing, this`view
      ensures newPost == DraftOfPost(p) && isEditing && view == Compose
    {
      newPost := DraftOfPost(p);
      isEditing := true;
      view := Compose;
    }

    /** `handleCancelCreate`: the draft is reset and the list shown. */
    method CancelCreate()
      modifies this`newPost, this`isEditing, this`view
      ensures newPost == EMPTY_DRAFT && !isEditing && view == PostList
    {
      newPost := EMPTY_DRAFT;
      isEditing := false;
      view := PostList;
    }

    /** The detail view's back button. */
    method BackToList()
      modifies this`view
      ensures view == PostList
    {
      view := PostList;
    }

    /**
     * `handleSavePost`. The state updater writes the new list and returns it, so
     * when the write goes through the stored list is exactly the shown one; when
     * it is refused the updater throws and the posts stay as they were. Either way
     * the draft is reset and the list shown.
     */
    method SavePost(ls: LocalStorage, freshId: string, today: string) returns (ok: bool)
      modifies this`posts, this`newPost, this`isEditing, this`view, ls`posts
      ensures ok ==> posts == SavedPosts(old(posts), old(isEditing), old(newPost), freshId, today)
      ensures ok ==> ls.posts == Written(posts)
      ensures !ok ==> posts == old(posts) && ls.posts == old(ls.posts)
      ensures newPost == EMPTY_DRAFT && !isEditing && view == PostList
    {
      var updated := SavedPosts(posts, isEditing, newPost, freshId, today);
      ok := ls.SetPosts(updated);
      if ok {
        posts := updated;
      }
      newPost := EMPTY_DRAFT;
      isEditing := false;
      view := PostList;
    }

    /**
     * `handleDeleteClick`, `confirmed` being the answer to `window.confirm`. A
     * confirmed delete filters the id out and writes the rest (the shown list is
     * the stored one), and leaves the detail view when it showed that post.
     */
    method DeleteClick(ls: LocalStorage, id: string, confirmed: bool) returns (ok: bool)
      modifies this`posts, this`view, this`selectedPost, ls`posts
      ensures !confirmed ==> !ok && posts == old(posts) && ls.posts == old(ls.posts)
      ensures ok ==> posts == RemoveId(old(posts), PostId, id) && ls.posts == Written(posts)
      ensures !ok ==> posts == old(posts) && ls.posts == old(ls.posts)
      ensures var closes := confirmed && old(view) == PostDetail && old(selectedPost).Some? && old(selectedPost).value.id == id;
        if closes then view == PostList && selectedPost == None
        else view == old(view) && selectedPost == old(selectedPost)
    {
      ok := false;
      if confirmed {
        var updated := RemoveId(posts, PostId, id);
        ok := ls.SetPosts(updated);
        if ok {
          posts := updated;
        }
        if view == PostDetail && selectedPost.Some? && selectedPost.value.id == id {
          view := PostList;
          selectedPost := None;
        }
      }
    }
  }
}
