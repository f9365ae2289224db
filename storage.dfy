/**
 * The browser's `localStorage`, restricted to the keys the site uses. Each key
 * the site reads or writes is a field of `LocalStorage`, so a method's
 * `modifies ls`key` frame says that every other key keeps its value.
 *
 * JSON text is not modelled: a stored value is described by what `JSON.parse`
 * makes of it.
 */
module Storage {
  import opened Wrappers
  import opened Records

  /**
   * What `JSON.parse` makes of a stored text: it throws; it yields an object, a
   * number, a boolean or `null` (`NonArray`); it yields a string; or it yields an
   * array of records. Strings are kept apart because indexing and `length` work on
   * them as on arrays, so a loader that does not call `Array.isArray` treats them
   * differently from the other non-arrays.
   */
  datatype Parsed<R> = ParseError | NonArray | JsonString(value: string) | Arr(items: seq<R>)

  /**
   * The value under one key, as the loaders see it. `getItem` returning `null`,
   * or the empty string (falsy), is `Missing`.
   */
  datatype Stored<R> = Missing | Text(parsed: Parsed<R>)

  /** What `localStorage.setItem(key, JSON.stringify(xs))` leaves under the key. */
  function Written<R>(xs: seq<R>): Stored<R> {
    Text(Arr(xs))
  }

  /**
   * The outcome of a loading effect: the records the view shows and, when the
   * loader writes its seed back, the list it writes; or `Threw`, when the effect
   * throws an error no code catches.
   */
  datatype Load<R> = Load(items: seq<R>, write: Option<seq<R>>) | Threw

  /** The value under the key once a load has written what it writes, the write having succeeded. */
  function AfterLoad<R>(s: Stored<R>, l: Load<R>): Stored<R> {
    if l.Load? && l.write.Some? then Written(l.write.value) else s
  }

  /**
   * The keys `portfolio_projects`, `blogPosts`, `portfolio_testimonials`,
   * `about_profile_image` and `about_preview_image`. The images are plain strings
   * (data URLs), not JSON.
   */
  class LocalStorage {
    var projects: Stored<Project>
    var posts: Stored<BlogPost>
    var testimonials: Stored<Testimonial>
    var profileImage: Option<string>
    var previewImage: Option<string>

    /** A browser profile in which the site has stored nothing yet. */
    constructor Empty()
      ensures projects == Missing && posts == Missing && testimonials == Missing
      ensures profileImage == None && previewImage == None
    {
      projects := Missing;
      posts := Missing;
      testimonials := Missing;
      profileImage := None;
      previewImage := None;
    }

    /**
     * `setItem('portfolio_projects', JSON.stringify(xs))`. The browser may refuse
     * the write (quota exceeded): then `ok` is false and nothing changed.
     */
    method SetProjects(xs: seq<Project>) returns (ok: bool)
      modifies this`projects
      ensures ok ==> projects == Written(xs)
      ensures !ok ==> projects == old(projects)
    {
      ok := *;
      if ok {
        projects := Written(xs);
      }
    }

    /** `setItem('blogPosts', JSON.stringify(xs))`, which the browser may refuse. */
    method SetPosts(xs: seq<BlogPost>) returns (ok: bool)
      modifies this`posts
      ensures ok ==> posts == Written(xs)
      ensures !ok ==> posts == old(posts)
    {
      ok := *;
      if ok {
        posts := Written(xs);
      }
    }

    /** `setItem('portfolio_testimonials', JSON.stringify(xs))`, which the browser may refuse. */
    method SetTestimonials(xs: seq<Testimonial>) returns (ok: bool)
      modifies this`testimonials
      ensures ok ==> testimonials == Written(xs)
      ensures !ok ==> testimonials == old(testimonials)
    {
      ok := *;
      if ok {
        testimonials := Written(xs);
      }
    }

    /** `setItem('about_profile_image', url)`, which the browser may refuse. */
    method SetProfileImage(url: string) returns (ok: bool)
      modifies this`profileImage
      ensures ok ==> profileImage == Some(url)
      ensures !ok ==> profileImage == old(profileImage)
    {
      ok := *;
      if ok {
        profileImage := Some(url);
      }
    }

    /** `removeItem('about_profile_image')`. */
    method RemoveProfileImage()
      modifies this`profileImage
      ensures profileImage == None
    {
      profileImage := None;
    }

    /** `setItem('about_preview_image', url)`, which the browser may refuse. */
    method SetPreviewImage(url: string) returns (ok: bool)
      modifies this`previewImage
      ensures ok ==> previewImage == Some(url)
      ensures !ok ==> previewImage == old(previewImage)
    {
      ok := *;
      if ok {
        previewImage := Some(url);
      }
    }

    /** `removeItem('about_preview_image')`. */
    method RemovePreviewImage()
      modifies this`previewImage
      ensures previewImage == None
    {
      previewImage := None;
    }
  }
}
