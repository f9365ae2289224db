/**
 * The record shapes of the three persisted collections: projects (types.ts),
 * blog posts (types.ts) and testimonials (components/Testimonials.tsx), with the
 * JavaScript truthiness test the views apply to their string fields.
 */
module Records {
  import opened Wrappers

  /** The Project interface of types.ts; its `?` fields are `Option`s. */
  datatype Project = Project(
    id: string,
    title: string,
    description: string,
    longDescription: Option<string>,
    tags: seq<string>,
    imageUrl: string,
    demoUrl: Option<string>,
    repoUrl: Option<string>,
    features: Option<seq<string>>,
    challenges: Option<string>)

  datatype BlogPost = BlogPost(
    id: string,
    title: string,
    excerpt: string,
    content: string,
    author: string,
    date: string,
    category: string,
    imageUrl: string,
    readTime: string)

  datatype Testimonial = Testimonial(
    id: string,
    name: string,
    role: string,
    company: string,
    text: string,
    avatar: string)

  function ProjectId(p: Project): string { p.id }
  function PostId(p: BlogPost): string { p.id }
  function TestimonialId(t: Testimonial): string { t.id }

  /** A string is truthy in JavaScript exactly when it is not empty. */
  predicate Truthy(s: string) { s != "" }

  /** An optional string field is truthy when present and not empty (`undefined` is falsy). */
  predicate TruthyOpt(o: Option<string>) { o.Some? && o.value != "" }

  /** `a || b` on an optional string: `a` when it is truthy, otherwise `b`. */
  function OrElse(a: Option<string>, b: string): string
  {
    if TruthyOpt(a) then a.value else b
  }
}
