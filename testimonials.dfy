/**
 * components/Testimonials.tsx: the client testimonials section over the
 * `portfolio_testimonials` key. Adding prepends a record built from the form,
 * deleting filters by id; both write the new list.
 */
module Testimonials {
  import opened Wrappers
  import opened Records
  import opened Collections
  import opened Storage

  /** `DEFAULT_TESTIMONIALS`. */
  const DEFAULT_TESTIMONIALS: seq<Testimonial> := [
    Testimonial(
      id := "1",
      name := "Sarah Chen",
      role := "Product Manager",
      company := "TechFlow Systems",
      text := "Muluken is one of those rare developers who understands both the code and the business goals. He completely rebuilt our core dashboard, improving performance by 40%.",
      avatar := "https://images.unsplash.com/photo-1494790108377-be9c29b29330?q=80&w=200&auto=format&fit=crop"),
    Testimonial(
      id := "2",
      name := "David Miller",
      role := "CTO",
      company := "DataStream Corp",
      text := "Exceptional problem solver. His work on the real-time financial charts was flawless. He picks up new technologies incredibly fast.",
      avatar := "https://images.unsplash.com/photo-1472099645785-5658abf4ff4e?q=80&w=200&auto=format&fit=crop"),
    Testimonial(
      id := "3",
      name := "James Wilson",
      role := "Lead Designer",
      company := "Creative Agency X",
      text := "A developer with a designer's eye. Implementation was pixel-perfect, and he often suggested animations that made the UX even better.",
      avatar := "https://images.unsplash.com/photo-1500648767791-00dcc994a43e?q=80&w=200&auto=format&fit=crop")
  ]

  /** The seed holds three testimonials with ids "1" to "3". */
  lemma DefaultTestimonialsIds()
    ensures |DEFAULT_TESTIMONIALS| == 3
    ensures DEFAULT_TESTIMONIALS[0].id == "1" && DEFAULT_TESTIMONIALS[1].id == "2" && DEFAULT_TESTIMONIALS[2].id == "3"
    ensures DistinctIds(DEFAULT_TESTIMONIALS, TestimonialId)
  {
  }

  /**
   * The load effect. A missing key shows the seed and writes it. A stored value
   * is used as it parses, with no check at all: an array (the empty one included)
   * is shown as it is; text that does not parse throws, and a non-array cannot be
   * rendered as a list, which throws too.
   */
  function TestimonialsLoad(s: Stored<Testimonial>): (l: Load<Testimonial>)
    ensures s.Missing? ==> l == Load(DEFAULT_TESTIMONIALS, Some(DEFAULT_TESTIMONIALS))
    ensures s.Text? && s.parsed.Arr? ==> l == Load(s.parsed.items, None)
    ensures l.Threw? <==> s.Text? && !s.parsed.Arr?
  {
    match s
    case Missing => Load(DEFAULT_TESTIMONIALS, Some(DEFAULT_TESTIMONIALS))
    case Text(Arr(xs)) => Load(xs, None)
    case Text(_) => Threw
  }

  /** Loading again after the load's own write shows the same testimonials and writes nothing. */
  lemma TestimonialsLoadIdempotent(s: Stored<Testimonial>)
    requires TestimonialsLoad(s).Load?
    ensures var l := TestimonialsLoad(s);
      TestimonialsLoad(AfterLoad(s, l)) == Load(l.items, None)
  {
  }

  /** The form's fields; they start empty and only ever hold text. */
  datatype TestimonialDraft = TestimonialDraft(name: string, role: string, company: string, text: string)

  const EMPTY_TESTIMONIAL := TestimonialDraft("", "", "", "")
  const ANONYMOUS := "Anonymous"
  const DEFAULT_ROLE := "Client"
  const AVATAR_PREFIX := "https://api.dicebear.com/9.x/initials/svg?seed="

  /**
   * The record `handleAdd` builds, `freshId` being `Date.now().toString()`: an
   * empty name becomes "Anonymous" and an empty role "Client", while the avatar
   * is seeded with the name exactly as entered, so an anonymous testimonial would
   * get an avatar with an empty seed. The form's `required` fields keep the name
   * and role from being empty, so these defaults are not reached from the form.
   */
  function NewTestimonial(d: TestimonialDraft, freshId: string): (t: Testimonial)
    ensures t.id == freshId
    ensures t.name == (if Truthy(d.name) then d.name else ANONYMOUS) && Truthy(t.name)
    ensures t.role == (if Truthy(d.role) then d.role else DEFAULT_ROLE) && Truthy(t.role)
    ensures t.company == d.company && t.text == d.text
    ensures t.avatar == AVATAR_PREFIX + d.name
    ensures !Truthy(d.name) ==> t.name == ANONYMOUS && t.avatar == AVATAR_PREFIX
  {
    Testimonial(
      id := freshId,
      name := if Truthy(d.name) then d.name else ANONYMOUS,
      role := if Truthy(d.role) then d.role else DEFAULT_ROLE,
      company := if Truthy(d.company) then d.company else "",
      text := if Truthy(d.text) then d.text else "",
      avatar := AVATAR_PREFIX + d.name)
  }

  /** Adding with an id no testimonial has keeps the ids distinct. */
  lemma AddKeepsDistinct(xs: seq<Testimonial>, d: TestimonialDraft, freshId: string)
    requires DistinctIds(xs, TestimonialId)
    requires freshId !in Ids(xs, TestimonialId)
    ensures DistinctIds([NewTestimonial(d, freshId)] + xs, TestimonialId)
  {
    PrependFreshKeepsDistinct(NewTestimonial(d, freshId), xs, TestimonialId);
  }

  /** The state of the section. */
  class TestimonialsSection {
    var testimonials: seq<Testimonial>
    var isAdding: bool
    var newTestimonial: TestimonialDraft

    constructor ()
      ensures testimonials == [] && !isAdding && newTestimonial == EMPTY_TESTIMONIAL
    {
      testimonials := [];
      isAdding := false;
      newTestimonial := EMPTY_TESTIMONIAL;
    }

    /**
     * The load effect. When it throws nothing changes; otherwise the section shows
     * what `TestimonialsLoad` says, and `written` tells whether its write went
     * through.
     */
    method Mount(ls: LocalStorage) returns (threw: bool, written: bool)
      modifies this`testimonials, ls`testimonials
      ensures threw <==> TestimonialsLoad(old(ls.testimonials)).Threw?
      ensures threw ==> testimonials == old(testimonials) && !written
      ensures !threw ==> testimonials == TestimonialsLoad(old(ls.testimonials)).items
      ensures written ==> ls.testimonials == AfterLoad(old(ls.testimonials), TestimonialsLoad(old(ls.testimonials)))
      ensures !written ==> ls.testimonials == old(ls.testimonials)
    {
      var l := TestimonialsLoad(ls.testimonials);
      threw := l.Threw?;
      written := false;
      if !threw {
        testimonials := l.items;
        if l.write.Some? {
          written := ls.SetTestimonials(l.write.value);
        }
      }
    }

    /** The "Add Review" button toggles the form. */
    method ToggleAdding()
      modifies this`isAdding
      ensures isAdding == !old(isAdding)
    {
      isAdding := !isAdding;
    }

    /** The form's cancel button. */
    method CancelAdding()
      modifies this`isAdding
      ensures !isAdding
    {
      isAdding := false;
    }

    /**
     * `handleAdd`: the new record is put in front and the list written. The write
     * is not guarded: when it is refused the error escapes the handler after the
     * list was set, and the form stays open with its draft.
     */
    method HandleAdd(ls: LocalStorage, freshId: string) returns (ok: bool)
      modifies this, ls`testimonials
      ensures testimonials == [NewTestimonial(old(newTestimonial), freshId)] + old(testimonials)
      ensures |testimonials| == |old(testimonials)| + 1
      ensures ok ==> ls.testimonials == Written(testimonials) && !isAdding && newTestimonial == EMPTY_TESTIMONIAL
      ensures !ok ==> ls.testimonials == old(ls.testimonials) && isAdding == old(isAdding) && newTestimonial == old(newTestimonial)
    {
      var item := NewTestimonial(newTestimonial, freshId);
      var updated := [item] + testimonials;
      testimonials := updated;
      ok := ls.SetTestimonials(updated);
      if ok {
        isAdding := false;
        newTestimonial := EMPTY_TESTIMONIAL;
      }
    }

    /**
     * `handleDelete`, `confirmed` being the answer to `window.confirm`: the id is
     * filtered out, the rest keep their order, and the list is written.
     */
    method HandleDelete(ls: LocalStorage, id: string, confirmed: bool) returns (ok: bool)
      modifies this`testimonials, ls`testimonials
      ensures !confirmed ==> !ok && testimonials == old(testimonials) && ls.testimonials == old(ls.testimonials)
      ensures confirmed ==> testimonials == RemoveId(old(testimonials), TestimonialId, id)
      ensures ok ==> ls.testimonials == Written(testimonials)
      ensures !ok ==> ls.testimonials == old(ls.testimonials)
    {
      ok := false;
      if confirmed {
        var updated := RemoveId(testimonials, TestimonialId, id);
        testimonials := updated;
        ok := ls.SetTestimonials(updated);
      }
    }
  }
}
