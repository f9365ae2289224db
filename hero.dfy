/**
 * components/Hero.tsx, lines 10-45: the typewriter headline. A timer types the
 * full text one character at a time, pauses, deletes it one character at a time,
 * pauses, and starts again.
 *
 * The step and delay functions take the full text as a parameter `full`; the
 * component uses `FULL_TEXT`.
 */
module Hero {

  const FULL_TEXT := "Building Scalable Digital Experiences"

  /** The effect's two state variables, `text` and `isDeleting`. */
  datatype Typewriter = Typewriter(text: string, isDeleting: bool)

  const INITIAL := Typewriter("", false)

  /** JavaScript's `Math.min(Math.max(x, 0), len)`, the clamping `substring` applies to its bounds. */
  function Clamp(x: int, len: nat): (c: nat)
    ensures c <= len
    ensures 0 <= x <= len ==> c == x
  {
    if x < 0 then 0 else if x > len then len else x
  }

  /** `s.substring(start, end)`: bounds are clamped to the string, and swapped when reversed. */
  function Substring(s: string, start: int, end: int): (r: string)
    ensures 0 <= start <= end <= |s| ==> r == s[start..end]
    ensures 0 <= end <= start <= |s| ==> r == s[end..start]
  {
    var a := Clamp(start, |s|);
    var b := Clamp(end, |s|);
    if a <= b then s[a..b] else s[b..a]
  }

  /** Typing has reached the full text: the pause before deleting. */
  predicate Typed(full: string, t: Typewriter) {
    !t.isDeleting && t.text == full
  }

  /** Deleting has reached the empty text: the pause before typing again. */
  predicate Erased(t: Typewriter) {
    t.isDeleting && t.text == ""
  }

  /**
   * The timer callback. At the full text while typing it starts deleting; at the
   * empty text while deleting it starts typing; otherwise it types the next
   * character of the full text (`substring(0, len + 1)`) or deletes the last one
   * (`substring(0, len - 1)`). When the text is a prefix of the full text it stays
   * one, and away from the pauses its length moves by one character.
   */
  function Step(full: string, t: Typewriter): (u: Typewriter)
    ensures Typed(full, t) ==> u == Typewriter(full, true)
    ensures Erased(t) ==> u == Typewriter("", false)
    ensures t.text <= full ==> u.text <= full
    ensures t.text <= full && !t.isDeleting && t.text != full ==>
              u == Typewriter(full[..|t.text| + 1], false)
    ensures t.text <= full && t.isDeleting && t.text != "" ==>
              u == Typewriter(full[..|t.text| - 1], true)
  {
    if Typed(full, t) then Typewriter(t.text, true)
    else if Erased(t) then Typewriter(t.text, false)
    else if t.isDeleting then Typewriter(Substring(full, 0, |t.text| - 1), true)
    else Typewriter(Substring(full, 0, |t.text| + 1), false)
  }

  /**
   * The timeout before the next step, in milliseconds: 2000 at the full text
   * while typing, 500 at the empty text while deleting, otherwise 100 when typing
   * and 50 when deleting.
   */
  function Delay(full: string, t: Typewriter): (ms: nat)
    ensures Typed(full, t) ==> ms == 2000
    ensures Erased(t) ==> ms == 500
    ensures !Typed(full, t) && !Erased(t) ==> ms == if t.isDeleting then 50 else 100
  {
    var speed := if t.isDeleting then 50 else 100;
    if Typed(full, t) then 2000
    else if Erased(t) then 500
    else speed
  }

  /** The state after `n` steps. */
  function Run(full: string, t: Typewriter, n: nat): Typewriter
    decreases n
  {
    if n == 0 then t else Run(full, Step(full, t), n - 1)
  }

  /** The time `n` steps take, in milliseconds. */
  function Elapsed(full: string, t: Typewriter, n: nat): nat
    decreases n
  {
    if n == 0 then 0 else Delay(full, t) + Elapsed(full, Step(full, t), n - 1)
  }

  /** The text stays a prefix of the full text however many steps are taken. */
  lemma {:induction false} RunKeepsPrefix(full: string, t: Typewriter, n: nat)
    requires t.text <= full
    ensures Run(full, t, n).text <= full
    decreases n
  {
    if n > 0 {
      RunKeepsPrefix(full, Step(full, t), n - 1);
    }
  }

  /** Typing from the first `k` characters reaches the full text after `|full| - k` steps of 100 ms each. */
  lemma {:induction false} TypeOut(full: string, k: nat)
    requires k <= |full|
    ensures Run(full, Typewriter(full[..k], false), |full| - k) == Typewriter(full, false)
    ensures Elapsed(full, Typewriter(full[..k], false), |full| - k) == 100 * (|full| - k)
    decreases |full| - k
  {
    var t := Typewriter(full[..k], false);
    if k < |full| {
      assert t.text != full by { assert |t.text| == k; }
      assert Step(full, t) == Typewriter(full[..k + 1], false);
      TypeOut(full, k + 1);
    } else {
      assert t.text == full;
    }
  }

  /** Deleting from the first `k` characters reaches the empty text after `k` steps of 50 ms each. */
  lemma {:induction false} DeleteAll(full: string, k: nat)
    requires k <= |full|
    ensures Run(full, Typewriter(full[..k], true), k) == Typewriter("", true)
    ensures Elapsed(full, Typewriter(full[..k], true), k) == 50 * k
    decreases k
  {
    var t := Typewriter(full[..k], true);
    if k > 0 {
      assert t.text != "" by { assert |t.text| == k; }
      assert Step(full, t) == Typewriter(full[..k - 1], true);
      DeleteAll(full, k - 1);
    } else {
      assert t.text == "";
    }
  }

  /** Taking `a` steps and then `b` steps is taking `a + b` steps. */
  lemma {:induction false} RunCompose(full: string, t: Typewriter, a: nat, b: nat)
    ensures Run(full, t, a + b) == Run(full, Run(full, t, a), b)
    decreases a
  {
    if a > 0 {
      var u := Step(full, t);
      assert Run(full, t, a + b) == Run(full, u, (a - 1) + b);
      assert Run(full, t, a) == Run(full, u, a - 1);
      RunCompose(full, u, a - 1, b);
    }
  }

  /** The time of `a + b` steps is the time of the first `a` plus the time of the next `b`. */
  lemma {:induction false} ElapsedCompose(full: string, t: Typewriter, a: nat, b: nat)
    ensures Elapsed(full, t, a + b) == Elapsed(full, t, a) + Elapsed(full, Run(full, t, a), b)
    decreases a
  {
    if a > 0 {
      var u := Step(full, t);
      assert Elapsed(full, t, a + b) == Delay(full, t) + Elapsed(full, u, (a - 1) + b);
      assert Elapsed(full, t, a) == Delay(full, t) + Elapsed(full, u, a - 1);
      assert Run(full, t, a) == Run(full, u, a - 1);
      ElapsedCompose(full, u, a - 1, b);
    }
  }

  /** Chaining two runs with known end states. */
  lemma {:induction false} RunThrough(full: string, t: Typewriter, a: nat, u: Typewriter, b: nat, v: Typewriter, c: nat)
    requires Run(full, t, a) == u && Run(full, u, b) == v && c == a + b
    ensures Run(full, t, c) == v
  {
    RunCompose(full, t, a, b);
  }

  /** Chaining two runs with known end states and durations. */
  lemma {:induction false} ElapsedThrough(full: string, t: Typewriter, a: nat, u: Typewriter, b: nat, da: nat, db: nat, c: nat)
    requires Run(full, t, a) == u && Elapsed(full, t, a) == da && Elapsed(full, u, b) == db && c == a + b
    ensures Elapsed(full, t, c) == da + db
  {
    ElapsedCompose(full, t, a, b);
  }

  /** Typing the whole text from the initial state takes `|full|` steps of 100 ms. */
  lemma {:induction false} TypePhase(full: string)
    ensures Run(full, INITIAL, |full|) == Typewriter(full, false)
    ensures Elapsed(full, INITIAL, |full|) == 100 * |full|
  {
    assert full[..0] == "";
    TypeOut(full, 0);
  }

  /** Deleting the whole text takes `|full|` steps of 50 ms. */
  lemma {:induction false} DeletePhase(full: string)
    ensures Run(full, Typewriter(full, true), |full|) == Typewriter("", true)
    ensures Elapsed(full, Typewriter(full, true), |full|) == 50 * |full|
  {
    assert full[..|full|] == full;
    DeleteAll(full, |full|);
  }

  /** After typing and the 2000 ms pause, the headline is deleting the full text. */
  lemma {:induction false} ToDeleting(full: string)
    ensures Run(full, INITIAL, |full| + 1) == Typewriter(full, true)
    ensures Elapsed(full, INITIAL, |full| + 1) == 100 * |full| + 2000
  {
    var typed := Typewriter(full, false);
    TypePhase(full);
    assert Run(full, typed, 1) == Typewriter(full, true) && Elapsed(full, typed, 1) == 2000;
    RunThrough(full, INITIAL, |full|, typed, 1, Typewriter(full, true), |full| + 1);
    ElapsedThrough(full, INITIAL, |full|, typed, 1, 100 * |full|, 2000, |full| + 1);
  }

  /** After typing, the pause and deleting, the headline is empty and about to pause again. */
  lemma {:induction false} ToErased(full: string)
    ensures Run(full, INITIAL, 2 * |full| + 1) == Typewriter("", true)
    ensures Elapsed(full, INITIAL, 2 * |full| + 1) == 150 * |full| + 2000
  {
    var n := |full|;
    ToDeleting(full);
    DeletePhase(full);
    RunThrough(full, INITIAL, n + 1, Typewriter(full, true), n, Typewriter("", true), 2 * n + 1);
    ElapsedThrough(full, INITIAL, n + 1, Typewriter(full, true), n, 100 * n + 2000, 50 * n, 2 * n + 1);
  }

  /**
   * The animation is periodic: from the initial state, `2 * |full| + 2` steps
   * (every character typed, the pause, every character deleted, the pause)
   * return to the initial state, and one cycle lasts `150 * |full| + 2500` ms:
   * 100 ms per typed and 50 ms per deleted character, and the two pauses.
   */
  lemma {:induction false} Cycle(full: string)
    ensures Run(full, INITIAL, 2 * |full| + 2) == INITIAL
    ensures Elapsed(full, INITIAL, 2 * |full| + 2) == 150 * |full| + 2500
  {
    var n := |full|;
    var erased := Typewriter("", true);
    ToErased(full);
    assert Run(full, erased, 1) == INITIAL && Elapsed(full, erased, 1) == 500;
    RunThrough(full, INITIAL, 2 * n + 1, erased, 1, INITIAL, 2 * n + 2);
    ElapsedThrough(full, INITIAL, 2 * n + 1, erased, 1, 150 * n + 2000, 500, 2 * n + 2);
  }

  /** For the site's headline: a cycle is 76 steps and 8050 ms. */
  lemma HeadlineCycle()
    ensures Run(FULL_TEXT, INITIAL, 76) == INITIAL
    ensures Elapsed(FULL_TEXT, INITIAL, 76) == 8050
  {
    Cycle(FULL_TEXT);
  }

  /** The headline's state, advanced by the timer. */
  class Headline {
    var text: string
    var isDeleting: bool

    /** The text is a prefix of the full text. */
    ghost predicate Valid()
      reads this
    {
      text <= FULL_TEXT
    }

    constructor ()
      ensures text == "" && !isDeleting && Valid()
    {
      text := "";
      isDeleting := false;
    }

    /**
     * One round of the effect: it waits `Delay` of the current state (returned as
     * `waited`) and then takes one `Step`.
     */
    method Tick() returns (waited: nat)
      requires Valid()
      modifies this
      ensures waited == Delay(FULL_TEXT, Typewriter(old(text), old(isDeleting)))
      ensures Typewriter(text, isDeleting) == Step(FULL_TEXT, Typewriter(old(text), old(isDeleting)))
      ensures Valid()
    {
      var t := Typewriter(text, isDeleting);
      waited := Delay(FULL_TEXT, t);
      var u := Step(FULL_TEXT, t);
      text := u.text;
      isDeleting := u.isDeleting;
    }
  }
}
