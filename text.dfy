/**
 * The string operations of the project form: JavaScript's `String.prototype.trim`,
 * `split` on one separator character and `Array.prototype.join`, and the
 * parse-a-list pipeline `input.split(sep).map(t => t.trim()).filter(t => t.length > 0)`.
 */
module Text {
  import opened Collections

  /**
   * The characters `trim` removes: ECMAScript's WhiteSpace (tab, vertical tab, form
   * feed, the byte order mark and the Unicode space separators) and LineTerminator.
   */
  const WHITESPACE: set<char> := {
    '\t', '\n', '\U{000B}', '\U{000C}', '\r', ' ', '\U{00A0}', '\U{1680}',
    '\U{2000}', '\U{2001}', '\U{2002}', '\U{2003}', '\U{2004}', '\U{2005}',
    '\U{2006}', '\U{2007}', '\U{2008}', '\U{2009}', '\U{200A}',
    '\U{2028}', '\U{2029}', '\U{202F}', '\U{205F}', '\U{3000}', '\U{FEFF}'
  }

  predicate IsWhitespace(c: char) {
    c in WHITESPACE
  }

  /** Neither end of `s` is whitespace. */
  predicate IsTrimmed(s: string) {
    s == "" || (!IsWhitespace(s[0]) && !IsWhitespace(s[|s| - 1]))
  }

  /** How many whitespace characters `s` begins with. */
  function LeadingSpace(s: string): (n: nat)
    ensures n <= |s|
    ensures forall i :: 0 <= i < n ==> IsWhitespace(s[i])
    ensures n == |s| || !IsWhitespace(s[n])
  {
    if s != "" && IsWhitespace(s[0]) then 1 + LeadingSpace(s[1..]) else 0
  }

  /** How many whitespace characters `s` ends with. */
  function TrailingSpace(s: string): (n: nat)
    ensures n <= |s|
    ensures forall i :: |s| - n <= i < |s| ==> IsWhitespace(s[i])
    ensures n == |s| || !IsWhitespace(s[|s| - n - 1])
  {
    if s != "" && IsWhitespace(s[|s| - 1]) then 1 + TrailingSpace(s[..|s| - 1]) else 0
  }

  /** `s.trim()`: `s` without the whitespace at either end. */
  function Trim(s: string): (r: string)
    ensures IsTrimmed(r) && |r| <= |s|
  {
    var lo := LeadingSpace(s);
    var n := TrailingSpace(s[lo..]);
    assert forall i :: lo <= i < |s| ==> s[i] == s[lo..][i - lo];
    s[lo..|s| - n]
  }

  /**
   * `Trim(s)` is the slice of `s` that starts after the leading whitespace, and
   * everything outside that slice is whitespace.
   */
  lemma TrimIsSlice(s: string)
    ensures var lo := LeadingSpace(s); var r := Trim(s);
      lo + |r| <= |s| && r == s[lo..lo + |r|] &&
      (forall i :: 0 <= i < lo ==> IsWhitespace(s[i])) &&
      (forall i :: lo + |r| <= i < |s| ==> IsWhitespace(s[i]))
  {
    var lo := LeadingSpace(s);
    assert forall i :: lo <= i < |s| ==> s[i] == s[lo..][i - lo];
  }

  /** Trimming adds no character: what `s` lacks, `Trim(s)` lacks. */
  lemma TrimKeepsOut(s: string, c: char)
    requires c !in s
    ensures c !in Trim(s)
  {
    TrimIsSlice(s);
    var r := Trim(s);
    var lo := LeadingSpace(s);
    forall j | 0 <= j < |r| ensures r[j] != c {
      assert r[j] == s[lo + j];
    }
  }

  /** Whitespace padding in front of text that starts with a non-space is exactly the leading space. */
  lemma {:induction false} LeadingSpacePadded(pad: string, x: string)
    requires forall i :: 0 <= i < |pad| ==> IsWhitespace(pad[i])
    requires x == "" || !IsWhitespace(x[0])
    ensures LeadingSpace(pad + x) == |pad|
  {
    if pad == [] {
      assert pad + x == x;
    } else {
      assert (pad + x)[0] == pad[0];
      assert (pad + x)[1..] == pad[1..] + x;
      LeadingSpacePadded(pad[1..], x);
    }
  }

  /** Trimming whitespace padding off an already trimmed string gives the string back. */
  lemma TrimPadded(pad: string, x: string)
    requires forall i :: 0 <= i < |pad| ==> IsWhitespace(pad[i])
    requires IsTrimmed(x)
    ensures Trim(pad + x) == x
  {
    LeadingSpacePadded(pad, x);
    assert (pad + x)[|pad|..] == x;
  }

  /** `xs.join(sep)`. */
  function Join(xs: seq<string>, sep: string): string {
    if |xs| == 0 then ""
    else if |xs| == 1 then xs[0]
    else xs[0] + sep + Join(xs[1..], sep)
  }

  /** Prefixing the joined text is prefixing its first piece. */
  lemma JoinPrefixFirst(p: string, xs: seq<string>, sep: string)
    requires |xs| >= 1
    ensures p + Join(xs, sep) == Join([p + xs[0]] + xs[1..], sep)
  {
    var ys := [p + xs[0]] + xs[1..];
    assert ys[1..] == xs[1..];
  }

  /**
   * `s.split(c)`: the pieces between the occurrences of `c`. There is always at
   * least one piece, no piece contains `c`, and joining the pieces with `c` gives
   * `s` back.
   */
  function Split(s: string, c: char): (r: seq<string>)
    ensures |r| >= 1
    ensures forall i :: 0 <= i < |r| ==> c !in r[i]
    ensures Join(r, [c]) == s
  {
    if s == "" then [""]
    else
      var rest := Split(s[1..], c);
      if s[0] == c then
        assert [c] + Join(rest, [c]) == s;
        [""] + rest
      else
        var r := [[s[0]] + rest[0]] + rest[1..];
        assert forall i :: 1 <= i < |r| ==> r[i] == rest[i];
        JoinPrefixFirst([s[0]], rest, [c]);
        assert [s[0]] + s[1..] == s;
        r
  }

  /** Splitting text that begins with a separator-free piece and then the separator. */
  lemma {:induction false} SplitAfterPiece(x: string, c: char, t: string)
    requires c !in x
    ensures Split(x + [c] + t, c) == [x] + Split(t, c)
  {
    if x == "" {
      assert x + [c] + t == [c] + t;
      assert ([c] + t)[1..] == t;
    } else {
      var s := x + [c] + t;
      assert s[0] == x[0];
      assert s[1..] == x[1..] + [c] + t;
      SplitAfterPiece(x[1..], c, t);
      assert [x[0]] + x[1..] == x;
    }
  }

  /** Separator-free pieces joined with the separator split back into the same pieces. */
  lemma {:induction false} SplitJoin(xs: seq<string>, c: char)
    requires |xs| >= 1
    requires forall i :: 0 <= i < |xs| ==> c !in xs[i]
    ensures Split(Join(xs, [c]), c) == xs
  {
    if |xs| == 1 {
      SplitNoSeparator(xs[0], c);
    } else {
      SplitJoin(xs[1..], c);
      assert xs[0] + [c] + Join(xs[1..], [c]) == Join(xs, [c]);
      SplitAfterPiece(xs[0], c, Join(xs[1..], [c]));
      assert [xs[0]] + xs[1..] == xs;
    }
  }

  /** Text without the separator is one piece. */
  lemma {:induction false} SplitNoSeparator(s: string, c: char)
    requires c !in s
    ensures Split(s, c) == [s]
  {
    if s != "" {
      assert s[0] != c;
      SplitNoSeparator(s[1..], c);
      assert [s[0]] + s[1..] == s;
    }
  }

  /** Every piece but the first, prefixed with `pad`. */
  function PadTail(xs: seq<string>, pad: string): (r: seq<string>)
    requires |xs| >= 1
    ensures |r| == |xs|
    ensures r[0] == xs[0] && forall i :: 1 <= i < |xs| ==> r[i] == pad + xs[i]
  {
    [xs[0]] + seq(|xs| - 1, i requires 0 <= i < |xs| - 1 => pad + xs[i + 1])
  }

  /**
   * Joining with the separator followed by padding, then splitting on the separator,
   * gives the pieces with the padding in front of every piece but the first.
   */
  lemma {:induction false} SplitJoinPadded(xs: seq<string>, c: char, pad: string)
    requires |xs| >= 1
    requires forall i :: 0 <= i < |xs| ==> c !in xs[i]
    requires c !in pad
    ensures Split(Join(xs, [c] + pad), c) == PadTail(xs, pad)
    decreases |xs|
  {
    if |xs| == 1 {
      SplitNoSeparator(xs[0], c);
    } else {
      var sep := [c] + pad;
      var rest := xs[1..];
      var shifted := [pad + rest[0]] + rest[1..];
      assert c !in pad + rest[0] by {
        assert forall k :: 0 <= k < |pad + rest[0]| ==> (pad + rest[0])[k] in pad || (pad + rest[0])[k] in rest[0];
      }
      assert forall i :: 1 <= i < |shifted| ==> shifted[i] == rest[i];
      SplitJoinPadded(shifted, c, pad);
      JoinPrefixFirst(pad, rest, sep);
      assert Join(xs, sep) == xs[0] + [c] + (pad + Join(rest, sep));
      SplitAfterPiece(xs[0], c, pad + Join(rest, sep));
      var r := PadTail(xs, pad);
      var q := [xs[0]] + PadTail(shifted, pad);
      assert |q| == |r|;
      forall i | 0 <= i < |r| ensures q[i] == r[i] {
        if i >= 2 { assert q[i] == pad + shifted[i - 1] && shifted[i - 1] == rest[i - 1] == xs[i]; }
      }
      assert q == r;
    }
  }

  /** Trims every piece. */
  function TrimAll(xs: seq<string>): (r: seq<string>)
    ensures |r| == |xs| && forall i :: 0 <= i < |xs| ==> r[i] == Trim(xs[i])
  {
    seq(|xs|, i requires 0 <= i < |xs| => Trim(xs[i]))
  }

  /**
   * `input.split(sep).map(t => t.trim()).filter(t => t.length > 0)`: the items are
   * non-empty, trimmed and free of the separator, there are no more of them than
   * separator-delimited pieces of the input.
   */
  function ParseList(input: string, sep: char): (r: seq<string>)
    ensures forall t :: t in r ==> t != "" && IsTrimmed(t) && sep !in t
    ensures |r| <= |Split(input, sep)|
  {
    var pieces := Split(input, sep);
    var trimmed := TrimAll(pieces);
    assert forall k :: 0 <= k < |trimmed| ==> sep !in trimmed[k] by {
      forall k | 0 <= k < |trimmed| ensures sep !in trimmed[k] {
        TrimKeepsOut(pieces[k], sep);
      }
    }
    Filter(trimmed, (t: string) => |t| > 0)
  }

  /** Parsing drops only blank pieces: every piece with a non-blank trim is an item. */
  lemma ParseListKeeps(input: string, sep: char, i: nat)
    requires i < |Split(input, sep)| && Trim(Split(input, sep)[i]) != ""
    ensures Trim(Split(input, sep)[i]) in ParseList(input, sep)
  {
    var trimmed := TrimAll(Split(input, sep));
    assert trimmed[i] in trimmed;
  }

  /**
   * Parsing keeps the input's order: the items of the text up to the first
   * separator come first, followed by the items of the rest.
   */
  lemma ParseListCons(x: string, sep: char, rest: string)
    requires sep !in x
    ensures ParseList(x + [sep] + rest, sep) == ParseList(x, sep) + ParseList(rest, sep)
  {
    SplitAfterPiece(x, sep, rest);
    SplitNoSeparator(x, sep);
    var tail := Split(rest, sep);
    assert TrimAll([x] + tail) == TrimAll([x]) + TrimAll(tail);
    FilterConcat(TrimAll([x]), TrimAll(tail), (t: string) => |t| > 0);
  }

  /**
   * Round trip of the project form: items that are non-empty, already trimmed and
   * free of the separator, joined with the separator and whitespace padding (", "
   * for tags, "\n" for features) and parsed again, come back unchanged and in order.
   */
  lemma ParseJoinRoundTrip(xs: seq<string>, sep: char, pad: string)
    requires forall i :: 0 <= i < |xs| ==> xs[i] != "" && IsTrimmed(xs[i]) && sep !in xs[i]
    requires forall i :: 0 <= i < |pad| ==> IsWhitespace(pad[i])
    requires sep !in pad
    ensures ParseList(Join(xs, [sep] + pad), sep) == xs
  {
    var keep := (t: string) => |t| > 0;
    if xs == [] {
      assert Split("", sep) == [""];
      assert TrimAll([""]) == [""];
      assert Filter([""], keep) == Filter([], keep) == [];
    } else {
      SplitJoinPadded(xs, sep, pad);
      TrimPadTail(xs, pad);
      assert forall x :: x in xs ==> keep(x);
    }
  }

  /** Trimming the padded pieces undoes the padding. */
  lemma TrimPadTail(xs: seq<string>, pad: string)
    requires |xs| >= 1
    requires forall i :: 0 <= i < |xs| ==> IsTrimmed(xs[i])
    requires forall i :: 0 <= i < |pad| ==> IsWhitespace(pad[i])
    ensures TrimAll(PadTail(xs, pad)) == xs
  {
    var r := TrimAll(PadTail(xs, pad));
    forall i | 0 <= i < |xs| ensures r[i] == xs[i] {
      TrimPaddedPiece(xs, pad, i);
    }
  }

  lemma TrimPaddedPiece(xs: seq<string>, pad: string, i: nat)
    requires i < |xs| && IsTrimmed(xs[i])
    requires forall k :: 0 <= k < |pad| ==> IsWhitespace(pad[k])
    ensures Trim(PadTail(xs, pad)[i]) == xs[i]
  {
    if i == 0 {
      assert "" + xs[0] == xs[0];
      TrimPadded("", xs[0]);
    } else {
      TrimPadded(pad, xs[i]);
    }
  }

  /** `tagsInput.split(',').map(t => t.trim()).filter(t => t.length > 0)`. */
  function ParseTags(input: string): seq<string> { ParseList(input, ',') }

  /** `featuresInput.split('\n').map(f => f.trim()).filter(f => f.length > 0)`. */
  function ParseFeatures(input: string): seq<string> { ParseList(input, '\n') }

  /** `project.tags.join(', ')`, as the edit form shows the tags. */
  function ShowTags(tags: seq<string>): string { Join(tags, ", ") }

  /** `project.features.join('\n')`, as the edit form shows the features. */
  function ShowFeatures(features: seq<string>): string { Join(features, "\n") }

  /** Editing a project and saving it unchanged keeps its tags, when the tags are well-formed. */
  lemma TagsRoundTrip(tags: seq<string>)
    requires forall i :: 0 <= i < |tags| ==> tags[i] != "" && IsTrimmed(tags[i]) && ',' !in tags[i]
    ensures ParseTags(ShowTags(tags)) == tags
  {
    assert ", " == [','] + " ";
    ParseJoinRoundTrip(tags, ',', " ");
  }

  /** Editing a project and saving it unchanged keeps its features, when the features are well-formed. */
  lemma FeaturesRoundTrip(features: seq<string>)
    requires forall i :: 0 <= i < |features| ==> features[i] != "" && IsTrimmed(features[i]) && '\n' !in features[i]
    ensures ParseFeatures(ShowFeatures(features)) == features
  {
    assert "\n" == ['\n'] + "";
    ParseJoinRoundTrip(features, '\n', "");
  }
}
