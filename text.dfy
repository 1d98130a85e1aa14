/** The Python string operations the browser relies on, over `seq<char>`:
    `startswith`, the `in` test for substrings, `replace(p, "")`, ASCII
    `lower()` and `str.format` with a single positional argument. */
module Text {
  import opened Wrappers

  /** `s.startswith(p)`. */
  predicate StartsWith(s: string, p: string) {
    |p| <= |s| && s[..|p|] == p
  }

  /** `sub` occurs in `s` at position `i`. */
  predicate OccursAt(s: string, sub: string, i: int) {
    0 <= i && i + |sub| <= |s| && s[i..i + |sub|] == sub
  }

  /** `sub in s`, scanning `s` from the left. */
  predicate Contains(s: string, sub: string)
    decreases |s|
  {
    StartsWith(s, sub) || (|s| > 0 && Contains(s[1..], sub))
  }

  /** The scan finds `sub` exactly when it occurs somewhere in `s`. */
  lemma {:induction false} ContainsIffOccurs(s: string, sub: string)
    ensures Contains(s, sub) <==> exists i :: OccursAt(s, sub, i)
    decreases |s|
  {
    if StartsWith(s, sub) {
      assert OccursAt(s, sub, 0);
    } else if |s| == 0 {
      assert |sub| > 0;
    } else {
      ContainsIffOccurs(s[1..], sub);
      if Contains(s[1..], sub) {
        var j :| OccursAt(s[1..], sub, j);
        assert s[1..][j..j + |sub|] == s[j + 1..j + 1 + |sub|];
        assert OccursAt(s, sub, j + 1);
      }
      if i :| OccursAt(s, sub, i) {
        assert i != 0;
        assert s[1..][i - 1..i - 1 + |sub|] == s[i..i + |sub|];
        assert OccursAt(s[1..], sub, i - 1);
      }
    }
  }

  /** `s.replace(p, "")`: every non-overlapping occurrence of `p`, found from
      the left, is dropped. */
  function RemoveAll(s: string, p: string): string
    requires |p| > 0
    decreases |s|
  {
    if |s| < |p| then s
    else if s[..|p|] == p then RemoveAll(s[|p|..], p)
    else [s[0]] + RemoveAll(s[1..], p)
  }

  /** Removing a pattern that does not occur gives the string back. */
  lemma {:induction false} RemoveAllAbsent(s: string, p: string)
    requires |p| > 0 && !Contains(s, p)
    ensures RemoveAll(s, p) == s
    decreases |s|
  {
    if |s| >= |p| {
      assert !StartsWith(s, p);
      RemoveAllAbsent(s[1..], p);
      assert [s[0]] + s[1..] == s;
    }
  }

  /** A leading occurrence of the pattern is removed and the scan goes on
      with what follows it. */
  lemma RemoveAllLeading(p: string, s: string)
    requires |p| > 0
    ensures RemoveAll(p + s, p) == RemoveAll(s, p)
  {
    assert (p + s)[..|p|] == p;
    assert (p + s)[|p|..] == s;
  }

  /** Removing `p` from `p + s` gives `s` back when `s` does not hold `p`. */
  lemma RemovePrefixRestores(p: string, s: string)
    requires |p| > 0 && !Contains(s, p)
    ensures RemoveAll(p + s, p) == s
  {
    RemoveAllLeading(p, s);
    RemoveAllAbsent(s, p);
  }

  /** Python's `str.lower()` on ASCII letters. */
  function LowerChar(c: char): char {
    if 'A' <= c <= 'Z' then (c as int + 32) as char else c
  }

  function Lower(s: string): string {
    seq(|s|, i requires 0 <= i < |s| => LowerChar(s[i]))
  }

  /** Lower-casing leaves no ASCII capital behind, so doing it twice is
      doing it once, and it gives back a string that has no capital. */
  lemma LowerFolds(s: string)
    ensures forall i :: 0 <= i < |Lower(s)| ==> !('A' <= Lower(s)[i] <= 'Z')
    ensures Lower(Lower(s)) == Lower(s)
    ensures (forall i :: 0 <= i < |s| ==> !('A' <= s[i] <= 'Z')) ==> Lower(s) == s
  {
  }

  /** A string with no brace holds no replacement field and no escape. */
  predicate BraceFree(s: string) {
    forall i :: 0 <= i < |s| ==> s[i] != '{' && s[i] != '}'
  }

  /** How fields have been numbered so far: `{}` is automatic, `{0}` manual,
      and Python refuses to mix the two in one template. */
  datatype Numbering = Unnumbered | Automatic | Manual

  datatype FormatError =
    | IndexOutOfRange   // a second `{}` asks for argument 1, which is absent
    | MixedNumbering    // `{}` and `{0}` in the same template
    | BadBrace          // a lone `}`, an unclosed `{`, or a field this model does not read

  function Prepend(p: string, r: Result<string, FormatError>): Result<string, FormatError> {
    match r
    case Ok(s) => Ok(p + s)
    case Err(e) => Err(e)
  }

  /** `template.format(arg)` from position 0 of `t` on, given the numbering
      seen so far. */
  function FormatFrom(t: string, arg: string, mode: Numbering): Result<string, FormatError>
    decreases |t|
  {
    if |t| == 0 then Ok("")
    else if StartsWith(t, "{{") then Prepend("{", FormatFrom(t[2..], arg, mode))
    else if StartsWith(t, "}}") then Prepend("}", FormatFrom(t[2..], arg, mode))
    else if StartsWith(t, "{}") then
      if mode == Manual then Err(MixedNumbering)
      else if mode == Automatic then Err(IndexOutOfRange)
      else Prepend(arg, FormatFrom(t[2..], arg, Automatic))
    else if StartsWith(t, "{0}") then
      if mode == Automatic then Err(MixedNumbering)
      else Prepend(arg, FormatFrom(t[3..], arg, Manual))
    else if t[0] == '{' || t[0] == '}' then Err(BadBrace)
    else Prepend([t[0]], FormatFrom(t[1..], arg, mode))
  }

  /** `template.format(arg)`. */
  function Format(template: string, arg: string): Result<string, FormatError> {
    FormatFrom(template, arg, Unnumbered)
  }

  /** A character that is not a brace is copied and the scan moves on. */
  lemma PlainStep(t: string, arg: string, mode: Numbering)
    requires |t| > 0 && t[0] != '{' && t[0] != '}'
    ensures FormatFrom(t, arg, mode) == Prepend([t[0]], FormatFrom(t[1..], arg, mode))
  {
    assert !StartsWith(t, "{{") && !StartsWith(t, "}}") && !StartsWith(t, "{}") && !StartsWith(t, "{0}") by {
      assert forall p: string :: |p| > 0 && StartsWith(t, p) ==> p[0] == t[0];
    }
  }

  /** A `{}` at the front is the field of the one argument, or an error
      when a field was already numbered. */
  lemma PlaceholderStep(post: string, arg: string, mode: Numbering)
    ensures FormatFrom("{}" + post, arg, mode) ==
      match mode
      case Unnumbered => Prepend(arg, FormatFrom(post, arg, Automatic))
      case Automatic => Err(IndexOutOfRange)
      case Manual => Err(MixedNumbering)
  {
    var t := "{}" + post;
    assert StartsWith(t, "{}") && !StartsWith(t, "{{") && !StartsWith(t, "}}");
    assert t[2..] == post;
  }

  /** Text without braces is copied through unchanged. */
  lemma {:induction false} FormatBraceFree(s: string, arg: string, mode: Numbering)
    requires BraceFree(s)
    ensures FormatFrom(s, arg, mode) == Ok(s)
    decreases |s|
  {
    if |s| > 0 {
      PlainStep(s, arg, mode);
      FormatBraceFree(s[1..], arg, mode);
      assert [s[0]] + s[1..] == s;
    }
  }

  /** `("{}" + post).format(arg) == arg + post` for brace-free `post`. */
  lemma LonePlaceholder(post: string, arg: string)
    requires BraceFree(post)
    ensures Format("{}" + post, arg) == Ok(arg + post)
  {
    PlaceholderStep(post, arg, Unnumbered);
    FormatBraceFree(post, arg, Automatic);
  }

  /** A template with one `{}` and no other brace puts the argument in the
      slot: `(pre + "{}" + post).format(arg) == pre + arg + post`. */
  lemma {:induction false} FormatOnePlaceholder(pre: string, post: string, arg: string)
    requires BraceFree(pre) && BraceFree(post)
    ensures Format(pre + "{}" + post, arg) == Ok(pre + arg + post)
    decreases |pre|
  {
    if |pre| == 0 {
      assert pre + "{}" + post == "{}" + post;
      assert pre + arg + post == arg + post;
      LonePlaceholder(post, arg);
    } else {
      var t := pre + "{}" + post;
      assert t[0] == pre[0] && t[1..] == pre[1..] + "{}" + post;
      PlainStep(t, arg, Unnumbered);
      FormatOnePlaceholder(pre[1..], post, arg);
      PrependChar(pre, arg, post);
    }
  }

  lemma PrependChar(s: string, a: string, b: string)
    requires |s| > 0
    ensures [s[0]] + (s[1..] + a + b) == s + a + b
  {
    assert [s[0]] + s[1..] == s;
  }

  /** Once `{}` has been used, the next `{}` raises an index error. */
  lemma {:induction false} SecondPlaceholderFails(mid: string, post: string, arg: string)
    requires BraceFree(mid)
    ensures FormatFrom(mid + "{}" + post, arg, Automatic) == Err(IndexOutOfRange)
    decreases |mid|
  {
    if |mid| == 0 {
      assert mid + "{}" + post == "{}" + post;
      PlaceholderStep(post, arg, Automatic);
    } else {
      var t := mid + "{}" + post;
      assert t[0] == mid[0];
      PlainStep(t, arg, Automatic);
      assert t[1..] == mid[1..] + "{}" + post;
      SecondPlaceholderFails(mid[1..], post, arg);
    }
  }

  /** A template with two `{}` cannot be filled from one argument: the
      second field raises. */
  lemma {:induction false} FormatTwoPlaceholdersFails(pre: string, mid: string, post: string, arg: string)
    requires BraceFree(pre) && BraceFree(mid)
    ensures Format(pre + "{}" + mid + "{}" + post, arg) == Err(IndexOutOfRange)
    decreases |pre|
  {
    if |pre| == 0 {
      assert pre + "{}" + mid + "{}" + post == "{}" + (mid + "{}" + post);
      PlaceholderStep(mid + "{}" + post, arg, Unnumbered);
      SecondPlaceholderFails(mid, post, arg);
    } else {
      var t := pre + "{}" + mid + "{}" + post;
      assert t[0] == pre[0];
      PlainStep(t, arg, Unnumbered);
      assert t[1..] == pre[1..] + "{}" + mid + "{}" + post;
      FormatTwoPlaceholdersFails(pre[1..], mid, post, arg);
    }
  }
}
