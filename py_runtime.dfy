/** The pieces of Python's string semantics the server relies on:
    `str.strip()` with no argument, which the REST framework's `CharField`
    applies to every submitted value (its `trim_whitespace` is on by default),
    and `str.rsplit(sep, 1)`, with which Django's user manager splits an
    email address. */
module PyRuntime {
  import opened Wrappers
  import Whitespace

  /** A character for which `str.isspace()` holds: the ASCII controls 9-13
      and 28-31, the space, U+0085, U+00A0 and the Unicode space separators
      and line and paragraph separators. Unlike JavaScript, U+FEFF is not
      white space here, and U+001C-U+001F and U+0085 are. */
  predicate IsSpace(c: char) {
    || ('\t' <= c <= '\r')
    || ('\U{001C}' <= c <= '\U{001F}')
    || c == ' ' || c == '\U{0085}' || c == '\U{00A0}' || c == '\U{1680}'
    || ('\U{2000}' <= c <= '\U{200A}')
    || c == '\U{2028}' || c == '\U{2029}' || c == '\U{202F}' || c == '\U{205F}'
    || c == '\U{3000}'
  }

  /** Every character is white space (the empty string included). */
  predicate IsBlank(s: string) {
    Whitespace.AllIn(IsSpace, s)
  }

  /** `s.strip()`. */
  function Strip(s: string): (r: string)
    ensures |r| <= |s|
    ensures r == "" <==> IsBlank(s)
  {
    Whitespace.StripEmptyIffBlank(IsSpace, s);
    Whitespace.Strip(IsSpace, s)
  }

  /** Stripping keeps every character that is not white space, such as
      U+0000. */
  lemma StripKeeps(s: string, c: char)
    requires !IsSpace(c)
    ensures c in Strip(s) <==> c in s
  {
    Whitespace.StripKeeps(IsSpace, s, c);
  }

  /** `s.rsplit(sep, 1)` unpacked into two parts: the text before the last
      `sep` and the text after it. None when `sep` does not occur, where the
      unpacking raises `ValueError`. */
  function RSplitOnce(s: string, sep: char): (r: Option<(string, string)>)
    ensures r.None? <==> sep !in s
    ensures r.Some? ==> s == r.value.0 + [sep] + r.value.1 && sep !in r.value.1
  {
    if |s| == 0 then None
    else
      assert s == s[..|s| - 1] + [s[|s| - 1]];
      if s[|s| - 1] == sep then Some((s[..|s| - 1], []))
      else match RSplitOnce(s[..|s| - 1], sep)
        case None => None
        case Some((before, after)) => Some((before, after + [s[|s| - 1]]))
  }

  /** Splitting at the last separator undoes joining with one, when the
      second part holds no separator. */
  lemma {:induction false} RSplitOnceOfJoin(before: string, after: string, sep: char)
    requires sep !in after
    ensures RSplitOnce(before + [sep] + after, sep) == Some((before, after))
    decreases |after|
  {
    var s := before + [sep] + after;
    if |after| == 0 {
      assert s[..|s| - 1] == before;
    } else {
      var rest := after[..|after| - 1];
      assert s[..|s| - 1] == before + [sep] + rest;
      assert sep !in rest by {
        assert forall k :: 0 <= k < |rest| ==> rest[k] == after[k];
      }
      RSplitOnceOfJoin(before, rest, sep);
      assert rest + [s[|s| - 1]] == after;
    }
  }

  /** A string already stripped is left alone. */
  lemma StripIdempotent(s: string)
    ensures Strip(Strip(s)) == Strip(s)
  {
    Whitespace.StripIdempotent(IsSpace, s);
  }
}
