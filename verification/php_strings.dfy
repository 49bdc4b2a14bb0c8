/** The few PHP string built-ins the script relies on: `trim`, `str_starts_with`,
    `explode` with a limit of 2 padded by `array_pad`, and the `?:` operator
    applied to a `getenv` result. */
module PhpStrings {
  import opened Basics

  /** The characters `trim` strips by default: space, tab, line feed,
      carriage return, NUL and vertical tab. */
  predicate IsBlank(c: char) {
    c == ' ' || c == '\t' || c == '\n' || c == '\r' || c == '\0' || c == '\U{B}'
  }

  predicate AllBlank(s: string) {
    forall i :: 0 <= i < |s| ==> IsBlank(s[i])
  }

  /** A string `trim` leaves alone: empty, or without blanks at either end. */
  predicate IsTrimmed(s: string) {
    s == [] || (!IsBlank(s[0]) && !IsBlank(s[|s| - 1]))
  }

  /** Length of the longest all-blank prefix. */
  function LeadingBlanks(s: string): (n: nat)
    ensures n <= |s|
    ensures AllBlank(s[..n])
    ensures n < |s| ==> !IsBlank(s[n])
  {
    if s == [] || !IsBlank(s[0]) then 0
    else
      var m := LeadingBlanks(s[1..]);
      assert s[1..][..m] == s[1..m + 1];
      1 + m
  }

  /** Length of the longest all-blank suffix. */
  function TrailingBlanks(s: string): (n: nat)
    ensures n <= |s|
    ensures AllBlank(s[|s| - n..])
    ensures n < |s| ==> !IsBlank(s[|s| - n - 1])
  {
    if s == [] || !IsBlank(s[|s| - 1]) then 0
    else
      var m := TrailingBlanks(s[..|s| - 1]);
      assert s[..|s| - 1][|s| - 1 - m..] == s[|s| - 1 - m..|s| - 1];
      1 + m
  }

  /** PHP `trim($s)`: `s` with its blank prefix and blank suffix removed. */
  function Trim(s: string): string {
    var p := LeadingBlanks(s);
    var t := s[p..];
    t[..|t| - TrailingBlanks(t)]
  }

  /** The trim of `s` is the unique trimmed string that `s` pads with
      blanks on both sides. */
  lemma TrimStripsBlanks(s: string)
    ensures IsTrimmed(Trim(s))
    ensures var p := LeadingBlanks(s);
      var r := Trim(s);
      && p + |r| <= |s|
      && s[p..p + |r|] == r
      && AllBlank(s[..p])
      && AllBlank(s[p + |r|..])
  {
    var p := LeadingBlanks(s);
    var t := s[p..];
    var q := TrailingBlanks(t);
    SliceOfSuffix(s, p, |t| - q);
    TrimEnds(t, q);
  }

  /** A prefix of a suffix is a slice, and what follows it is a suffix. */
  lemma SliceOfSuffix(s: string, i: nat, j: nat)
    requires i + j <= |s|
    ensures s[i..][..j] == s[i..i + j]
    ensures s[i..][j..] == s[i + j..]
  {
  }

  /** Cutting a string without leading blanks just after its last non-blank
      leaves a trimmed string. */
  lemma TrimEnds(t: string, q: nat)
    requires q <= |t|
    requires q < |t| ==> !IsBlank(t[|t| - q - 1])
    requires t == [] || !IsBlank(t[0])
    ensures IsTrimmed(t[..|t| - q])
  {
    var r := t[..|t| - q];
    if r != [] {
      assert r[0] == t[0];
      assert r[|r| - 1] == t[|t| - q - 1];
    }
  }

  /** A string that is already trimmed is its own trim. */
  lemma {:induction false} TrimOfTrimmed(s: string)
    requires IsTrimmed(s)
    ensures Trim(s) == s
  {
    assert LeadingBlanks(s) == 0;
    assert TrailingBlanks(s) == 0;
  }

  /** `trim` is idempotent. */
  lemma TrimIdempotent(s: string)
    ensures Trim(Trim(s)) == Trim(s)
  {
    TrimOfTrimmed(Trim(s));
  }

  /** Surrounding a trimmed string with blanks does not change its trim. */
  lemma {:induction false} TrimIgnoresPadding(pre: string, s: string, post: string)
    requires AllBlank(pre) && AllBlank(post)
    requires IsTrimmed(s) && s != []
    ensures Trim(pre + s + post) == s
  {
    var w := pre + s + post;
    var p := LeadingBlanks(w);
    LeadingBlanksOfPadded(pre, s + post);
    assert (pre + (s + post)) == w;
    assert p == |pre|;
    assert w[p..] == s + post;
    TrailingBlanksOfPadded(s, post);
  }

  lemma {:induction false} LeadingBlanksOfPadded(pre: string, rest: string)
    requires AllBlank(pre)
    requires rest != [] && !IsBlank(rest[0])
    ensures LeadingBlanks(pre + rest) == |pre|
  {
    if pre != [] {
      assert (pre + rest)[1..] == pre[1..] + rest;
      LeadingBlanksOfPadded(pre[1..], rest);
    } else {
      assert pre + rest == rest;
    }
  }

  lemma {:induction false} TrailingBlanksOfPadded(body: string, post: string)
    requires AllBlank(post)
    requires body != [] && !IsBlank(body[|body| - 1])
    ensures TrailingBlanks(body + post) == |post|
  {
    if post != [] {
      var w := body + post;
      assert w[..|w| - 1] == body + post[..|post| - 1];
      TrailingBlanksOfPadded(body, post[..|post| - 1]);
    } else {
      assert body + post == body;
    }
  }

  /** PHP `str_starts_with($s, $prefix)` for a one-character prefix. */
  predicate StartsWith(s: string, c: char) {
    |s| > 0 && s[0] == c
  }

  /** Position of the first `c` in `s`, or `|s|` when there is none. */
  function IndexOf(s: string, c: char): (i: nat)
    ensures i <= |s|
    ensures c !in s[..i]
    ensures i < |s| ==> s[i] == c
  {
    if s == [] then 0
    else if s[0] == c then 0
    else
      var j := IndexOf(s[1..], c);
      assert s[..j + 1] == [s[0]] + s[1..][..j];
      1 + j
  }

  /** `array_pad(explode($sep, $s, 2), 2, '')`: the text before the first
      separator and the text after it; with no separator, the whole string
      and the empty string. */
  function SplitFirst(s: string, sep: char): (r: (string, string))
    ensures sep !in r.0
    ensures sep in s ==> r.0 + [sep] + r.1 == s
    ensures sep !in s ==> r == (s, "")
  {
    var i := IndexOf(s, sep);
    if i < |s| then
      assert s == s[..i] + [sep] + s[i + 1..];
      (s[..i], s[i + 1..])
    else
      assert s[..i] == s;
      (s, "")
  }

  /** Splitting a string assembled around a separator-free head recovers the parts. */
  lemma SplitFirstOfJoin(head: string, sep: char, tail: string)
    requires sep !in head
    ensures SplitFirst(head + [sep] + tail, sep) == (head, tail)
  {
    var s := head + [sep] + tail;
    var i := IndexOf(s, sep);
    assert s[|head|] == sep;
    assert s[..i] == head;
    assert s[i + 1..] == tail;
  }

  /** PHP truthiness of a `getenv` result: `false` (unset), "" and "0" are falsy. */
  predicate Truthy(v: Option<string>) {
    v.Some? && v.value != "" && v.value != "0"
  }

  /** PHP `$v ?: $fallback`. */
  function Elvis(v: Option<string>, fallback: string): string
  {
    if Truthy(v) then v.value else fallback
  }
}
