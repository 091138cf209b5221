/** Strings as sequences of scalar values, with their UTF-8 lengths and a first-occurrence search. */
module Text {
  import opened Wrappers

  function Utf8Length(c: char): nat {
    if c < 0x80 as char then 1 else if c < 0x800 as char then 2 else if c < 0x1_0000 as char then 3 else 4
  }

  /** `str::len`: the number of bytes. */
  function Bytes(s: string): nat {
    if s == [] then 0 else Bytes(s[..|s| - 1]) + Utf8Length(s[|s| - 1])
  }

  lemma {:induction false} BytesConcat(a: string, b: string)
    ensures Bytes(a + b) == Bytes(a) + Bytes(b)
    decreases |b|
  {
    if b == [] {
      assert a + b == a;
    } else {
      assert (a + b)[..|a + b| - 1] == a + b[..|b| - 1];
      BytesConcat(a, b[..|b| - 1]);
    }
  }

  lemma {:induction false} BytesAtLeastChars(s: string)
    ensures |s| <= Bytes(s)
  {
    if s != [] { BytesAtLeastChars(s[..|s| - 1]); }
  }

  predicate OccursAt(text: string, pattern: string, i: nat) {
    i + |pattern| <= |text| && text[i..i + |pattern|] == pattern
  }

  /** `str::find`: the first occurrence at or after `from`. */
  function Find(text: string, pattern: string, from: nat := 0): (r: Option<nat>)
    requires from <= |text|
    ensures r.Some? ==> from <= r.value && OccursAt(text, pattern, r.value)
                        && forall j :: from <= j < r.value ==> !OccursAt(text, pattern, j)
    ensures r.None? ==> forall j :: from <= j ==> !OccursAt(text, pattern, j)
    decreases |text| - from
  {
    if OccursAt(text, pattern, from) then Some(from)
    else if from == |text| then None
    else Find(text, pattern, from + 1)
  }

  /** The first occurrence is the one with none before it. */
  lemma FindIs(text: string, pattern: string, i: nat)
    requires OccursAt(text, pattern, i) && forall j :: 0 <= j < i ==> !OccursAt(text, pattern, j)
    ensures Find(text, pattern) == Some(i)
  {
    var r := Find(text, pattern);
    assert r.Some?;
  }

  /** The Unicode `White_Space` property, as `char::is_whitespace` decides it. */
  predicate IsWhitespace(c: char) {
    var n := c as int;
    || 0x9 <= n <= 0xD || n == 0x20 || n == 0x85 || n == 0xA0 || n == 0x1680 || 0x2000 <= n <= 0x200A
    || n == 0x2028 || n == 0x2029 || n == 0x202F || n == 0x205F || n == 0x3000
  }

  predicate WhitespaceUntil(s: string, n: nat) { n <= |s| && forall i :: 0 <= i < n ==> IsWhitespace(s[i]) }

  /** The index of the first character that is not white space, or the length. */
  function SkipWhitespace(s: string, from: nat := 0): (n: nat)
    requires WhitespaceUntil(s, from)
    ensures WhitespaceUntil(s, n) && (n < |s| ==> !IsWhitespace(s[n]))
    decreases |s| - from
  {
    if from == |s| || !IsWhitespace(s[from]) then from else SkipWhitespace(s, from + 1)
  }

  predicate Lacks(s: string, c: char) { forall i :: 0 <= i < |s| ==> s[i] != c }

  lemma FindChar(text: string, c: char)
    ensures var r := Find(text, [c]);
            && (r.Some? ==> r.value < |text| && text[r.value] == c && Lacks(text[..r.value], c))
            && (r.None? ==> Lacks(text, c))
  {
    forall i: nat ensures OccursAt(text, [c], i) <==> i < |text| && text[i] == c { }
  }

  /** A pattern is found at the end of a text that lacks its first character. */
  lemma FindAfter(a: string, pattern: string, b: string)
    requires pattern != [] && Lacks(a, pattern[0])
    ensures Find(a + pattern + b, pattern) == Some(|a|)
  {
    var text := a + pattern + b;
    assert text[|a|..|a| + |pattern|] == pattern;
    forall j | 0 <= j < |a| ensures !OccursAt(text, pattern, j) {
      assert j + |pattern| <= |text| ==> text[j..j + |pattern|][0] == a[j];
    }
    FindIs(text, pattern, |a|);
  }

  function TrimEnd(s: string): string {
    if s != [] && IsWhitespace(s[|s| - 1]) then TrimEnd(s[..|s| - 1]) else s
  }

  /** `str::trim`. */
  function Trim(s: string): string { TrimEnd(s[SkipWhitespace(s)..]) }
}
