/** The slug part built from a student's name:
    `studentName.toLowerCase().replace(/\s+/g, "-")`. */
module Slug {

  /** The characters JavaScript's `\s` class matches: tab, line feed,
      vertical tab, form feed, carriage return, space, and the Unicode space
      separators, line and paragraph separators and the byte order mark. */
  predicate IsSpace(c: char) {
    || ('\t' <= c <= '\r')
    || c == ' '
    || c == '\U{00A0}'
    || c == '\U{1680}'
    || ('\U{2000}' <= c <= '\U{200A}')
    || c == '\U{2028}'
    || c == '\U{2029}'
    || c == '\U{202F}'
    || c == '\U{205F}'
    || c == '\U{3000}'
    || c == '\U{FEFF}'
  }

  predicate IsUpper(c: char) {
    'A' <= c <= 'Z'
  }

  predicate NoSpace(s: string) {
    forall i :: 0 <= i < |s| ==> !IsSpace(s[i])
  }

  predicate AllSpace(s: string) {
    forall i :: 0 <= i < |s| ==> IsSpace(s[i])
  }

  predicate NoUpper(s: string) {
    forall i :: 0 <= i < |s| ==> !IsUpper(s[i])
  }

  function LowerChar(c: char): char {
    if IsUpper(c) then (c as int + 32) as char else c
  }

  /** `toLowerCase`, on ASCII letters. */
  function Lower(s: string): (r: string)
    ensures |r| == |s| && NoUpper(r)
    ensures forall i :: 0 <= i < |s| ==>
      && (IsUpper(s[i]) ==> r[i] as int == s[i] as int + 32)
      && (!IsUpper(s[i]) ==> r[i] == s[i])
    ensures forall i :: 0 <= i < |s| ==> IsSpace(r[i]) == IsSpace(s[i])
    ensures NoUpper(s) ==> r == s
  {
    seq(|s|, i requires 0 <= i < |s| => LowerChar(s[i]))
  }

  /** Drops the whitespace at the front of `s`. */
  function SkipSpaces(s: string): (r: string)
    ensures |r| <= |s| && r == s[|s| - |r|..]
    ensures r == [] || !IsSpace(r[0])
    ensures AllSpace(s[..|s| - |r|])
  {
    if s != [] && IsSpace(s[0]) then SkipSpaces(s[1..]) else s
  }

  /** `replace(/\s+/g, "-")`: every maximal run of whitespace becomes one `-`. */
  function Hyphenate(s: string): (r: string)
    ensures NoSpace(r) && |r| <= |s|
    ensures forall c :: c in r ==> c == '-' || c in s
    decreases |s|
  {
    if s == [] then []
    else if IsSpace(s[0]) then "-" + Hyphenate(SkipSpaces(s[1..]))
    else [s[0]] + Hyphenate(s[1..])
  }

  /** The slugified student name. */
  function Slugify(name: string): (r: string)
    ensures NoSpace(r) && NoUpper(r)
  {
    var r := Hyphenate(Lower(name));
    assert forall c :: c in Lower(name) ==> !IsUpper(c);
    r
  }

  /** A stretch without whitespace is copied through unchanged. */
  lemma {:induction false} HyphenateWord(w: string, s: string)
    requires NoSpace(w)
    ensures Hyphenate(w + s) == w + Hyphenate(s)
  {
    if w != [] {
      var ws := w + s;
      assert ws[0] == w[0] && ws[1..] == w[1..] + s;
      assert Hyphenate(ws) == [w[0]] + Hyphenate(w[1..] + s);
      HyphenateWord(w[1..], s);
      assert w + Hyphenate(s) == [w[0]] + (w[1..] + Hyphenate(s));
    } else {
      assert w + s == s;
    }
  }

  lemma {:induction false} SkipSpacesRun(w: string, s: string)
    requires AllSpace(w)
    requires s == [] || !IsSpace(s[0])
    ensures SkipSpaces(w + s) == s
  {
    if w != [] {
      assert (w + s)[1..] == w[1..] + s;
      SkipSpacesRun(w[1..], s);
    }
  }

  /** A maximal run of whitespace becomes exactly one hyphen. */
  lemma HyphenateRun(w: string, s: string)
    requires |w| > 0 && AllSpace(w)
    requires s == [] || !IsSpace(s[0])
    ensures Hyphenate(w + s) == "-" + Hyphenate(s)
  {
    assert (w + s)[1..] == w[1..] + s;
    SkipSpacesRun(w[1..], s);
  }

  /** A string without whitespace is its own hyphenation. */
  lemma HyphenateNoSpace(s: string)
    requires NoSpace(s)
    ensures Hyphenate(s) == s
  {
  }

  /** Slugifying a slug changes nothing. */
  lemma SlugifyIdempotent(name: string)
    ensures Slugify(Slugify(name)) == Slugify(name)
  {
    var r := Slugify(name);
    HyphenateNoSpace(r);
  }

  /** A name without whitespace is only lowercased. */
  lemma SlugifyWithoutSpace(name: string)
    requires NoSpace(name)
    ensures Slugify(name) == Lower(name)
  {
    HyphenateNoSpace(Lower(name));
  }
}
