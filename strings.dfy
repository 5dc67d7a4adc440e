/** String operations the routes rely on: Array.prototype.join, indexOf-style
    search, and the decimal rendering of numbers in template literals. */
module Strings {
  import opened Types

  /** `parts.join(sep)`. */
  function Join(sep: string, parts: seq<string>): string
    decreases |parts|
  {
    if |parts| == 0 then ""
    else if |parts| == 1 then parts[0]
    else parts[0] + sep + Join(sep, parts[1..])
  }

  /** `pat` occurs in `s` starting at index `i`. */
  predicate OccursAt(s: string, pat: string, i: int) {
    0 <= i && i + |pat| <= |s| && s[i..i + |pat|] == pat
  }

  /** `s.includes(sub)`. */
  predicate Contains(s: string, sub: string) {
    exists i | 0 <= i <= |s| :: OccursAt(s, sub, i)
  }

  /** `s.indexOf(pat, from)`, with None for -1. */
  function FindFrom(s: string, pat: string, from: nat): (r: Option<nat>)
    decreases |s| - from
    ensures r.Some? ==> from <= r.value && OccursAt(s, pat, r.value)
    ensures r.Some? ==> forall j :: from <= j < r.value ==> !OccursAt(s, pat, j)
    ensures r.None? ==> forall j :: from <= j ==> !OccursAt(s, pat, j)
  {
    if from + |pat| > |s| then None
    else if s[from..from + |pat|] == pat then Some(from)
    else FindFrom(s, pat, from + 1)
  }

  function DigitChar(d: nat): char
    requires d < 10
  {
    "0123456789"[d]
  }

  /** Decimal digits of a natural number, without leading zeros. */
  function NatToString(n: nat): (r: string)
    decreases n
    ensures |r| > 0
    ensures forall k :: 0 <= k < |r| ==> '0' <= r[k] <= '9'
  {
    if n < 10 then [DigitChar(n)] else NatToString(n / 10) + [DigitChar(n % 10)]
  }

  /** How a template literal renders an integer. */
  function IntToString(n: int): string {
    if n < 0 then "-" + NatToString(-n) else NatToString(n)
  }

  /** `Math.round`: the nearest integer, a half rounded up. */
  function Round(x: real): (r: int)
    ensures x - 0.5 < r as real <= x + 0.5
  {
    (x + 0.5).Floor
  }

  /** How a template literal renders the number n/100: no trailing zeros in
      the fraction and no fraction at all for a whole number (385 is "3.85",
      380 is "3.8", 400 is "4"). */
  function HundredthsToString(n: int): string {
    var sign := if n < 0 then "-" else "";
    var m: nat := if n < 0 then -n else n;
    var whole := NatToString(m / 100);
    var frac := m % 100;
    if frac == 0 then sign + whole
    else if frac % 10 == 0 then sign + whole + "." + [DigitChar(frac / 10)]
    else sign + whole + "." + [DigitChar(frac / 10), DigitChar(frac % 10)]
  }

  /** `b` occurs in `a + b + c` right after `a`. */
  lemma OccursInMiddle(a: string, b: string, c: string)
    ensures OccursAt(a + b + c, b, |a|)
  {
    assert (a + b + c)[|a|..|a| + |b|] == b;
  }

  lemma {:induction false} JoinStartsWithFirst(sep: string, parts: seq<string>)
    requires |parts| > 0
    ensures parts[0] <= Join(sep, parts)
  {
  }

  /** Every part of a join occurs in the joined text. */
  lemma {:induction false} JoinContainsPart(sep: string, parts: seq<string>, i: nat)
    requires i < |parts|
    ensures Contains(Join(sep, parts), parts[i])
    decreases |parts|
  {
    if |parts| == 1 {
      assert OccursAt(Join(sep, parts), parts[i], 0);
    } else if i == 0 {
      OccursInMiddle([], parts[0], sep + Join(sep, parts[1..]));
      assert [] + parts[0] + (sep + Join(sep, parts[1..])) == Join(sep, parts);
    } else {
      JoinContainsPart(sep, parts[1..], i - 1);
      var rest := Join(sep, parts[1..]);
      assert Join(sep, parts) == parts[0] + sep + rest;
      ContainsAfter(parts[0] + sep, rest, parts[i]);
    }
  }

  /** A template literal: its literal pieces and interpolated values, in order. */
  function Template(parts: seq<string>): string
    decreases |parts|
  {
    if |parts| == 0 then "" else parts[0] + Template(parts[1..])
  }

  /** Every piece of a template occurs in the text it renders. */
  lemma {:induction false} TemplateContainsPart(parts: seq<string>, i: nat)
    requires i < |parts|
    ensures Contains(Template(parts), parts[i])
    decreases |parts|
  {
    if i == 0 {
      OccursInMiddle([], parts[0], Template(parts[1..]));
      assert [] + parts[0] + Template(parts[1..]) == Template(parts);
    } else {
      TemplateContainsPart(parts[1..], i - 1);
      ContainsWithin(Template(parts[1..]), parts[i], parts[0], "");
      assert parts[0] + Template(parts[1..]) + "" == Template(parts);
    }
  }

  /** A text contained in a contained text is contained. */
  lemma ContainsTransitive(s: string, mid: string, sub: string)
    requires Contains(s, mid) && Contains(mid, sub)
    ensures Contains(s, sub)
  {
    var k :| 0 <= k <= |s| && OccursAt(s, mid, k);
    var j :| 0 <= j <= |mid| && OccursAt(mid, sub, j);
    assert s[k..k + |mid|] == mid;
    forall d | 0 <= d < |sub|
      ensures s[k + j + d] == sub[d]
    {
      assert mid[j + d] == sub[d];
      assert s[k..k + |mid|][j + d] == s[k + j + d];
    }
    assert s[k + j..k + j + |sub|] == sub;
    assert OccursAt(s, sub, k + j);
  }

  /** Containment is preserved by putting text around. */
  lemma ContainsWithin(s: string, sub: string, pre: string, post: string)
    requires Contains(s, sub)
    ensures Contains(pre + s + post, sub)
  {
    var k :| 0 <= k <= |s| && OccursAt(s, sub, k);
    var t := pre + s + post;
    assert t[|pre| + k..|pre| + k + |sub|] == s[k..k + |sub|];
    assert OccursAt(t, sub, |pre| + k);
  }

  /** Containment is preserved by appending text. */
  lemma ContainsBefore(s: string, sub: string, post: string)
    requires Contains(s, sub)
    ensures Contains(s + post, sub)
  {
    var k :| 0 <= k <= |s| && OccursAt(s, sub, k);
    assert (s + post)[k..k + |sub|] == s[k..k + |sub|];
    assert OccursAt(s + post, sub, k);
  }

  /** Containment is preserved by prepending text. */
  lemma ContainsAfter(pre: string, s: string, sub: string)
    requires Contains(s, sub)
    ensures Contains(pre + s, sub)
  {
    var k :| 0 <= k <= |s| && OccursAt(s, sub, k);
    assert (pre + s)[|pre| + k..|pre| + k + |sub|] == s[k..k + |sub|];
    assert OccursAt(pre + s, sub, |pre| + k);
  }

  /** The lines each item contributes, item after item (a `forEach` that pushes). */
  function FlatMap<T>(items: seq<T>, lines: T -> seq<string>): seq<string>
    decreases |items|
  {
    if |items| == 0 then [] else FlatMap(items[..|items| - 1], lines) + lines(items[|items| - 1])
  }

  /** A list section: its header and the items' lines, or nothing for an
      absent or empty list. */
  function ListSection<T>(header: string, items: Option<seq<T>>, lines: T -> seq<string>): seq<string> {
    if NonEmptyList(items) then [header] + FlatMap(items.value, lines) else []
  }

  /** A one-line section: the header and the text on the same line, or
      nothing for an absent or empty text. */
  function InlineSection(header: string, text: Option<string>): seq<string> {
    if TruthyString(text) then [header + text.value] else []
  }

  /** A one-line list: the header and the items joined with ", ", or nothing
      for an absent or empty list. */
  function JoinedSection(header: string, items: Option<seq<string>>): seq<string> {
    if NonEmptyList(items) then [header + Join(", ", items.value)] else []
  }

  /** A list's header and lines are in a list section exactly when it is non-empty. */
  lemma ListSectionHolds<T>(header: string, items: Option<seq<T>>, lines: T -> seq<string>, i: nat, line: string)
    requires items.Some? && i < |items.value| && line in lines(items.value[i])
    ensures header in ListSection(header, items, lines) && line in ListSection(header, items, lines)
  {
    FlatMapHolds(items.value, lines, i, line);
  }

  /** An empty text prints as an absent one on a one-line section. */
  lemma NoFalsyInline(header: string, text: Option<string>)
    ensures InlineSection(header, if TruthyString(text) then text else None) == InlineSection(header, text)
  {
  }

  /** An empty list prints as an absent one on a one-line list. */
  lemma NoFalsyJoined(header: string, items: Option<seq<string>>)
    ensures JoinedSection(header, if NonEmptyList(items) then items else None) == JoinedSection(header, items)
  {
  }

  /** An empty list prints as an absent one. */
  lemma NoFalsyList<T>(header: string, items: Option<seq<T>>, lines: T -> seq<string>)
    ensures ListSection(header, if NonEmptyList(items) then items else None, lines) == ListSection(header, items, lines)
  {
  }

  /** The step of a loop over a list: the prefix one item longer. */
  lemma FlatMapStep<T>(items: seq<T>, k: nat, lines: T -> seq<string>)
    requires k < |items|
    ensures FlatMap(items[..k + 1], lines) == FlatMap(items[..k], lines) + lines(items[k])
  {
    assert items[..k + 1][..k] == items[..k];
  }

  /** Every line of every item is among the lines of the whole list. */
  lemma {:induction false} FlatMapHolds<T>(items: seq<T>, lines: T -> seq<string>, i: nat, line: string)
    requires i < |items| && line in lines(items[i])
    ensures line in FlatMap(items, lines)
    decreases |items|
  {
    var n := |items| - 1;
    if i < n {
      FlatMapHolds(items[..n], lines, i, line);
    }
  }

  /** Every line of the whole list is a line of some item. */
  lemma {:induction false} FlatMapMember<T>(items: seq<T>, lines: T -> seq<string>, line: string) returns (i: nat)
    requires line in FlatMap(items, lines)
    ensures i < |items| && line in lines(items[i])
    decreases |items|
  {
    var n := |items| - 1;
    if line in lines(items[n]) {
      i := n;
    } else {
      i := FlatMapMember(items[..n], lines, line);
    }
  }
}
