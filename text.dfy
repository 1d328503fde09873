/**
 * Case mapping and string comparison as the generator uses them.
 * `String.prototype.toLowerCase`/`toUpperCase` are modelled as ASCII case
 * mapping; `String.prototype.localeCompare` is an abstract collator.
 */
module Text {

  function LowerChar(c: char): char {
    if 'A' <= c <= 'Z' then (c as int + 32) as char else c
  }

  function UpperChar(c: char): char {
    if 'a' <= c <= 'z' then (c as int - 32) as char else c
  }

  /** `s.toLowerCase()`, character by character. */
  function ToLower(s: string): (r: string)
    ensures |r| == |s|
    ensures forall i :: 0 <= i < |s| ==> r[i] == LowerChar(s[i])
  {
    seq(|s|, i requires 0 <= i < |s| => LowerChar(s[i]))
  }

  /** Lower-casing after upper-casing a character is the same as lower-casing it. */
  lemma LowerOfUpper(c: char)
    ensures LowerChar(UpperChar(c)) == LowerChar(c)
  {
  }

  lemma ToLowerIdempotent(s: string)
    ensures ToLower(ToLower(s)) == ToLower(s)
  {
  }

  /**
   * `a.localeCompare(b)`: negative, zero or positive. The locale's actual
   * collation is not modelled; lemmas that need a sensible ordering require
   * `IsTotalPreorder`.
   */
  type Collator = (string, string) -> int

  /** `a` may come before `b`: the comparator does not ask to swap them. */
  predicate Le(cmp: Collator, a: string, b: string) {
    cmp(a, b) <= 0
  }

  ghost predicate IsTotalPreorder(cmp: Collator) {
    && (forall a, b :: Le(cmp, a, b) || Le(cmp, b, a))
    && (forall a, b, c :: Le(cmp, a, b) && Le(cmp, b, c) ==> Le(cmp, a, c))
  }

  /**
   * Case-sensitive lexicographic comparison by code point: one concrete total
   * preorder, not what `localeCompare` computes (which, for one, puts "a"
   * before "B").
   */
  function CodePointCompare(a: string, b: string): (r: int)
    ensures -1 <= r <= 1
    ensures r == 0 <==> a == b
  {
    if a == [] && b == [] then 0
    else if a == [] then -1
    else if b == [] then 1
    else if a[0] < b[0] then -1
    else if a[0] > b[0] then 1
    else
      assert a == [a[0]] + a[1..] && b == [b[0]] + b[1..];
      CodePointCompare(a[1..], b[1..])
  }

  lemma {:induction false} CodePointTotal(a: string, b: string)
    ensures CodePointCompare(a, b) <= 0 || CodePointCompare(b, a) <= 0
  {
    if a != [] && b != [] && a[0] == b[0] {
      CodePointTotal(a[1..], b[1..]);
    }
  }

  lemma {:induction false} CodePointTransitive(a: string, b: string, c: string)
    requires CodePointCompare(a, b) <= 0 && CodePointCompare(b, c) <= 0
    ensures CodePointCompare(a, c) <= 0
  {
    if a != [] && b != [] && c != [] && a[0] == b[0] == c[0] {
      CodePointTransitive(a[1..], b[1..], c[1..]);
    }
  }

  /** Code-point order meets the requirement every sorting lemma places on the collator. */
  lemma CodePointIsTotalPreorder()
    ensures IsTotalPreorder(CodePointCompare)
  {
    forall a, b ensures Le(CodePointCompare, a, b) || Le(CodePointCompare, b, a) {
      CodePointTotal(a, b);
    }
    forall a, b, c | Le(CodePointCompare, a, b) && Le(CodePointCompare, b, c)
      ensures Le(CodePointCompare, a, c)
    {
      CodePointTransitive(a, b, c);
    }
  }

  /** The empty string sorts before every string, and only it sorts before itself. */
  lemma EmptyIsLeastInCodePointOrder(s: string)
    ensures Le(CodePointCompare, "", s)
    ensures Le(CodePointCompare, s, "") <==> s == ""
  {
  }
}
