/** The few JavaScript value semantics the player relies on: optional values
    (`undefined`/`null`), string truthiness, `String.prototype.includes`,
    `Math.max`/`Math.min` clamping and number-to-string conversion. */
module Js {

  /** An optional value: `None` stands for `undefined` or `null`. */
  datatype Option<+T> = None | Some(value: T)

  /** JavaScript truthiness of an optional string: `undefined`, `null` and `""` are falsy. */
  predicate Truthy(v: Option<string>) {
    v.Some? && v.value != ""
  }

  /** `v || ""` for an optional string. */
  function OrEmpty(v: Option<string>): (r: string)
    ensures Truthy(v) ==> r == v.value
    ensures !Truthy(v) ==> r == ""
  {
    if v.Some? then v.value else ""
  }

  /** `sub` occurs in `s` starting at position `i`. */
  predicate OccursAt(s: string, sub: string, i: int) {
    0 <= i && i + |sub| <= |s| && s[i..i + |sub|] == sub
  }

  predicate IsPrefix(p: string, s: string) {
    |p| <= |s| && s[..|p|] == p
  }

  /** `s.includes(sub)`, computed by scanning `s` left to right. */
  predicate Includes(s: string, sub: string)
    decreases |s|
  {
    IsPrefix(sub, s) || (|s| > 0 && Includes(s[1..], sub))
  }

  /** Every occurrence found at a position makes `Includes` true. */
  lemma {:induction false} OccurrenceIncludes(s: string, sub: string, i: int)
    requires OccursAt(s, sub, i)
    ensures Includes(s, sub)
    decreases i
  {
    if i == 0 {
      assert s[..|sub|] == s[0..0 + |sub|];
    } else {
      assert s[1..][i - 1..i - 1 + |sub|] == s[i..i + |sub|];
      OccurrenceIncludes(s[1..], sub, i - 1);
    }
  }

  /** `Includes` is true only when there is an occurrence at some position. */
  lemma {:induction false} IncludesOccurrence(s: string, sub: string) returns (i: int)
    requires Includes(s, sub)
    ensures OccursAt(s, sub, i)
    decreases |s|
  {
    if IsPrefix(sub, s) {
      i := 0;
      assert s[0..0 + |sub|] == s[..|sub|];
    } else {
      var j := IncludesOccurrence(s[1..], sub);
      assert s[1..][j..j + |sub|] == s[j + 1..j + 1 + |sub|];
      i := j + 1;
    }
  }

  /** The scanning definition agrees with the positional one, both ways. */
  lemma IncludesIff(s: string, sub: string)
    ensures Includes(s, sub) <==> exists i :: OccursAt(s, sub, i)
  {
    if Includes(s, sub) {
      var i := IncludesOccurrence(s, sub);
    }
    if exists i :: OccursAt(s, sub, i) {
      var i :| OccursAt(s, sub, i);
      OccurrenceIncludes(s, sub, i);
    }
  }

  /** A string that includes a non-empty `sub` holds `sub`'s first character. */
  lemma {:induction false} IncludesFirstChar(s: string, sub: string)
    requires Includes(s, sub) && |sub| > 0
    ensures sub[0] in s
  {
    var i := IncludesOccurrence(s, sub);
    assert s[i] == s[i..i + |sub|][0];
  }

  /** A string without `sub`'s first character does not include `sub`. */
  lemma MissingFirstChar(s: string, sub: string)
    requires |sub| > 0 && sub[0] !in s
    ensures !Includes(s, sub)
  {
    if Includes(s, sub) {
      IncludesFirstChar(s, sub);
    }
  }

  function Max(a: int, b: int): int { if a < b then b else a }

  function Min(a: int, b: int): int { if a < b then a else b }

  /** `Math.max(0, Math.min(i, n - 1))`: the index `i` forced into `[0, n - 1]`
      (0 when there is nothing to index). */
  function Clamp(i: int, n: nat): (r: int)
    ensures n == 0 ==> r == 0
    ensures n > 0 ==> 0 <= r < n
    ensures 0 <= i < n ==> r == i
    ensures i < 0 ==> r == 0
    ensures n > 0 && i >= n ==> r == n - 1
  {
    Max(0, Min(i, n - 1))
  }

  function DigitChar(d: nat): (c: char)
    requires d < 10
    ensures '0' <= c <= '9' && DigitValue(c) == d
  {
    ('0' as int + d) as char
  }

  /** The value of one decimal digit character. */
  function DigitValue(c: char): int {
    c as int - '0' as int
  }

  predicate IsDigits(s: string) {
    forall k :: 0 <= k < |s| ==> '0' <= s[k] <= '9'
  }

  /** The number a string of decimal digits spells, read left to right. */
  function DigitsValue(s: string): int
    decreases |s|
  {
    if s == [] then 0 else 10 * DigitsValue(s[..|s| - 1]) + DigitValue(s[|s| - 1])
  }

  /** The decimal text of a natural number, as a template literal prints it:
      digits only, and no leading zero. */
  function NumberToString(n: nat): (r: string)
    ensures |r| > 0 && IsDigits(r)
    ensures n < 10 <==> |r| == 1
    ensures n > 0 ==> r[0] != '0'
    decreases n
  {
    if n < 10 then [DigitChar(n)] else NumberToString(n / 10) + [DigitChar(n % 10)]
  }

  /** The text of `n` spells `n` back. */
  lemma {:induction false} NumberToStringValue(n: nat)
    ensures DigitsValue(NumberToString(n)) == n
    decreases n
  {
    var r := NumberToString(n);
    if n < 10 {
      assert r[..|r| - 1] == [];
    } else {
      NumberToStringValue(n / 10);
      assert r[..|r| - 1] == NumberToString(n / 10);
    }
  }
}
