/**
 * Character classes and small string helpers shared by the loader and the
 * field-extraction rules of ticket_parser.py.
 *
 * The regular expressions of the source use three Unicode classes; here they
 * are fixed sets of characters:
 *   - `\d`   : the ASCII digits '0'..'9' only (Python also accepts other
 *              Unicode decimal digits);
 *   - `\s` and `str.strip()`: the characters Python's `str.isspace` accepts,
 *              written out as a fixed list;
 *   - `[一-龥]`: the code points U+4E00..U+9FA5, exactly as written
 *              in the source.
 */
module Text {

  datatype Option<T> = None | Some(value: T)

  function Min(a: int, b: int): int
  {
    if a <= b then a else b
  }

  predicate IsDigit(c: char)
  {
    '0' <= c <= '9'
  }

  predicate IsCjk(c: char)
  {
    '\U{4E00}' <= c <= '\U{9FA5}'
  }

  /** Python's whitespace: the characters for which `str.isspace()` holds. */
  predicate IsSpace(c: char)
  {
    c == ' ' || c == '\t' || c == '\n' || c == '\r' || c == '\U{000B}' || c == '\U{000C}'
    || '\U{001C}' <= c <= '\U{001F}' || c == '\U{0085}' || c == '\U{00A0}' || c == '\U{1680}'
    || '\U{2000}' <= c <= '\U{200A}' || c == '\U{2028}' || c == '\U{2029}' || c == '\U{202F}'
    || c == '\U{205F}' || c == '\U{3000}'
  }

  predicate IsLatin(c: char)
  {
    'a' <= c <= 'z' || 'A' <= c <= 'Z'
  }

  /** The character classes that the patterns repeat (`\d+`, `\s*`, `[\d\*]{8,10}`, ...). */
  datatype CharClass = Digit | Space | Cjk | DigitOrStar | DigitOrX

  predicate InClass(c: char, cls: CharClass)
  {
    match cls
    case Digit => IsDigit(c)
    case Space => IsSpace(c)
    case Cjk => IsCjk(c)
    case DigitOrStar => IsDigit(c) || c == '*'
    case DigitOrX => IsDigit(c) || c == 'X' || c == 'x'
  }

  /** Every character of s[lo..hi] is in the class. */
  predicate AllIn(s: string, lo: nat, hi: nat, cls: CharClass)
    requires lo <= hi <= |s|
  {
    forall j :: lo <= j < hi ==> InClass(s[j], cls)
  }

  /** The length of the longest run of class characters starting at s[i]: what a greedy `cls*` consumes. */
  function Run(s: string, i: nat, cls: CharClass): (n: nat)
    requires i <= |s|
    ensures i + n <= |s|
    ensures AllIn(s, i, i + n, cls)
    ensures i + n == |s| || !InClass(s[i + n], cls)
    decreases |s| - i
  {
    if i < |s| && InClass(s[i], cls) then 1 + Run(s, i + 1, cls) else 0
  }

  /**
   * The position just past the greedy run of class characters from s[i]. The
   * patterns chain their pieces by position, so each piece starts where the
   * run before it stops.
   */
  function Skip(s: string, i: nat, cls: CharClass): (e: nat)
    requires i <= |s|
    ensures i <= e <= |s| && AllIn(s, i, e, cls)
    ensures e == |s| || !InClass(s[e], cls)
  {
    i + Run(s, i, cls)
  }

  /** A run of class characters from i to e ends no later than the greedy run from i. */
  lemma SkipCovers(s: string, i: nat, e: nat, cls: CharClass)
    requires i <= e <= |s| && AllIn(s, i, e, cls)
    ensures e <= Skip(s, i, cls)
  {
    var n := Run(s, i, cls);
    assert forall j :: i <= j < e ==> InClass(s[j], cls);
  }

  /** A class run from i that stops at e (the end of s or a character outside the class) is the greedy run. */
  lemma SkipStops(s: string, i: nat, e: nat, cls: CharClass)
    requires i <= e <= |s| && AllIn(s, i, e, cls)
    requires e == |s| || !InClass(s[e], cls)
    ensures Skip(s, i, cls) == e
  {
    var n := Run(s, i, cls);
    assert forall j :: i <= j < e ==> InClass(s[j], cls);
    assert forall j :: i <= j < i + n ==> InClass(s[j], cls);
  }

  predicate IsDigitsText(t: string)
  {
    |t| > 0 && forall i :: 0 <= i < |t| ==> IsDigit(t[i])
  }

  predicate IsCjkText(t: string)
  {
    |t| > 0 && forall i :: 0 <= i < |t| ==> IsCjk(t[i])
  }

  /** Python's `w in s` for strings: w occurs in s as a contiguous substring. */
  predicate Contains(s: string, w: string)
    decreases |s|
  {
    w <= s || (|s| > 0 && Contains(s[1..], w))
  }

  /**
   * The position in `words` of the first word that occurs in s: the loop
   * `for w in words: if w in s: ...; break` of the source.
   */
  function FirstContained(s: string, words: seq<string>): (r: Option<nat>)
    ensures r.Some? ==> r.value < |words| && Contains(s, words[r.value])
    ensures r.Some? ==> forall j :: 0 <= j < r.value ==> !Contains(s, words[j])
    ensures r.None? <==> forall j :: 0 <= j < |words| ==> !Contains(s, words[j])
  {
    if words == [] then None
    else if Contains(s, words[0]) then Some(0)
    else match FirstContained(s, words[1..])
      case None => None
      case Some(k) => Some(k + 1)
  }

  /** Python's `any(w in s for w in words)`. */
  predicate ContainsAny(s: string, words: seq<string>)
  {
    exists j :: 0 <= j < |words| && Contains(s, words[j])
  }

  /** Python's `s.replace(c, "")` for a one-character c. */
  function RemoveChar(s: string, c: char): (r: string)
    ensures |r| <= |s|
    ensures forall x :: x in r <==> x in s && x != c
  {
    if s == [] then []
    else (if s[0] == c then [] else [s[0]]) + RemoveChar(s[1..], c)
  }

  /** Removing a character distributes over concatenation. */
  lemma {:induction false} RemoveCharAppend(a: string, b: string, c: char)
    ensures RemoveChar(a + b, c) == RemoveChar(a, c) + RemoveChar(b, c)
    decreases |a|
  {
    if a == [] {
      assert a + b == b;
    } else {
      assert (a + b)[0] == a[0];
      assert (a + b)[1..] == a[1..] + b;
      RemoveCharAppend(a[1..], b, c);
    }
  }

  /** A string without the character is left as it is. */
  lemma {:induction false} RemoveCharAbsent(s: string, c: char)
    requires c !in s
    ensures RemoveChar(s, c) == s
    decreases |s|
  {
    if s != [] {
      assert s[0] in s;
      assert forall x :: x in s[1..] ==> x in s;
      RemoveCharAbsent(s[1..], c);
      assert s == [s[0]] + s[1..];
    }
  }
}
