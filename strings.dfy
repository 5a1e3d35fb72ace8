/**
 * The string operations the spreadsheet normaliser relies on: JavaScript's
 * white-space class (`\s`, also what `trim` removes), ASCII lower-casing,
 * substring search (`includes`), trimming and the character-removing
 * `replace(/…/g, '')` rewrites.
 */
module Strings {

  /** JavaScript's white space and line terminators: the class `\s`. */
  predicate IsSpace(c: char)
  {
    || c == ' ' || ('\t' <= c <= '\r')
    || c == '\U{00A0}' || c == '\U{1680}' || ('\U{2000}' <= c <= '\U{200A}')
    || c == '\U{2028}' || c == '\U{2029}' || c == '\U{202F}' || c == '\U{205F}'
    || c == '\U{3000}' || c == '\U{FEFF}'
  }

  function LowerChar(c: char): char
  {
    if 'A' <= c <= 'Z' then (c as int + 32) as char else c
  }

  /** `toLowerCase`, restricted to the ASCII letters. */
  function ToLower(s: string): (r: string)
    ensures |r| == |s|
    ensures forall i :: 0 <= i < |s| ==> r[i] == LowerChar(s[i])
  {
    seq(|s|, i requires 0 <= i < |s| => LowerChar(s[i]))
  }

  lemma ToLowerIdempotent(s: string)
    ensures ToLower(ToLower(s)) == ToLower(s)
  {
  }

  predicate IsPrefix(p: string, s: string)
  {
    |p| <= |s| && s[..|p|] == p
  }

  /** `s.indexOf(c)`: the first position of `c` in `s`, or -1 when there is none. */
  function IndexOf(s: string, c: char): (k: int)
    ensures -1 <= k < |s|
    ensures k >= 0 ==> s[k] == c
    ensures forall i :: 0 <= i < |s| && (k < 0 || i < k) ==> s[i] != c
  {
    if s == [] then -1
    else if s[0] == c then 0
    else
      var k := IndexOf(s[1..], c);
      if k < 0 then -1 else k + 1
  }

  /** `s.includes(p)`: `p` occurs somewhere in `s`. */
  predicate Contains(s: string, p: string)
    ensures Contains(s, p) ==> |p| <= |s|
    ensures p == [] ==> Contains(s, p)
    decreases |s|
  {
    IsPrefix(p, s) || (|s| > 0 && Contains(s[1..], p))
  }

  /** An occurrence at offset `i` is witnessed by `Contains`. */
  lemma {:induction false} ContainsAt(s: string, p: string, i: nat)
    requires i + |p| <= |s| && s[i..i + |p|] == p
    ensures Contains(s, p)
  {
    if i > 0 {
      assert s[1..][i - 1..i - 1 + |p|] == p;
      ContainsAt(s[1..], p, i - 1);
    }
  }

  /** Every occurrence found by `Contains` sits at some offset. */
  lemma {:induction false} ContainsOffset(s: string, p: string) returns (i: nat)
    requires Contains(s, p)
    ensures i + |p| <= |s| && s[i..i + |p|] == p
  {
    if IsPrefix(p, s) {
      i := 0;
    } else {
      var j := ContainsOffset(s[1..], p);
      assert s[1..][j..j + |p|] == s[j + 1..j + 1 + |p|];
      i := j + 1;
    }
  }

  /** Containment is transitive: a text holding `q` holds every part of `q`. */
  lemma ContainsTrans(s: string, q: string, p: string)
    requires Contains(s, q) && Contains(q, p)
    ensures Contains(s, p)
  {
    var i := ContainsOffset(s, q);
    var j := ContainsOffset(q, p);
    forall k | 0 <= k < |p|
      ensures s[i + j + k] == p[k]
    {
      assert p[k] == q[j + k];
      assert q[j + k] == s[i + j + k];
    }
    assert s[i + j..i + j + |p|] == p;
    ContainsAt(s, p, i + j);
  }

  /** A pattern with a character the text lacks does not occur in it. */
  lemma MissingCharNotContained(s: string, p: string, k: nat)
    requires k < |p| && p[k] !in s
    ensures !Contains(s, p)
  {
    if Contains(s, p) {
      var i := ContainsOffset(s, p);
    }
  }

  predicate IsDigit(c: char) { '0' <= c <= '9' }

  /** The character classes the parser deletes with a global regular-expression replace. */
  datatype CharClass =
    | WhiteSpace    // `\s`
    | Point         // `.`
    | NotDecimal    // `[^0-9.]`
    | Separator     // `[\s_-]`

  predicate InClass(c: char, k: CharClass)
  {
    match k
    case WhiteSpace => IsSpace(c)
    case Point => c == '.'
    case NotDecimal => !(IsDigit(c) || c == '.')
    case Separator => IsSpace(c) || c == '_' || c == '-'
  }

  /** Deletes every character of class `k`, keeping the order of the rest. */
  function Drop(s: string, k: CharClass): (r: string)
    ensures |r| <= |s|
    ensures forall i :: 0 <= i < |r| ==> !InClass(r[i], k)
    ensures (forall i :: 0 <= i < |s| ==> !InClass(s[i], k)) ==> r == s
    ensures forall c :: c in r ==> c in s
  {
    if s == [] then []
    else if InClass(s[0], k) then Drop(s[1..], k)
    else [s[0]] + Drop(s[1..], k)
  }

  /** A text made only of the class is deleted entirely. */
  lemma {:induction false} DropAll(s: string, k: CharClass)
    requires forall i :: 0 <= i < |s| ==> InClass(s[i], k)
    ensures Drop(s, k) == ""
  {
    if s != [] {
      assert forall i :: 0 <= i < |s[1..]| ==> s[1..][i] == s[i + 1];
      DropAll(s[1..], k);
    }
  }

  lemma {:induction false} DropAppend(a: string, b: string, k: CharClass)
    ensures Drop(a + b, k) == Drop(a, k) + Drop(b, k)
  {
    if a != [] {
      assert (a + b)[0] == a[0] && (a + b)[1..] == a[1..] + b;
      DropAppend(a[1..], b, k);
    } else {
      assert a + b == b;
    }
  }

  lemma SeparatorLower(c: char)
    ensures InClass(LowerChar(c), Separator) == InClass(c, Separator)
  {
  }

  /** Lower-casing neither creates nor removes a separator, so the two rewrites commute. */
  lemma {:induction false} DropSeparatorsLower(s: string)
    ensures ToLower(Drop(s, Separator)) == Drop(ToLower(s), Separator)
  {
    if s != [] {
      DropSeparatorsLower(s[1..]);
      assert ToLower(s)[1..] == ToLower(s[1..]);
      assert ToLower(s)[0] == LowerChar(s[0]);
      SeparatorLower(s[0]);
      if !InClass(s[0], Separator) {
        assert ToLower([s[0]] + Drop(s[1..], Separator))
            == [LowerChar(s[0])] + ToLower(Drop(s[1..], Separator));
      }
    }
  }

  /** `replace(/\s+/g, '')`. */
  function RemoveSpaces(s: string): string
  {
    Drop(s, WhiteSpace)
  }

  /** Leading white space removed (the first half of `trim`). */
  function TrimStart(s: string): (r: string)
    ensures |r| <= |s| && r == s[|s| - |r|..]
    ensures forall i :: 0 <= i < |s| - |r| ==> IsSpace(s[i])
    ensures |r| > 0 ==> !IsSpace(r[0])
  {
    if |s| > 0 && IsSpace(s[0]) then TrimStart(s[1..]) else s
  }

  /** Trailing white space removed (the second half of `trim`). */
  function TrimEnd(s: string): (r: string)
    ensures |r| <= |s| && r == s[..|r|]
    ensures forall i :: |r| <= i < |s| ==> IsSpace(s[i])
    ensures |r| > 0 ==> !IsSpace(r[|r| - 1])
  {
    if |s| > 0 && IsSpace(s[|s| - 1]) then TrimEnd(s[..|s| - 1]) else s
  }

  /** `trim`: a slice of the input with no white space at either end. */
  function Trim(s: string): (r: string)
    ensures |r| > 0 ==> !IsSpace(r[0]) && !IsSpace(r[|r| - 1])
  {
    TrimEnd(TrimStart(s))
  }

  /** Trimming leaves exactly a slice of the input, cut only at white space. */
  lemma TrimSlice(s: string) returns (a: nat, b: nat)
    ensures a <= b <= |s| && Trim(s) == s[a..b]
    ensures forall i :: 0 <= i < a ==> IsSpace(s[i])
    ensures forall i :: b <= i < |s| ==> IsSpace(s[i])
  {
    var t := TrimStart(s);
    var r := TrimEnd(t);
    a := |s| - |t|;
    b := a + |r|;
    assert t == s[a..];
    assert r == t[..|r|];
    assert r == s[a..b];
    forall i | b <= i < |s| ensures IsSpace(s[i]) {
      assert s[i] == t[i - a];
    }
  }

  lemma TrimIdempotent(s: string)
    ensures Trim(Trim(s)) == Trim(s)
  {
    var t := Trim(s);
    if |t| > 0 {
      assert TrimStart(t) == t;
    }
  }
}
