/** What several components share: optional values, and the string operations of Python. */
module Basics {

  datatype Option<T> = None | Some(value: T)

  lemma {:induction false} Regroup<T>(a: seq<T>, b: seq<T>, c: seq<T>)
    ensures a + (b + c) == (a + b) + c
    ensures a + [] == a
  {
  }

  // ---- Division ---------------------------------------------------------------------------------

  lemma {:induction false} SmallMultiple(d: int, n: int, p: int)
    requires n > 0 && p == d * n && -n < p < n
    ensures d == 0
  {
    if d >= 1 {
      Product(d - 1, n);
    } else if d <= -1 {
      Product(-d - 1, n);
    }
  }

  lemma {:induction false} Product(x: nat, n: nat)
    ensures (x + 1) * n == x * n + n && x * n >= 0 && -(x + 1) * n == -(x * n) - n
  {
  }

  lemma {:induction false} DivideUnique(a: int, n: nat, q: int, r: int)
    requires n > 0 && a == q * n + r && 0 <= r < n
    ensures a / n == q && a % n == r
  {
    var q', r' := a / n, a % n;
    assert (q - q') * n == q * n - q' * n;
    SmallMultiple(q - q', n, (q - q') * n);
  }

  // ---- Strings ----------------------------------------------------------------------------------

  /** A number in decimal. */
  function Digits(n: nat): string {
    (if n < 10 then "" else Digits(n / 10)) + ["0123456789"[n % 10]]
  }

  /** The characters its `strip` removes: Unicode white space and the four separators. */
  predicate IsSpace(c: char) {
    || '\t' <= c <= '\r' || ' ' == c || '\U{1c}' <= c <= '\U{1f}' || c == '\U{85}' || c == '\U{a0}'
    || c == '\U{1680}' || '\U{2000}' <= c <= '\U{200a}' || c == '\U{2028}' || c == '\U{2029}'
    || c == '\U{202f}' || c == '\U{205f}' || c == '\U{3000}'
  }

  function StripLeft(s: string): string {
    if s != "" && IsSpace(s[0]) then StripLeft(s[1..]) else s
  }

  function StripRight(s: string): string {
    if s != "" && IsSpace(s[|s| - 1]) then StripRight(s[..|s| - 1]) else s
  }

  function Strip(s: string): string {
    StripLeft(StripRight(s))
  }

  /** No white space at either end. */
  predicate Trimmed(s: string) {
    s != "" ==> !IsSpace(s[0]) && !IsSpace(s[|s| - 1])
  }

  lemma {:induction false} StripLeftEnds(s: string)
    ensures StripLeft(s) != "" ==> !IsSpace(StripLeft(s)[0])
    ensures StripLeft(s) != "" ==> StripLeft(s)[|StripLeft(s)| - 1] == s[|s| - 1]
  {
    if s != "" && IsSpace(s[0]) { StripLeftEnds(s[1..]); }
  }

  lemma {:induction false} StripRightEnds(s: string)
    ensures StripRight(s) != "" ==> !IsSpace(StripRight(s)[|StripRight(s)| - 1])
  {
    if s != "" && IsSpace(s[|s| - 1]) { StripRightEnds(s[..|s| - 1]); }
  }

  lemma {:induction false} StripTrims(s: string)
    ensures Trimmed(Strip(s))
  {
    StripRightEnds(s);
    StripLeftEnds(StripRight(s));
  }

  lemma {:induction false} StripTrimmed(s: string)
    requires Trimmed(s)
    ensures Strip(s) == s
  {
  }

  function Count(c: char, s: string): nat {
    if s == "" then 0 else (if s[0] == c then 1 else 0) + Count(c, s[1..])
  }

  /** Offset of the first c, or |s|. */
  function IndexOf(s: string, c: char): (k: nat)
    ensures k <= |s|
    ensures k < |s| ==> s[k] == c
    ensures forall i :: 0 <= i < k ==> s[i] != c
  {
    if s == "" || s[0] == c then 0 else 1 + IndexOf(s[1..], c)
  }

  lemma {:induction false} IndexOfUnique(s: string, c: char, k: nat)
    requires k <= |s| && (k < |s| ==> s[k] == c)
    requires forall i :: 0 <= i < k ==> s[i] != c
    ensures IndexOf(s, c) == k
  {
  }

  /** `partition(c)`: what stands before the first c, and what follows it. */
  function Before(s: string, c: char): string { s[..IndexOf(s, c)] }
  function After(s: string, c: char): string {
    var k := IndexOf(s, c);
    if k < |s| then s[k + 1..] else ""
  }

  lemma {:induction false} Partition(s: string, c: char)
    requires c in s
    ensures Before(s, c) + [c] + After(s, c) == s && c !in Before(s, c)
  {
    var k := IndexOf(s, c);
    assert s == s[..k] + [s[k]] + s[k + 1..];
  }

  lemma {:induction false} PartitionOf(a: string, c: char, b: string)
    requires c !in a
    ensures Before(a + [c] + b, c) == a && After(a + [c] + b, c) == b
  {
    var s := a + [c] + b;
    assert forall i :: 0 <= i < |a| ==> s[i] == a[i];
    IndexOfUnique(s, c, |a|);
  }

  /** Does `part` occur in `s`? */
  predicate Contains(s: string, part: string) {
    exists i | 0 <= i <= |s| :: part <= s[i..]
  }

  function LowerChar(c: char): char {
    if 'A' <= c <= 'Z' || ('\U{c0}' <= c <= '\U{de}' && c != '\U{d7}') then c + '\U{20}' else c
  }

  /** The capital of a Latin-1 letter, where it is one letter. */
  function UpperChar(c: char): char {
    if 'a' <= c <= 'z' || ('\U{e0}' <= c <= '\U{fe}' && c != '\U{f7}') then c - '\U{20}'
    else if c == '\U{b5}' then '\U{39c}'
    else if c == '\U{ff}' then '\U{178}'
    else c
  }

  /** Lower case, within Latin-1. */
  function Lower(s: string): string {
    seq(|s|, i requires 0 <= i < |s| => LowerChar(s[i]))
  }
}
