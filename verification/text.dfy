/**
 * The part of Go's `strings`, `strconv` and `fmt` that the core uses, on `seq<char>`.
 * Each function follows the Go library function of the same name; the lemmas at the end
 * are the facts about them that the other modules rely on.
 */
module Text {

  predicate HasPrefix(s: string, p: string) {
    |p| <= |s| && s[..|p|] == p
  }

  predicate HasSuffix(s: string, p: string) {
    |p| <= |s| && s[|s| - |p|..] == p
  }

  function TrimPrefix(s: string, p: string): (r: string)
    ensures HasPrefix(s, p) ==> s == p + r
    ensures !HasPrefix(s, p) ==> r == s
  {
    if HasPrefix(s, p) then s[|p|..] else s
  }

  function TrimSuffix(s: string, p: string): (r: string)
    ensures HasSuffix(s, p) ==> s == r + p
    ensures !HasSuffix(s, p) ==> r == s
  {
    if HasSuffix(s, p) then s[..|s| - |p|] else s
  }

  /** `sub` occurs in `s` starting at position `i`. */
  predicate OccursAt(s: string, sub: string, i: int) {
    0 <= i && i + |sub| <= |s| && s[i..i + |sub|] == sub
  }

  lemma OccursAtTail(s: string, sub: string, j: int)
    requires s != [] && 0 <= j
    ensures OccursAt(s[1..], sub, j) <==> OccursAt(s, sub, j + 1)
  {
    if 0 <= j && j + |sub| <= |s| - 1 {
      assert s[1..][j..j + |sub|] == s[j + 1..j + 1 + |sub|];
    }
  }

  /** strings.Index: the leftmost occurrence of `sub` in `s`, or -1. */
  function Index(s: string, sub: string): (r: int)
    ensures r == -1 || OccursAt(s, sub, r)
    ensures forall j :: 0 <= j && (r == -1 || j < r) ==> !OccursAt(s, sub, j)
    decreases |s|
  {
    if HasPrefix(s, sub) then
      assert OccursAt(s, sub, 0);
      0
    else if s == [] then
      -1
    else
      var r := Index(s[1..], sub);
      assert forall j :: 1 <= j && (r == -1 || j < r + 1) ==> !OccursAt(s, sub, j) by {
        forall j | 1 <= j && (r == -1 || j < r + 1) ensures !OccursAt(s, sub, j) {
          OccursAtTail(s, sub, j - 1);
        }
      }
      if r == -1 then -1
      else
        OccursAtTail(s, sub, r);
        r + 1
  }

  /** bytes.IndexByte / strings.IndexByte: the first position of `c`, or -1. */
  function IndexByte(s: string, c: char): (r: int)
    ensures r == -1 <==> c !in s
    ensures r != -1 ==> 0 <= r < |s| && s[r] == c && c !in s[..r]
  {
    if s == [] then -1
    else if s[0] == c then 0
    else
      var r := IndexByte(s[1..], c);
      assert s == [s[0]] + s[1..];
      if r == -1 then -1
      else
        assert s[..r + 1] == [s[0]] + s[1..][..r];
        r + 1
  }

  predicate Contains(s: string, sub: string) {
    Index(s, sub) != -1
  }

  lemma ContainsAt(s: string, sub: string, i: int)
    requires OccursAt(s, sub, i)
    ensures Contains(s, sub)
  {
  }

  /** strings.Count for a non-empty separator: non-overlapping occurrences, scanned left to right. */
  function Count(s: string, sub: string): nat
    requires sub != []
    decreases |s|
  {
    if |s| < |sub| then 0
    else if HasPrefix(s, sub) then 1 + Count(s[|sub|..], sub)
    else Count(s[1..], sub)
  }

  /**
   * strings.ReplaceAll(s, tok, ""): every non-overlapping occurrence, left to right, removed.
   * An empty `tok` leaves `s` as it is.
   */
  function RemoveAll(s: string, tok: string): (r: string)
    ensures |r| <= |s|
    decreases |s|
  {
    if s == [] || tok == [] then s
    else if HasPrefix(s, tok) then RemoveAll(s[|tok|..], tok)
    else [s[0]] + RemoveAll(s[1..], tok)
  }

  /** The `for _, tok := range toks { s = strings.ReplaceAll(s, tok, "") }` idiom. */
  function RemoveEach(s: string, toks: seq<string>): (r: string)
    ensures |r| <= |s|
    decreases |toks|
  {
    if toks == [] then s else RemoveEach(RemoveAll(s, toks[0]), toks[1..])
  }

  /** strings.Replace(s, old, new, 1). */
  function ReplaceFirst(s: string, from: string, to: string): string {
    var i := Index(s, from);
    if i == -1 then s else s[..i] + to + s[i + |from|..]
  }

  /** strings.Join. */
  function Join(parts: seq<string>, sep: string): string {
    if parts == [] then ""
    else if |parts| == 1 then parts[0]
    else parts[0] + sep + Join(parts[1..], sep)
  }

  /** What a sequence of writes leaves in a bytes.Buffer: the pieces, back to back. */
  function Concat(parts: seq<string>): (r: string)
    decreases |parts|
  {
    if parts == [] then "" else Concat(parts[..|parts| - 1]) + parts[|parts| - 1]
  }

  function Repeat(c: char, n: nat): (r: string)
    ensures |r| == n
    ensures forall i :: 0 <= i < n ==> r[i] == c
  {
    if n == 0 then [] else [c] + Repeat(c, n - 1)
  }

  /** unicode.IsSpace, as strings.TrimSpace uses it. */
  predicate IsSpace(c: char) {
    c == ' ' || c == '\t' || c == '\n' || c == '\r' || c == '\U{000B}' || c == '\U{000C}'
    || c == '\U{0085}' || c == '\U{00A0}' || c == '\U{1680}'
    || ('\U{2000}' <= c <= '\U{200A}')
    || c == '\U{2028}' || c == '\U{2029}' || c == '\U{202F}' || c == '\U{205F}' || c == '\U{3000}'
  }

  function TrimLeft(s: string): (r: string)
    ensures |r| <= |s| && r == s[|s| - |r|..]
    ensures r == [] || !IsSpace(r[0])
    ensures forall i :: 0 <= i < |s| - |r| ==> IsSpace(s[i])
  {
    if s != [] && IsSpace(s[0]) then TrimLeft(s[1..]) else s
  }

  function TrimRight(s: string): (r: string)
    ensures |r| <= |s| && r == s[..|r|]
    ensures r == [] || !IsSpace(r[|r| - 1])
    ensures forall i :: |r| <= i < |s| ==> IsSpace(s[i])
  {
    if s != [] && IsSpace(s[|s| - 1]) then TrimRight(s[..|s| - 1]) else s
  }

  /** strings.TrimSpace: the longest piece of `s` that neither starts nor ends with white space. */
  function TrimSpace(s: string): (r: string)
    ensures |r| <= |s|
    ensures r == [] || (!IsSpace(r[0]) && !IsSpace(r[|r| - 1]))
  {
    TrimRight(TrimLeft(s))
  }

  function DigitChar(d: nat): char
    requires d < 10
  {
    (48 + d) as char
  }

  /** fmt's `%d` of a non-negative integer. */
  function NatToString(n: nat): (r: string)
    ensures 1 <= |r|
    ensures n < 10 <==> |r| == 1
  {
    if n < 10 then [DigitChar(n)] else NatToString(n / 10) + [DigitChar(n % 10)]
  }

  // ---------------------------------------------------------------------------------------
  // Facts about the functions above.

  /** Regrouping a concatenation; stated once so that proofs can name the step. */
  lemma Assoc<T>(a: seq<T>, b: seq<T>, c: seq<T>)
    ensures (a + b) + c == a + (b + c)
  {
  }

  /** Text that already neither starts nor ends with white space is its own TrimSpace. */
  lemma TrimSpaceFixed(s: string)
    requires s == [] || (!IsSpace(s[0]) && !IsSpace(s[|s| - 1]))
    ensures TrimSpace(s) == s
  {
    assert TrimLeft(s) == s;
  }

  lemma {:induction false} CountZeroIffAbsent(s: string, sub: string)
    requires sub != []
    ensures Count(s, sub) == 0 <==> Index(s, sub) == -1
    decreases |s|
  {
    if |s| < |sub| {
    } else if HasPrefix(s, sub) {
    } else {
      CountZeroIffAbsent(s[1..], sub);
    }
  }

  /** Counting restarts right after the leftmost occurrence. */
  lemma {:induction false} CountAfterFirst(s: string, sub: string)
    requires sub != [] && Index(s, sub) != -1
    ensures Index(s, sub) + |sub| <= |s|
    ensures Count(s, sub) == 1 + Count(s[Index(s, sub) + |sub|..], sub)
    decreases |s|
  {
    assert OccursAt(s, sub, Index(s, sub));
    if HasPrefix(s, sub) {
    } else {
      CountAfterFirst(s[1..], sub);
      assert s[1..][Index(s[1..], sub) + |sub|..] == s[Index(s, sub) + |sub|..];
    }
  }

  lemma {:induction false} NatToStringInjective(a: nat, b: nat)
    requires NatToString(a) == NatToString(b)
    ensures a == b
    decreases a
  {
    if a < 10 {
      assert [DigitChar(a)] == NatToString(b);
    } else {
      var sa, sb := NatToString(a), NatToString(b);
      assert sa[..|sa| - 1] == NatToString(a / 10);
      assert sb[..|sb| - 1] == NatToString(b / 10);
      assert sa[|sa| - 1] == DigitChar(a % 10);
      assert sb[|sb| - 1] == DigitChar(b % 10);
      NatToStringInjective(a / 10, b / 10);
    }
  }

  lemma RemoveAllAbsent(s: string, tok: string)
    requires !Contains(s, tok)
    ensures RemoveAll(s, tok) == s
    decreases |s|
  {
    if s != [] && tok != [] {
      assert !OccursAt(s, tok, 0);
      forall j | 0 <= j ensures !OccursAt(s[1..], tok, j) {
        OccursAtTail(s, tok, j);
      }
      RemoveAllAbsent(s[1..], tok);
    }
  }

  lemma {:induction false} RemoveEachAbsent(s: string, toks: seq<string>)
    requires forall i :: 0 <= i < |toks| ==> !Contains(s, toks[i])
    ensures RemoveEach(s, toks) == s
    decreases |toks|
  {
    if toks != [] {
      RemoveAllAbsent(s, toks[0]);
      RemoveEachAbsent(s, toks[1..]);
    }
  }
}
