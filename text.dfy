/** String helpers the logger takes from Go's standard library: `strings.Repeat`,
    the space-joining of `fmt.Sprintln`, `strings.TrimRight` and `strings.ToUpper`.
    Strings are sequences of characters and are assumed to be ASCII, so that a
    character count is Go's byte length. */
module Text {

  /** `strings.Repeat(s, n)`: `n` copies of `s` back to back. Go panics on a negative
      count, so the count is a `nat` here and callers must establish it. */
  function Repeat(s: string, n: nat): string
  {
    if n == 0 then [] else s + Repeat(s, n - 1)
  }

  /** Euclidean division has one quotient and one remainder. */
  lemma ModUnique(i: int, k: int, q: int, m: int)
    requires k > 0 && 0 <= m < k && i == q * k + m
    ensures i % k == m
  {
    var d := i / k - q;
    assert d * k == m - i % k;
    if d != 0 {
      assert false;
    }
  }

  /** Shifting an index by one period does not change its residue. */
  lemma ModShift(i: int, k: int)
    requires k > 0 && i >= k
    ensures i % k == (i - k) % k
  {
    var q, m := (i - k) / k, (i - k) % k;
    assert i == (q + 1) * k + m;
    ModUnique(i, k, q + 1, m);
  }

  lemma {:induction false} RepeatLength(s: string, n: nat)
    ensures |Repeat(s, n)| == |s| * n
  {
    if n > 0 {
      RepeatLength(s, n - 1);
      assert |s| * n == |s| + |s| * (n - 1);
    }
  }

  /** Every character of `Repeat(s, n)` is the character of `s` at the same offset
      within its copy: the result is made of whole copies of `s` and nothing else. */
  lemma {:induction false} RepeatAt(s: string, n: nat, i: int)
    requires 0 <= i < |Repeat(s, n)|
    ensures |s| > 0 && Repeat(s, n)[i] == s[i % |s|]
  {
    assert n > 0;
    if i < |s| {
      assert Repeat(s, n)[i] == s[i];
    } else {
      RepeatAt(s, n - 1, i - |s|);
      ModShift(i, |s|);
    }
  }

  /** `Repeat(s, n)` has length `|s| * n` and holds `s[i % |s|]` at every index `i`. */
  lemma RepeatShape(s: string, n: nat)
    ensures |Repeat(s, n)| == |s| * n
    ensures forall i :: 0 <= i < |Repeat(s, n)| ==> Repeat(s, n)[i] == s[i % |s|]
  {
    RepeatLength(s, n);
    forall i | 0 <= i < |Repeat(s, n)| ensures Repeat(s, n)[i] == s[i % |s|] {
      RepeatAt(s, n, i);
    }
  }

  /** The operands joined with `sep` between each neighbouring pair and nowhere
      else, as `fmt.Sprintln` places its single spaces. */
  function Join(parts: seq<string>, sep: string): string
  {
    if |parts| == 0 then []
    else if |parts| == 1 then parts[0]
    else parts[0] + sep + Join(parts[1..], sep)
  }

  /** The joined text ends with the last operand, whatever came before it. */
  lemma {:induction false} JoinEndsWithLast(parts: seq<string>, sep: string)
    requires |parts| > 0
    ensures |Join(parts, sep)| >= |parts[|parts| - 1]|
    ensures Join(parts, sep)[|Join(parts, sep)| - |parts[|parts| - 1]|..] == parts[|parts| - 1]
  {
    if |parts| > 1 {
      JoinEndsWithLast(parts[1..], sep);
      var tail := Join(parts[1..], sep);
      var last := parts[|parts| - 1];
      assert parts[1..][|parts[1..]| - 1] == last;
      assert Join(parts, sep) == (parts[0] + sep) + tail;
      assert Join(parts, sep)[|Join(parts, sep)| - |last|..] == tail[|tail| - |last|..];
    }
  }

  /** `strings.TrimRight(s, cut)`: drops every trailing character that is in `cut`.
      The result is a prefix of `s`, everything dropped is in `cut`, and the result
      does not itself end in a character of `cut` (so the trim is maximal). */
  function TrimRight(s: string, cut: set<char>): (r: string)
    ensures r <= s
    ensures forall i :: |r| <= i < |s| ==> s[i] in cut
    ensures |r| == 0 || r[|r| - 1] !in cut
  {
    if |s| > 0 && s[|s| - 1] in cut then TrimRight(s[..|s| - 1], cut) else s
  }

  /** The three properties in `TrimRight`'s contract determine its result: any
      prefix of `s` that meets them is `TrimRight(s, cut)`. */
  lemma TrimRightUnique(s: string, cut: set<char>, t: string)
    requires t <= s
    requires forall i :: |t| <= i < |s| ==> s[i] in cut
    requires |t| == 0 || t[|t| - 1] !in cut
    ensures t == TrimRight(s, cut)
  {
  }

  /** ASCII upper-casing of one character, as `strings.ToUpper` does on ASCII. */
  function UpperChar(c: char): char
  {
    if 'a' <= c <= 'z' then (c as int - 32) as char else c
  }

  function ToUpper(s: string): string
  {
    if s == [] then [] else [UpperChar(s[0])] + ToUpper(s[1..])
  }

  /** Upper-casing keeps the length, turns every ASCII lower-case letter into its
      capital and leaves every other character alone. */
  lemma {:induction false} ToUpperAt(s: string)
    ensures |ToUpper(s)| == |s|
    ensures forall i :: 0 <= i < |s| ==> ToUpper(s)[i] == UpperChar(s[i])
  {
    if s != [] {
      ToUpperAt(s[1..]);
      assert forall i :: 1 <= i < |s| ==> ToUpper(s)[i] == ToUpper(s[1..])[i - 1];
    }
  }

  /** The same, spelled out per character; and upper-casing twice changes nothing. */
  lemma ToUpperShape(s: string)
    ensures |ToUpper(s)| == |s|
    ensures forall i :: 0 <= i < |s| ==> ('a' <= s[i] <= 'z' ==> ToUpper(s)[i] as int == s[i] as int - 32)
    ensures forall i :: 0 <= i < |s| ==> (!('a' <= s[i] <= 'z') ==> ToUpper(s)[i] == s[i])
    ensures ToUpper(ToUpper(s)) == ToUpper(s)
  {
    ToUpperAt(s);
    ToUpperAt(ToUpper(s));
  }
}
