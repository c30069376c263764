/** Strings as the core reads them: Go's `strings` helpers, on sequences of Unicode scalars. */
module Text {

  datatype Option<+T> = None | Some(value: T)

  /** `unicode.IsSpace`. */
  predicate IsSpace(c: char) {
    || '\t' <= c <= '\r'
    || c == ' '
    || c == '\U{85}'
    || c == '\U{A0}'
    || c == '\U{1680}'
    || '\U{2000}' <= c <= '\U{200A}'
    || c == '\U{2028}'
    || c == '\U{2029}'
    || c == '\U{202F}'
    || c == '\U{205F}'
    || c == '\U{3000}'
  }

  /** `strings.TrimFunc`: drops the leading and the trailing characters that satisfy `drop`. */
  function TrimWith(s: string, drop: char -> bool): (r: string)
    ensures |r| <= |s|
    ensures forall c :: c in r ==> c in s
    decreases |s|
  {
    if s == "" then s
    else if drop(s[0]) then TrimWith(s[1..], drop)
    else if drop(s[|s| - 1]) then TrimWith(s[..|s| - 1], drop)
    else s
  }

  /** `strings.TrimSpace`. */
  function TrimSpace(s: string): (r: string) {
    TrimWith(s, IsSpace)
  }

  /** What is trimmed has nothing more to trim. */
  lemma {:induction false} TrimmedStays(s: string, drop: char -> bool)
    ensures TrimWith(TrimWith(s, drop), drop) == TrimWith(s, drop)
    ensures var r := TrimWith(s, drop); r != "" ==> !drop(r[0]) && !drop(r[|r| - 1])
    decreases |s|
  {
    if s != "" {
      if drop(s[0]) {
        TrimmedStays(s[1..], drop);
      } else if drop(s[|s| - 1]) {
        TrimmedStays(s[..|s| - 1], drop);
      }
    }
  }

  predicate Only(s: string, p: char -> bool) {
    forall c :: c in s ==> p(c)
  }

  /** Nothing to trim at either end. */
  predicate Trimmed(s: string, drop: char -> bool) {
    s != "" ==> !drop(s[0]) && !drop(s[|s| - 1])
  }

  /** Trimming takes what surrounds a text and leaves the text. */
  lemma {:induction false} TrimTakesTheEnds(before: string, s: string, after: string, drop: char -> bool)
    requires Only(before, drop) && Trimmed(s, drop) && Only(after, drop)
    ensures TrimWith(before + s + after, drop) == s
    decreases |before| + |after|
  {
    var all := before + s + after;
    if before != "" {
      assert all[1..] == before[1..] + s + after;
      TrimTakesTheEnds(before[1..], s, after, drop);
    } else if after != "" {
      var front := after[..|after| - 1];
      assert all[..|all| - 1] == before + s + front && all[|all| - 1] == after[|after| - 1];
      if s == "" {
        assert all == after && all[1..] == before + s + after[1..];
        TrimTakesTheEnds(before, s, after[1..], drop);
      } else {
        assert all[0] == s[0];
        TrimTakesTheEnds(before, s, front, drop);
      }
    } else {
      assert all == s;
    }
  }

  /** Every text is what trimming leaves of it, with what it takes around that. */
  lemma {:induction false} TrimSplits(s: string, drop: char -> bool) returns (before: string, after: string)
    ensures s == before + TrimWith(s, drop) + after && Only(before, drop) && Only(after, drop)
    decreases |s|
  {
    before, after := "", "";
    if s != "" {
      if drop(s[0]) {
        var more, end := TrimSplits(s[1..], drop);
        before, after := [s[0]] + more, end;
      } else if drop(s[|s| - 1]) {
        var start, more := TrimSplits(s[..|s| - 1], drop);
        before, after := start, more + [s[|s| - 1]];
      }
    }
  }

  lemma {:induction false} SameTrim(s: string, p: char -> bool, q: char -> bool)
    requires forall c :: p(c) == q(c)
    ensures TrimWith(s, p) == TrimWith(s, q)
    decreases |s|
  {
    if s != "" {
      if p(s[0]) {
        SameTrim(s[1..], p, q);
      } else if p(s[|s| - 1]) {
        SameTrim(s[..|s| - 1], p, q);
      }
    }
  }

  lemma TrimsToNothing(s: string, drop: char -> bool)
    ensures TrimWith(s, drop) == "" <==> Only(s, drop)
  {
    if Only(s, drop) {
      TrimTakesTheEnds(s, "", "", drop);
      assert s + "" + "" == s;
    }
    if TrimWith(s, drop) == "" {
      var before, after := TrimSplits(s, drop);
      assert s == before + after;
    }
  }

  /** `strings.ToLower` and `strings.Map`: one character at a time. */
  function MapChars(s: string, f: char -> char): (r: string)
    ensures |r| == |s|
    ensures forall i :: 0 <= i < |s| ==> r[i] == f(s[i])
  {
    seq(|s|, i requires 0 <= i < |s| => f(s[i]))
  }

  /** `strings.IndexByte`, with the length of the string standing for "not found". */
  function IndexOf(s: string, c: char): (i: nat)
    ensures i <= |s|
    ensures forall k :: 0 <= k < i ==> s[k] != c
    ensures i < |s| ==> s[i] == c
  {
    if s == "" || s[0] == c then 0 else 1 + IndexOf(s[1..], c)
  }

  /** A text splits at the first of its separators. */
  lemma SplitsAt(word: string, c: char, rest: string)
    requires c !in word
    ensures IndexOf(word + [c] + rest, c) == |word|
    ensures (word + [c] + rest)[..|word|] == word && (word + [c] + rest)[|word| + 1..] == rest
  {
    var all := word + [c] + rest;
    assert all[|word|] == c;
    assert forall k :: 0 <= k < |word| ==> all[k] == word[k];
  }

  /** `strings.Count` of a one-character needle. */
  function Count(s: string, c: char): nat {
    if s == "" then 0 else (if s[0] == c then 1 else 0) + Count(s[1..], c)
  }

  /** `strings.Split` by one character. */
  function Split(s: string, sep: char): (parts: seq<string>)
    ensures parts != [] && forall k :: 0 <= k < |parts| ==> sep !in parts[k]
    decreases |s|
  {
    var i := IndexOf(s, sep);
    if i == |s| then [s] else [s[..i]] + Split(s[i + 1..], sep)
  }

  // ---------------------------------------------------------------- decimal numbers

  function Digit(d: nat): (c: char)
    requires d < 10
    ensures '0' <= c <= '9' && (c as int) - ('0' as int) == d
  {
    '0' + d as char
  }

  function Decimal(n: nat): (s: string)
    ensures s != "" && forall c :: c in s ==> '0' <= c <= '9'
  {
    if n < 10 then [Digit(n)] else Decimal(n / 10) + [Digit(n % 10)]
  }

  function Value(s: string): int {
    if s == "" then 0 else 10 * Value(s[..|s| - 1]) + (s[|s| - 1] as int - '0' as int)
  }

  lemma {:induction false} DecimalReadsBack(n: nat)
    ensures Value(Decimal(n)) == n
  {
    if n < 10 {
      assert Value("") == 0;
    } else {
      DecimalReadsBack(n / 10);
      var s := Decimal(n);
      assert s[..|s| - 1] == Decimal(n / 10);
    }
  }
}
