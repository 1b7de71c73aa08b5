/** The few `java.lang.String` operations the pipeline relies on, written
    out: decimal and hexadecimal conversion of integers, `indexOf`,
    `contains`, `toLowerCase` on ASCII letters and `split` on a
    one-character separator. */
module JavaText {
  import opened Wrappers

  predicate IsDigit(c: char) { '0' <= c <= '9' }

  /** The decimal digits of a natural number, most significant first. */
  function Digits(n: nat): (r: string)
    ensures |r| > 0
    ensures forall i :: 0 <= i < |r| ==> IsDigit(r[i])
  {
    var d := ['0' + (n % 10) as char];
    if n < 10 then d else Digits(n / 10) + d
  }

  /** `Long.toString(n)`, which string concatenation uses for an int or a long. */
  function Dec(n: int): (r: string)
    ensures |r| > 0
    ensures forall i :: 0 <= i < |r| ==> IsDigit(r[i]) || (i == 0 && r[i] == '-')
    ensures r[0] == '-' <==> n < 0
  {
    if n < 0 then "-" + Digits(-n) else Digits(n)
  }

  /** The number a string of decimal digits spells. */
  function DigitsValue(s: string): int
  {
    if |s| == 0 then 0 else DigitsValue(s[..|s| - 1]) * 10 + (s[|s| - 1] as int - '0' as int)
  }

  /** The number `Long.parseLong` reads from a decimal text, sign included. */
  function DecValue(s: string): int
  {
    if |s| > 0 && s[0] == '-' then -DigitsValue(s[1..]) else DigitsValue(s)
  }

  /** The digits read back give the number they were made of. */
  lemma {:induction false} DigitsRoundTrip(n: nat)
    ensures DigitsValue(Digits(n)) == n
    decreases n
  {
    if n >= 10 {
      DigitsRoundTrip(n / 10);
      var s := Digits(n);
      assert s[..|s| - 1] == Digits(n / 10);
    }
  }

  /** Decimal text read back gives the number it was made of, so distinct
      numbers are written differently. */
  lemma DecRoundTrip(n: int)
    ensures DecValue(Dec(n)) == n
  {
    if n < 0 {
      DigitsRoundTrip(-n);
      assert Dec(n)[1..] == Digits(-n);
    } else {
      DigitsRoundTrip(n);
    }
  }

  /** Decimal text holds only digits and a leading minus. */
  lemma DecAvoids(n: int, c: char)
    requires !IsDigit(c) && c != '-'
    ensures c !in Dec(n)
  {
  }

  lemma DecInjective(m: int, n: int)
    ensures Dec(m) == Dec(n) <==> m == n
  {
    DecRoundTrip(m);
    DecRoundTrip(n);
  }

  /** `s.indexOf(c)`: the first position of `c`, or -1. */
  function IndexOf(s: string, c: char): (r: int)
    ensures -1 <= r < |s|
    ensures r == -1 <==> c !in s
    ensures r >= 0 ==> s[r] == c && c !in s[..r]
  {
    if |s| == 0 then -1
    else if s[0] == c then 0
    else
      var k := IndexOf(s[1..], c);
      if k < 0 then -1
      else assert s[1..][..k] == s[1..k + 1]; k + 1
  }

  /** The first position holding `c` is `indexOf`'s answer. */
  lemma IndexOfFirst(s: string, c: char, k: int)
    requires 0 <= k < |s| && s[k] == c && c !in s[..k]
    ensures IndexOf(s, c) == k
  {
  }

  /** `s.contains(sub)`. */
  predicate Contains(s: string, sub: string)
    decreases |s|
  {
    |sub| <= |s| && (s[..|sub|] == sub || Contains(s[1..], sub))
  }

  /** An occurrence inside a suffix is an occurrence. */
  lemma {:induction false} ContainsInSuffix(s: string, j: int, sub: string)
    requires 0 <= j <= |s| && Contains(s[j..], sub)
    ensures Contains(s, sub)
    decreases j
  {
    if j > 0 {
      assert s[1..][j - 1..] == s[j..];
      ContainsInSuffix(s[1..], j - 1, sub);
    }
  }

  /** A first piece that starts with `sub` puts `sub` in the whole text. */
  lemma FirstPieceInText(s: string, c: char, sub: string)
    requires |sub| <= |Pieces(s, c)[0]| && Pieces(s, c)[0][..|sub|] == sub
    ensures Contains(s, sub)
  {
    var idx := IndexOf(s, c);
    var first := Pieces(s, c)[0];
    assert first == if idx < 0 then s else s[..idx];
    assert first[..|sub|] == s[..|sub|];
  }

  /** A piece that starts with `sub` puts `sub` in the whole text. */
  lemma {:induction false} ContainsPiece(s: string, c: char, k: int, sub: string)
    requires 0 <= k < |Pieces(s, c)|
    requires |sub| <= |Pieces(s, c)[k]| && Pieces(s, c)[k][..|sub|] == sub
    ensures Contains(s, sub)
    decreases |s|
  {
    if k == 0 {
      FirstPieceInText(s, c, sub);
    } else {
      var idx := IndexOf(s, c);
      assert idx >= 0;
      assert Pieces(s, c)[k] == Pieces(s[idx + 1..], c)[k - 1];
      ContainsPiece(s[idx + 1..], c, k - 1, sub);
      ContainsInSuffix(s, idx + 1, sub);
    }
  }

  /** `Character.toLowerCase` on an ASCII letter; other characters are kept. */
  function LowerChar(c: char): (r: char)
    ensures r == c <==> !('A' <= c <= 'Z')
    ensures 'A' <= c <= 'Z' ==> 'a' <= r <= 'z' && r as int - 'a' as int == c as int - 'A' as int
  {
    if 'A' <= c <= 'Z' then (c as int + 32) as char else c
  }

  /** `toLowerCase` restricted to ASCII letters, the only letters it meets here. */
  function ToLowerCase(s: string): (r: string)
    ensures |r| == |s|
    ensures forall i :: 0 <= i < |s| ==> r[i] == LowerChar(s[i])
  {
    seq(|s|, i requires 0 <= i < |s| => LowerChar(s[i]))
  }

  // Hexadecimal digits

  /** A lower-case hexadecimal digit. */
  predicate IsLowerHex(c: char) {
    '0' <= c <= '9' || 'a' <= c <= 'f'
  }

  /** The lower-case hex digit of a nibble. */
  function HexDigit(n: int): (c: char)
    requires 0 <= n < 16
    ensures IsLowerHex(c)
  {
    if n < 10 then ('0' as int + n) as char else ('a' as int + n - 10) as char
  }

  /** The value of a lower-case hex digit. */
  function DigitValue(c: char): Option<int>
  {
    if '0' <= c <= '9' then Some(c as int - '0' as int)
    else if 'a' <= c <= 'f' then Some(c as int - 'a' as int + 10)
    else None
  }

  lemma DigitRoundTrip(n: int)
    requires 0 <= n < 16
    ensures DigitValue(HexDigit(n)) == Some(n)
  {
  }

  /** `BigInteger.toString(16)` and `Long.toHexString` of a non-negative
      number: lower-case digits, most significant first, no leading zero. */
  function ToHexString(n: nat): (s: string)
    ensures |s| > 0
    ensures forall i :: 0 <= i < |s| ==> IsLowerHex(s[i])
    ensures s[0] == '0' <==> n == 0
    decreases n
  {
    if n < 16 then [HexDigit(n)] else ToHexString(n / 16) + [HexDigit(n % 16)]
  }

  /** The number a string of lower-case hex digits spells. */
  function HexValue(s: string): int
  {
    if |s| == 0 then 0
    else
      var d := DigitValue(s[|s| - 1]);
      HexValue(s[..|s| - 1]) * 16 + (if d.Some? then d.value else 0)
  }

  /** Hex text read back gives the number it was made of. */
  lemma {:induction false} ToHexStringRoundTrip(n: nat)
    ensures HexValue(ToHexString(n)) == n
    decreases n
  {
    var s := ToHexString(n);
    DigitRoundTrip(n % 16);
    if n >= 16 {
      ToHexStringRoundTrip(n / 16);
      assert s[..|s| - 1] == ToHexString(n / 16);
    }
  }

  /** Every piece of `s` between occurrences of `c`, empty pieces included. */
  function Pieces(s: string, c: char): (r: seq<string>)
    ensures |r| > 0
    ensures forall i :: 0 <= i < |r| ==> c !in r[i]
    decreases |s|
  {
    var k := IndexOf(s, c);
    if k < 0 then [s] else [s[..k]] + Pieces(s[k + 1..], c)
  }

  /** The pieces joined back with the separator. */
  function Join(pieces: seq<string>, c: char): string
    requires |pieces| > 0
  {
    if |pieces| == 1 then pieces[0] else pieces[0] + [c] + Join(pieces[1..], c)
  }

  lemma ConcatAssoc(a: string, b: string, c: string)
    ensures a + (b + c) == a + b + c
  {
  }

  /** Joining one more piece appends the separator and the piece. */
  lemma {:induction false} JoinAppend(pieces: seq<string>, x: string, c: char)
    requires |pieces| > 0
    ensures Join(pieces + [x], c) == Join(pieces, c) + [c] + x
    decreases |pieces|
  {
    if |pieces| > 1 {
      assert (pieces + [x])[1..] == pieces[1..] + [x];
      JoinAppend(pieces[1..], x, c);
      var j := Join(pieces[1..], c);
      assert pieces[0] + [c] + (j + [c] + x) == (pieces[0] + [c] + j) + [c] + x;
    }
  }

  lemma {:induction false} JoinPieces(s: string, c: char)
    ensures Join(Pieces(s, c), c) == s
    decreases |s|
  {
    var k := IndexOf(s, c);
    if k >= 0 {
      JoinPieces(s[k + 1..], c);
      assert s == s[..k] + [c] + s[k + 1..];
    }
  }

  lemma {:induction false} PiecesOfJoin(pieces: seq<string>, c: char)
    requires |pieces| > 0
    requires forall i :: 0 <= i < |pieces| ==> c !in pieces[i]
    ensures Pieces(Join(pieces, c), c) == pieces
  {
    if |pieces| > 1 {
      PiecesOfJoin(pieces[1..], c);
      PiecesAfterSeparator(pieces[0], Join(pieces[1..], c), c);
    }
  }

  /** A separator-free head is split off as the first piece. */
  lemma PiecesAfterSeparator(a: string, b: string, c: char)
    requires c !in a
    ensures Pieces(a + [c] + b, c) == [a] + Pieces(b, c)
  {
    var s := a + [c] + b;
    assert s[|a|] == c;
    assert s[..|a|] == a;
    assert s[|a| + 1..] == b;
    assert IndexOf(s, c) == |a|;
  }

  /** `s.split(String.valueOf(c))`: without any separator the result is `s`
      itself; otherwise trailing empty pieces are removed. */
  function Split(s: string, c: char): seq<string>
  {
    if c !in s then [s] else DropTrailingEmpty(Pieces(s, c))
  }

  function DropTrailingEmpty(pieces: seq<string>): (r: seq<string>)
    ensures |r| <= |pieces| && r == pieces[..|r|]
    ensures |r| > 0 ==> r[|r| - 1] != ""
    ensures forall i :: |r| <= i < |pieces| ==> pieces[i] == ""
  {
    if |pieces| > 0 && pieces[|pieces| - 1] == "" then DropTrailingEmpty(pieces[..|pieces| - 1]) else pieces
  }

  /** With a separator present and a non-empty last piece, `split` keeps
      every piece. */
  lemma SplitKeepsPieces(s: string, c: char)
    requires |Pieces(s, c)| > 1 && Pieces(s, c)[|Pieces(s, c)| - 1] != ""
    ensures Split(s, c) == Pieces(s, c)
  {
  }
}
