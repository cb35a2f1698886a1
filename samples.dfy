/**
  The checksums of the three catalogue entries the file source's tests expect
  (data/file_test.go:40-53): each 69-column line is written as six literal pieces and
  its check digit, every piece's weight is evaluated index by index, and the pieces'
  weights add up to the line's checksum.
*/
module TleSamples {
  import opened GoFmt
  import opened TleEncoder
  import opened TleLayout

  /** The weight of a line is the weight of its parts. */
  lemma {:induction false} StandardSumConcat(a: string, b: string)
    ensures StandardSum(a + b) == StandardSum(a) + StandardSum(b)
    decreases |a|
  {
    if a == [] {
      assert a + b == b;
    } else {
      assert (a + b)[0] == a[0] && (a + b)[1..] == a[1..] + b;
      StandardSumConcat(a[1..], b);
    }
  }

  /** The characters the sample lines use: digits, capital letters, spaces, points and
      minus signs. */
  predicate SampleChar(c: char)
  {
    '0' <= c <= '9' || 'A' <= c <= 'Z' || c == ' ' || c == '.' || c == '-'
  }

  /** `StandardWeight`, written with character comparisons only so that it evaluates
      cheaply on literals. */
  function SampleWeight(c: char): int
  {
    if '0' <= c <= '9' then c as int - 48 else if c == '-' then 1 else 0
  }

  lemma SampleCharIsTle(c: char)
    requires SampleChar(c)
    ensures TleChar(c) && SampleWeight(c) == StandardWeight(c)
  {
  }

  /** `StandardSum` of `s[i..]`, walking forward by index so that a literal stays literal. */
  function SumFrom(s: string, i: nat): int
    decreases |s| - i
  {
    if i >= |s| then 0 else SampleWeight(s[i]) + SumFrom(s, i + 1)
  }

  /** Every character of `s[i..]` is a `SampleChar`, walking forward by index. */
  predicate TextFrom(s: string, i: nat)
    decreases |s| - i
  {
    i >= |s| || (SampleChar(s[i]) && TextFrom(s, i + 1))
  }

  lemma {:induction false} IndexWalk(s: string, i: nat)
    requires i <= |s| && TextFrom(s, i)
    ensures TleText(s[i..]) && SumFrom(s, i) == StandardSum(s[i..])
    decreases |s| - i
  {
    if i < |s| {
      IndexWalk(s, i + 1);
      SampleCharIsTle(s[i]);
      assert s[i..][1..] == s[i + 1..];
    }
  }

  /** A piece of a sample line: `SampleChar`s whose digits and minus signs weigh `v`. */
  predicate Piece(p: string, v: nat) { TextFrom(p, 0) && SumFrom(p, 0) == v }

  lemma PieceMeaning(p: string, v: nat)
    requires Piece(p, v)
    ensures TleText(p) && StandardSum(p) == v
  {
    IndexWalk(p, 0);
    assert p[0..] == p;
  }

  lemma PiecesJoin(a: string, b: string, va: nat, vb: nat)
    requires TleText(a) && StandardSum(a) == va && TleText(b) && StandardSum(b) == vb
    ensures TleText(a + b) && StandardSum(a + b) == va + vb
  {
    TleTextAppend(a, b);
    StandardSumConcat(a, b);
  }

  /** Six pieces of 12, 12, 12, 12, 12 and 8 columns followed by the last digit of their
      total weight form a valid line, whose last digit `Checksum` reproduces. */
  lemma SixPieces(a: string, b: string, c: string, d: string, e: string, f: string,
                  va: nat, vb: nat, vc: nat, vd: nat, ve: nat, vf: nat, check: string)
    requires |a| == 12 && |b| == 12 && |c| == 12 && |d| == 12 && |e| == 12 && |f| == 8
    requires Piece(a, va) && Piece(b, vb) && Piece(c, vc) && Piece(d, vd) && Piece(e, ve) && Piece(f, vf)
    requires check == [DigitChar((va + vb + vc + vd + ve + vf) % 10)]
    ensures ValidTleLine(a + b + c + d + e + f + check)
    ensures Checksummed(a + b + c + d + e + f + check)
  {
    PieceMeaning(a, va); PieceMeaning(b, vb); PieceMeaning(c, vc);
    PieceMeaning(d, vd); PieceMeaning(e, ve); PieceMeaning(f, vf);
    PiecesJoin(a, b, va, vb);
    PiecesJoin(a + b, c, va + vb, vc);
    PiecesJoin(a + b + c, d, va + vb + vc, vd);
    PiecesJoin(a + b + c + d, e, va + vb + vc + vd, ve);
    PiecesJoin(a + b + c + d + e, f, va + vb + vc + vd + ve, vf);
    var body := a + b + c + d + e + f;
    assert (body + check)[..68] == body;
    ValidLineIsChecksummed(body + check);
  }

  // OPS 5712 (P/L 153), line 1 (data/file_test.go:40)
  lemma OpsLine1a(p: string) requires p == "1 02874U 670" ensures Piece(p, 35) { assert Piece("1 02874U 670", 35); }
  lemma OpsLine1b(p: string) requires p == "53H   22206." ensures Piece(p, 20) { assert Piece("53H   22206.", 20); }
  lemma OpsLine1c(p: string) requires p == "60472723 -.0" ensures Piece(p, 32) { assert Piece("60472723 -.0", 32); }
  lemma OpsLine1d(p: string) requires p == "0000017  000" ensures Piece(p, 8) { assert Piece("0000017  000", 8); }
  lemma OpsLine1e(p: string) requires p == "00-0  26447-" ensures Piece(p, 25) { assert Piece("00-0  26447-", 25); }
  lemma OpsLine1f(p: string) requires p == "4 0  999" ensures Piece(p, 31) { assert Piece("4 0  999", 31); }

  lemma OpsLine1(a: string, b: string, c: string, d: string, e: string, f: string, check: string)
    requires a == "1 02874U 670" && b == "53H   22206." && c == "60472723 -.0"
    requires d == "0000017  000" && e == "00-0  26447-" && f == "4 0  999" && check == "1"
    ensures ValidTleLine(a + b + c + d + e + f + check)
    ensures Checksummed(a + b + c + d + e + f + check)
  {
    OpsLine1a(a); OpsLine1b(b); OpsLine1c(c); OpsLine1d(d); OpsLine1e(e); OpsLine1f(f);
    SixPieces(a, b, c, d, e, f, 35, 20, 32, 8, 25, 31, check);
  }

  // OPS 5712 (P/L 153), line 2 (data/file_test.go:41)
  lemma OpsLine2a(p: string) requires p == "2 02874  69." ensures Piece(p, 38) { assert Piece("2 02874  69.", 38); }
  lemma OpsLine2b(p: string) requires p == "9738 283.426" ensures Piece(p, 52) { assert Piece("9738 283.426", 52); }
  lemma OpsLine2c(p: string) requires p == "1 0009834 25" ensures Piece(p, 32) { assert Piece("1 0009834 25", 32); }
  lemma OpsLine2d(p: string) requires p == "0.7192 109.2" ensures Piece(p, 31) { assert Piece("0.7192 109.2", 31); }
  lemma OpsLine2e(p: string) requires p == "850 13.96410" ensures Piece(p, 37) { assert Piece("850 13.96410", 37); }
  lemma OpsLine2f(p: string) requires p == "94380815" ensures Piece(p, 38) { assert Piece("94380815", 38); }

  lemma OpsLine2(a: string, b: string, c: string, d: string, e: string, f: string, check: string)
    requires a == "2 02874  69." && b == "9738 283.426" && c == "1 0009834 25"
    requires d == "0.7192 109.2" && e == "850 13.96410" && f == "94380815" && check == "8"
    ensures ValidTleLine(a + b + c + d + e + f + check)
    ensures Checksummed(a + b + c + d + e + f + check)
  {
    OpsLine2a(a); OpsLine2b(b); OpsLine2c(c); OpsLine2d(d); OpsLine2e(e); OpsLine2f(f);
    SixPieces(a, b, c, d, e, f, 38, 52, 32, 31, 37, 38, check);
  }

  // CALSPHERE 1, line 1 (data/file_test.go:46)
  lemma CalsphereLine1a(p: string) requires p == "1 00900U 640" ensures Piece(p, 20) { assert Piece("1 00900U 640", 20); }
  lemma CalsphereLine1b(p: string) requires p == "63C   22206." ensures Piece(p, 21) { assert Piece("63C   22206.", 21); }
  lemma CalsphereLine1c(p: string) requires p == "83199285  .0" ensures Piece(p, 45) { assert Piece("83199285  .0", 45); }
  lemma CalsphereLine1d(p: string) requires p == "0000371  000" ensures Piece(p, 11) { assert Piece("0000371  000", 11); }
  lemma CalsphereLine1e(p: string) requires p == "00-0  38562-" ensures Piece(p, 26) { assert Piece("00-0  38562-", 26); }
  lemma CalsphereLine1f(p: string) requires p == "3 0  999" ensures Piece(p, 30) { assert Piece("3 0  999", 30); }

  lemma CalsphereLine1(a: string, b: string, c: string, d: string, e: string, f: string, check: string)
    requires a == "1 00900U 640" && b == "63C   22206." && c == "83199285  .0"
    requires d == "0000371  000" && e == "00-0  38562-" && f == "3 0  999" && check == "3"
    ensures ValidTleLine(a + b + c + d + e + f + check)
    ensures Checksummed(a + b + c + d + e + f + check)
  {
    CalsphereLine1a(a); CalsphereLine1b(b); CalsphereLine1c(c); CalsphereLine1d(d); CalsphereLine1e(e); CalsphereLine1f(f);
    SixPieces(a, b, c, d, e, f, 20, 21, 45, 11, 26, 30, check);
  }

  // CALSPHERE 1, line 2 (data/file_test.go:47)
  lemma CalsphereLine2a(p: string) requires p == "2 00900  90." ensures Piece(p, 20) { assert Piece("2 00900  90.", 20); }
  lemma CalsphereLine2b(p: string) requires p == "1732  41.611" ensures Piece(p, 26) { assert Piece("1732  41.611", 26); }
  lemma CalsphereLine2c(p: string) requires p == "6 0024844 26" ensures Piece(p, 36) { assert Piece("6 0024844 26", 36); }
  lemma CalsphereLine2d(p: string) requires p == "6.8448 104.5" ensures Piece(p, 40) { assert Piece("6.8448 104.5", 40); }
  lemma CalsphereLine2e(p: string) requires p == "887 13.73849" ensures Piece(p, 58) { assert Piece("887 13.73849", 58); }
  lemma CalsphereLine2f(p: string) requires p == "43487593" ensures Piece(p, 43) { assert Piece("43487593", 43); }

  lemma CalsphereLine2(a: string, b: string, c: string, d: string, e: string, f: string, check: string)
    requires a == "2 00900  90." && b == "1732  41.611" && c == "6 0024844 26"
    requires d == "6.8448 104.5" && e == "887 13.73849" && f == "43487593" && check == "3"
    ensures ValidTleLine(a + b + c + d + e + f + check)
    ensures Checksummed(a + b + c + d + e + f + check)
  {
    CalsphereLine2a(a); CalsphereLine2b(b); CalsphereLine2c(c); CalsphereLine2d(d); CalsphereLine2e(e); CalsphereLine2f(f);
    SixPieces(a, b, c, d, e, f, 20, 26, 36, 40, 58, 43, check);
  }

  // LAGEOS 1, line 1 (data/file_test.go:52)
  lemma LageosLine1a(p: string) requires p == "1 08820U 760" ensures Piece(p, 32) { assert Piece("1 08820U 760", 32); }
  lemma LageosLine1b(p: string) requires p == "39A   22206." ensures Piece(p, 24) { assert Piece("39A   22206.", 24); }
  lemma LageosLine1c(p: string) requires p == "68532073  .0" ensures Piece(p, 34) { assert Piece("68532073  .0", 34); }
  lemma LageosLine1d(p: string) requires p == "0000028  000" ensures Piece(p, 10) { assert Piece("0000028  000", 10); }
  lemma LageosLine1e(p: string) requires p == "00-0  00000-" ensures Piece(p, 2) { assert Piece("00-0  00000-", 2); }
  lemma LageosLine1f(p: string) requires p == "0 0  999" ensures Piece(p, 27) { assert Piece("0 0  999", 27); }

  lemma LageosLine1(a: string, b: string, c: string, d: string, e: string, f: string, check: string)
    requires a == "1 08820U 760" && b == "39A   22206." && c == "68532073  .0"
    requires d == "0000028  000" && e == "00-0  00000-" && f == "0 0  999" && check == "9"
    ensures ValidTleLine(a + b + c + d + e + f + check)
    ensures Checksummed(a + b + c + d + e + f + check)
  {
    LageosLine1a(a); LageosLine1b(b); LageosLine1c(c); LageosLine1d(d); LageosLine1e(e); LageosLine1f(f);
    SixPieces(a, b, c, d, e, f, 32, 24, 34, 10, 2, 27, check);
  }

  // LAGEOS 1, line 2 (data/file_test.go:53)
  lemma LageosLine2a(p: string) requires p == "2 08820 109." ensures Piece(p, 30) { assert Piece("2 08820 109.", 30); }
  lemma LageosLine2b(p: string) requires p == "8533  52.089" ensures Piece(p, 43) { assert Piece("8533  52.089", 43); }
  lemma LageosLine2c(p: string) requires p == "9 0045094 24" ensures Piece(p, 37) { assert Piece("9 0045094 24", 37); }
  lemma LageosLine2d(p: string) requires p == "6.5947 308.4" ensures Piece(p, 46) { assert Piece("6.5947 308.4", 46); }
  lemma LageosLine2e(p: string) requires p == "924  6.38664" ensures Piece(p, 48) { assert Piece("924  6.38664", 48); }
  lemma LageosLine2f(p: string) requires p == "90182229" ensures Piece(p, 33) { assert Piece("90182229", 33); }

  lemma LageosLine2(a: string, b: string, c: string, d: string, e: string, f: string, check: string)
    requires a == "2 08820 109." && b == "8533  52.089" && c == "9 0045094 24"
    requires d == "6.5947 308.4" && e == "924  6.38664" && f == "90182229" && check == "7"
    ensures ValidTleLine(a + b + c + d + e + f + check)
    ensures Checksummed(a + b + c + d + e + f + check)
  {
    LageosLine2a(a); LageosLine2b(b); LageosLine2c(c); LageosLine2d(d); LageosLine2e(e); LageosLine2f(f);
    SixPieces(a, b, c, d, e, f, 30, 43, 37, 46, 48, 33, check);
  }
}
