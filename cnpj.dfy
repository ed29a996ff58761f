/** CNPJ numbers on the login form (src/app/login/page.tsx): the digit-grouping
    formatter, the Receita Federal modulo-11 check-digit rule and the allow-list
    of test numbers. */
module Cnpj {

  predicate IsDigit(c: char) {
    '0' <= c <= '9'
  }

  predicate AllDigits(s: string) {
    forall k :: 0 <= k < |s| ==> IsDigit(s[k])
  }

  /** `value.replace(/\D/g, '')`: the decimal digits of `value`, in order. */
  function Digits(s: string): (d: string)
    ensures |d| <= |s|
    ensures AllDigits(d)
  {
    if |s| == 0 then [] else (if IsDigit(s[0]) then [s[0]] else []) + Digits(s[1..])
  }

  lemma {:induction false} DigitsAppend(a: string, b: string)
    ensures Digits(a + b) == Digits(a) + Digits(b)
    decreases |a|
  {
    if |a| == 0 {
      assert a + b == b;
    } else {
      var head := if IsDigit(a[0]) then [a[0]] else [];
      assert (a + b)[0] == a[0];
      assert (a + b)[1..] == a[1..] + b;
      assert Digits(a + b) == head + Digits(a[1..] + b);
      DigitsAppend(a[1..], b);
      assert Digits(a) == head + Digits(a[1..]);
    }
  }

  lemma {:induction false} DigitsOfDigits(s: string)
    requires AllDigits(s)
    ensures Digits(s) == s
    decreases |s|
  {
    if |s| > 0 {
      DigitsOfDigits(s[1..]);
    }
  }

  // ---------------------------------------------------------------- formatCNPJ

  function Min(a: int, b: int): int {
    if a <= b then a else b
  }

  /** What one capture group of `/^(\d{0,2})(\d{0,3})(\d{0,3})(\d{0,4})(\d{0,2})$/`
      takes: matching is greedy, so the group covering positions lo..hi of the
      digit string gets whatever of that range is present. */
  function Piece(d: string, lo: nat, hi: nat): string
    requires lo <= hi
  {
    d[Min(lo, |d|)..Min(hi, |d|)]
  }

  /** `if (match[i]) formatted += sep + match[i]`. */
  function Tagged(sep: char, piece: string): string {
    if piece == [] then [] else [sep] + piece
  }

  function Grouped(d: string): string {
    Piece(d, 0, 2) + Tagged('.', Piece(d, 2, 5)) + Tagged('.', Piece(d, 5, 8))
      + Tagged('/', Piece(d, 8, 12)) + Tagged('-', Piece(d, 12, 14))
  }

  /** `formatCNPJ`: up to 14 digits are regrouped as NN.NNN.NNN/NNNN-NN (as far as
      they go); anything with more digits is returned as typed. */
  function FormatCnpj(value: string): (r: string)
    ensures |Digits(value)| > 14 ==> r == value
  {
    var d := Digits(value);
    if |d| <= 14 then Grouped(d) else value
  }

  function Count(b: bool): nat {
    if b then 1 else 0
  }

  lemma PieceDigits(d: string, lo: nat, hi: nat)
    requires lo <= hi && AllDigits(d)
    ensures AllDigits(Piece(d, lo, hi))
    ensures Digits(Piece(d, lo, hi)) == Piece(d, lo, hi)
  {
    DigitsOfDigits(Piece(d, lo, hi));
  }

  lemma TaggedDigits(sep: char, d: string, lo: nat, hi: nat)
    requires !IsDigit(sep) && lo <= hi && AllDigits(d)
    ensures Digits(Tagged(sep, Piece(d, lo, hi))) == Piece(d, lo, hi)
  {
    PieceDigits(d, lo, hi);
    if Piece(d, lo, hi) != [] {
      DigitsAppend([sep], Piece(d, lo, hi));
    }
  }

  lemma SlicesJoin(d: string, a: nat, b: nat, c: nat)
    requires a <= b <= c <= |d|
    ensures d[a..b] + d[b..c] == d[a..c]
  {
  }

  /** The five groups of at most 14 digits join back to the digit string. */
  lemma PiecesJoin(d: string)
    requires |d| <= 14
    ensures Piece(d, 0, 2) + Piece(d, 2, 5) + Piece(d, 5, 8) + Piece(d, 8, 12) + Piece(d, 12, 14) == d
  {
    var n := |d|;
    var a, b, c, e := Min(2, n), Min(5, n), Min(8, n), Min(12, n);
    SlicesJoin(d, 0, a, b);
    SlicesJoin(d, 0, b, c);
    SlicesJoin(d, 0, c, e);
    SlicesJoin(d, 0, e, n);
  }

  /** The grouping neither adds nor drops digits, and each group is non-empty
      exactly when the digit string reaches into it. */
  lemma GroupedDigits(d: string)
    requires AllDigits(d) && |d| <= 14
    ensures Digits(Grouped(d)) == d
    ensures |Grouped(d)| == |d| + Count(|d| > 2) + Count(|d| > 5) + Count(|d| > 8) + Count(|d| > 12)
  {
    var p1, p2, p3, p4, p5 := Piece(d, 0, 2), Piece(d, 2, 5), Piece(d, 5, 8), Piece(d, 8, 12), Piece(d, 12, 14);
    var t2, t3, t4, t5 := Tagged('.', p2), Tagged('.', p3), Tagged('/', p4), Tagged('-', p5);
    PieceDigits(d, 0, 2);
    TaggedDigits('.', d, 2, 5);
    TaggedDigits('.', d, 5, 8);
    TaggedDigits('/', d, 8, 12);
    TaggedDigits('-', d, 12, 14);
    DigitsAppend(p1, t2);
    DigitsAppend(p1 + t2, t3);
    DigitsAppend(p1 + t2 + t3, t4);
    DigitsAppend(p1 + t2 + t3 + t4, t5);
    PiecesJoin(d);
    var n := |d|;
    assert |t2| == |p2| + Count(n > 2) && |t3| == |p3| + Count(n > 5);
    assert |t4| == |p4| + Count(n > 8) && |t5| == |p5| + Count(n > 12);
  }

  /** For inputs with at most 14 digits the formatter keeps exactly those digits,
      in order, and adds one separator for each of digits 3, 6, 9 and 13 present
      (`FormatPartial` says where each one stands). */
  lemma FormatKeepsDigits(value: string)
    requires |Digits(value)| <= 14
    ensures Digits(FormatCnpj(value)) == Digits(value)
    ensures var n := |Digits(value)|;
      |FormatCnpj(value)| == n + Count(n > 2) + Count(n > 5) + Count(n > 8) + Count(n > 12)
  {
    GroupedDigits(Digits(value));
  }

  /** The result always fits the field's `maxLength={18}` when the digits fit a CNPJ. */
  lemma FormatFitsField(value: string)
    requires |Digits(value)| <= 14
    ensures |FormatCnpj(value)| <= 18
  {
    FormatKeepsDigits(value);
  }

  /** Formatting an already formatted value changes nothing. */
  lemma FormatIdempotent(value: string)
    ensures FormatCnpj(FormatCnpj(value)) == FormatCnpj(value)
  {
    if |Digits(value)| <= 14 {
      FormatKeepsDigits(value);
    }
  }

  /** The mask NN.NNN.NNN/NNNN-NN: digit groups of 2, 3, 3, 4 and 2 separated by
      '.', '.', '/' and '-'. */
  predicate FitsMask(r: string) {
    |r| == 18 &&
    AllDigits(r[..2]) && r[2] == '.' && AllDigits(r[3..6]) && r[6] == '.' &&
    AllDigits(r[7..10]) && r[10] == '/' && AllDigits(r[11..15]) && r[15] == '-' &&
    AllDigits(r[16..])
  }

  lemma AllDigitsSlice(d: string, lo: nat, hi: nat)
    requires AllDigits(d) && lo <= hi <= |d|
    ensures AllDigits(d[lo..hi])
  {
    forall k | 0 <= k < hi - lo ensures IsDigit(d[lo..hi][k]) {
      assert d[lo..hi][k] == d[lo + k];
    }
  }

  /** Five digit groups of the mask's lengths, joined by its separators, fit the mask. */
  lemma MaskOfGroups(p1: string, p2: string, p3: string, p4: string, p5: string)
    requires AllDigits(p1) && AllDigits(p2) && AllDigits(p3) && AllDigits(p4) && AllDigits(p5)
    requires |p1| == 2 && |p2| == 3 && |p3| == 3 && |p4| == 4 && |p5| == 2
    ensures FitsMask(p1 + "." + p2 + "." + p3 + "/" + p4 + "-" + p5)
  {
    var r := p1 + "." + p2 + "." + p3 + "/" + p4 + "-" + p5;
    assert r[..2] == p1 && r[3..6] == p2 && r[7..10] == p3;
    assert r[11..15] == p4 && r[16..] == p5;
  }

  lemma GroupedFull(d: string)
    requires |d| == 14 && AllDigits(d)
    ensures Grouped(d) == d[..2] + "." + d[2..5] + "." + d[5..8] + "/" + d[8..12] + "-" + d[12..]
    ensures FitsMask(Grouped(d))
  {
    assert Piece(d, 0, 2) == d[..2] && Piece(d, 2, 5) == d[2..5] && Piece(d, 5, 8) == d[5..8];
    assert Piece(d, 8, 12) == d[8..12] && Piece(d, 12, 14) == d[12..];
    AllDigitsSlice(d, 0, 2);
    AllDigitsSlice(d, 2, 5);
    AllDigitsSlice(d, 5, 8);
    AllDigitsSlice(d, 8, 12);
    AllDigitsSlice(d, 12, 14);
    MaskOfGroups(d[..2], d[2..5], d[5..8], d[8..12], d[12..]);
  }

  /** Fourteen digits, however they are typed, come out as NN.NNN.NNN/NNNN-NN holding
      those digits in order. */
  lemma FormatFullCnpj(value: string)
    requires |Digits(value)| == 14
    ensures var d := Digits(value);
      FormatCnpj(value) == d[..2] + "." + d[2..5] + "." + d[5..8] + "/" + d[8..12] + "-" + d[12..]
    ensures FitsMask(FormatCnpj(value))
  {
    GroupedFull(Digits(value));
  }

  /** A prefix stays a prefix behind a common head and before any tail. */
  lemma PrefixBetween(x: string, p: string, q: string, rest: string)
    requires p <= q
    ensures x + p <= x + q + rest
  {
    assert (x + q + rest)[..|x + p|] == x + p;
  }

  lemma TaggedPrefix(sep: char, p: string, q: string)
    requires p <= q
    ensures Tagged(sep, p) <= Tagged(sep, q)
  {
  }

  /** Typing more digits only extends the grouping: the groups of a shorter
      digit string are a prefix of the groups of any 14-digit continuation. */
  lemma GroupedPrefix(d: string, e: string)
    requires |d| + |e| == 14
    ensures Grouped(d) <= Grouped(d + e)
  {
    var n, de := |d|, d + e;
    assert de[..n] == d;
    forall lo: nat, hi: nat | lo <= hi
      ensures Piece(d, lo, hi) <= Piece(de, lo, hi)
      ensures hi <= n ==> Piece(d, lo, hi) == Piece(de, lo, hi)
      ensures n <= lo ==> Piece(d, lo, hi) == []
    {
      assert de[Min(lo, n)..Min(hi, n)] == d[Min(lo, n)..Min(hi, n)];
    }
    var q1, q2, q3, q4, q5 := Piece(de, 0, 2), Tagged('.', Piece(de, 2, 5)), Tagged('.', Piece(de, 5, 8)),
      Tagged('/', Piece(de, 8, 12)), Tagged('-', Piece(de, 12, 14));
    assert Grouped(de) == q1 + q2 + q3 + q4 + q5;
    TaggedPrefix('.', Piece(d, 2, 5), Piece(de, 2, 5));
    TaggedPrefix('.', Piece(d, 5, 8), Piece(de, 5, 8));
    TaggedPrefix('/', Piece(d, 8, 12), Piece(de, 8, 12));
    TaggedPrefix('-', Piece(d, 12, 14), Piece(de, 12, 14));
    if n <= 2 {
      PrefixBetween([], Piece(d, 0, 2), q1, q2 + q3 + q4 + q5);
    } else if n <= 5 {
      PrefixBetween(q1, Tagged('.', Piece(d, 2, 5)), q2, q3 + q4 + q5);
    } else if n <= 8 {
      PrefixBetween(q1 + q2, Tagged('.', Piece(d, 5, 8)), q3, q4 + q5);
    } else if n <= 12 {
      PrefixBetween(q1 + q2 + q3, Tagged('/', Piece(d, 8, 12)), q4, q5);
    } else {
      PrefixBetween(q1 + q2 + q3 + q4, Tagged('-', Piece(d, 12, 14)), q5, []);
    }
  }

  /** A partly typed CNPJ shows as the beginning of the full mask of any
      completion of its digits, so each separator stands where the mask puts
      it: '.' before digits 3 and 6, '/' before digit 9 and '-' before digit 13. */
  lemma FormatPartial(value: string, e: string)
    requires AllDigits(e) && |Digits(value)| + |e| == 14
    ensures var d := Digits(value) + e;
      FormatCnpj(value) <= d[..2] + "." + d[2..5] + "." + d[5..8] + "/" + d[8..12] + "-" + d[12..]
  {
    var d := Digits(value) + e;
    DigitsAppend(Digits(value), e);
    DigitsOfDigits(Digits(value));
    DigitsOfDigits(e);
    GroupedPrefix(Digits(value), e);
    GroupedFull(d);
    FormatFullCnpj(d);
  }

  /** A non-digit between two strings drops out of their digits. */
  lemma DigitsSkip(p: string, sep: char, q: string)
    requires !IsDigit(sep)
    ensures Digits(p + [sep] + q) == Digits(p) + Digits(q)
  {
    var ps := p + [sep];
    DigitsAppend(ps, q);
    DigitsAppend(p, [sep]);
    assert [sep][1..] == [];
    assert Digits([sep]) == [];
    assert Digits(ps) == Digits(p);
  }

  lemma DigitsOfMasked(p1: string, p2: string, p3: string, p4: string, p5: string,
                       s1: char, s2: char, s3: char, s4: char)
    requires !IsDigit(s1) && !IsDigit(s2) && !IsDigit(s3) && !IsDigit(s4)
    ensures Digits(p1 + [s1] + p2 + [s2] + p3 + [s3] + p4 + [s4] + p5)
         == Digits(p1) + Digits(p2) + Digits(p3) + Digits(p4) + Digits(p5)
  {
    DigitsSkip(p1, s1, p2);
    DigitsSkip(p1 + [s1] + p2, s2, p3);
    DigitsSkip(p1 + [s1] + p2 + [s2] + p3, s3, p4);
    DigitsSkip(p1 + [s1] + p2 + [s2] + p3 + [s3] + p4, s4, p5);
  }

  // ---------------------------------------------------------------- validateCNPJ

  function DigitValue(c: char): nat
    requires IsDigit(c)
  {
    (c as int) - ('0' as int)
  }

  const Weights1: seq<nat> := [5, 4, 3, 2, 9, 8, 7, 6, 5, 4, 3, 2]
  const Weights2: seq<nat> := [6, 5, 4, 3, 2, 9, 8, 7, 6, 5, 4, 3, 2]

  /** The `reduce` in `calculateDigit`, from index i on: the sum of digit times
      weight over positions i up to |w|. */
  function SumFrom(d: string, w: seq<nat>, i: nat): nat
    requires i <= |w| <= |d| && AllDigits(d)
    decreases |w| - i
  {
    if i == |w| then 0 else DigitValue(d[i]) * w[i] + SumFrom(d, w, i + 1)
  }

  function WeightedSum(d: string, w: seq<nat>): nat
    requires |w| <= |d| && AllDigits(d)
  {
    SumFrom(d, w, 0)
  }

  /** `calculateDigit`: a remainder below 2 gives 0, otherwise 11 minus the remainder. */
  function CheckDigit(d: string, w: seq<nat>): (r: nat)
    requires |w| <= |d| && AllDigits(d)
    ensures r <= 9
    ensures r == 0 <==> WeightedSum(d, w) % 11 < 2
    ensures r == 0 || (WeightedSum(d, w) + r) % 11 == 0
  {
    var remainder := WeightedSum(d, w) % 11;
    if remainder < 2 then 0 else 11 - remainder
  }

  /** `/^(\d)\1{13}$/` on a digit string: every digit equals the first. */
  predicate AllSame(d: string) {
    forall k :: 0 <= k < |d| ==> d[k] == d[0]
  }

  /** `validateCNPJ`. */
  function ValidateCnpj(cnpj: string): (ok: bool)
    ensures ok ==> |Digits(cnpj)| == 14 && !AllSame(Digits(cnpj))
  {
    var d := Digits(cnpj);
    if |d| != 14 then false
    else if AllSame(d) then false
    else DigitValue(d[12]) == CheckDigit(d, Weights1) && DigitValue(d[13]) == CheckDigit(d, Weights2)
  }

  /** The verdict depends only on the digits: punctuation never matters. */
  lemma ValidateDependsOnDigits(a: string, b: string)
    requires Digits(a) == Digits(b)
    ensures ValidateCnpj(a) == ValidateCnpj(b)
  {
  }

  /** Formatting never changes the verdict. */
  lemma ValidateIgnoresFormatting(value: string)
    ensures ValidateCnpj(FormatCnpj(value)) == ValidateCnpj(value)
  {
    if |Digits(value)| <= 14 {
      FormatKeepsDigits(value);
    }
  }

  /** The weighted sum looks at the first |w| digits only. */
  lemma {:induction false} SumFromPrefix(d: string, e: string, w: seq<nat>, i: nat)
    requires i <= |w| <= |d| && |w| <= |e| && AllDigits(d) && AllDigits(e)
    requires d[..|w|] == e[..|w|]
    ensures SumFrom(d, w, i) == SumFrom(e, w, i)
    decreases |w| - i
  {
    if i < |w| {
      SumFromPrefix(d, e, w, i + 1);
      assert d[i] == d[..|w|][i] && e[i] == e[..|w|][i];
    }
  }

  function DigitChar(v: nat): (c: char)
    requires v <= 9
    ensures IsDigit(c) && DigitValue(c) == v
  {
    ('0' as int + v) as char
  }

  /** On a bare digit string the verdict is the rule itself. */
  lemma ValidateDigitString(d: string)
    requires |d| == 14 && AllDigits(d)
    ensures ValidateCnpj(d) <==>
      !AllSame(d) && DigitValue(d[12]) == CheckDigit(d, Weights1) && DigitValue(d[13]) == CheckDigit(d, Weights2)
  {
    DigitsOfDigits(d);
  }

  /** A check digit reads only as many leading digits as there are weights. */
  lemma CheckDigitPrefix(d: string, e: string, w: seq<nat>)
    requires |w| <= |d| && |w| <= |e| && AllDigits(d) && AllDigits(e)
    requires d[..|w|] == e[..|w|]
    ensures CheckDigit(d, w) == CheckDigit(e, w)
  {
    SumFromPrefix(d, e, w, 0);
  }

  /** Two digit characters with the same value are the same character. */
  lemma DigitValueInjective(x: char, y: char)
    requires IsDigit(x) && IsDigit(y)
    ensures DigitValue(x) == DigitValue(y) <==> x == y
  {
  }

  /** Appending characters keeps a string that is not all the same not all the same. */
  lemma NotAllSameExtends(base: string, tail: string)
    requires |base| > 0 && !AllSame(base)
    ensures !AllSame(base + tail)
  {
    var k :| 0 <= k < |base| && base[k] != base[0];
    assert (base + tail)[k] == base[k] && (base + tail)[0] == base[0];
  }

  /** Rule of the Receita Federal: the last two digits are determined by the first
      twelve. For twelve digits that are not all the same, appending the two
      computed check digits gives a valid CNPJ, and no other pair of final
      digits does. */
  lemma CheckDigitsDetermined(base: string, x: char, y: char)
    requires |base| == 12 && AllDigits(base) && !AllSame(base)
    requires IsDigit(x) && IsDigit(y)
    ensures var d1 := CheckDigit(base, Weights1);
      var d2 := CheckDigit(base + [DigitChar(d1)], Weights2);
      ValidateCnpj(base + [x, y]) <==> x == DigitChar(d1) && y == DigitChar(d2)
  {
    var d1 := CheckDigit(base, Weights1);
    var c1 := DigitChar(d1);
    var b13 := base + [c1];
    var d2 := CheckDigit(b13, Weights2);
    var d := base + [x, y];
    assert AllDigits(d) && AllDigits(b13);
    ValidateDigitString(d);
    NotAllSameExtends(base, [x, y]);
    assert base[..12] == d[..12];
    CheckDigitPrefix(base, d, Weights1);
    assert d[12] == x && d[13] == y;
    DigitValueInjective(x, c1);
    if x == c1 {
      assert d[..13] == b13[..13];
      CheckDigitPrefix(d, b13, Weights2);
      DigitValueInjective(y, DigitChar(d2));
    }
  }

  /** One step of the sum: the digit at i times its weight, plus the rest. */
  lemma SumStep(d: string, w: seq<nat>, i: nat, c: nat)
    requires i < |w| <= |d| && AllDigits(d) && w[i] == c
    ensures SumFrom(d, w, i) == c * DigitValue(d[i]) + SumFrom(d, w, i + 1)
  {
  }

  lemma Weights1Entries()
    ensures Weights1[0] == 5 && Weights1[1] == 4 && Weights1[2] == 3 && Weights1[3] == 2
    ensures Weights1[4] == 9 && Weights1[5] == 8 && Weights1[6] == 7 && Weights1[7] == 6
    ensures Weights1[8] == 5 && Weights1[9] == 4 && Weights1[10] == 3 && Weights1[11] == 2
  {
  }

  lemma Weights2Entries()
    ensures Weights2[0] == 6 && Weights2[1] == 5 && Weights2[2] == 4 && Weights2[3] == 3
    ensures Weights2[4] == 2 && Weights2[5] == 9 && Weights2[6] == 8 && Weights2[7] == 7
    ensures Weights2[8] == 6 && Weights2[9] == 5 && Weights2[10] == 4 && Weights2[11] == 3
    ensures Weights2[12] == 2
  {
  }

  /** The first check-digit sum written out with the weights of the rule. */
  lemma FirstSumExplicit(d: string)
    requires |d| >= 12 && AllDigits(d)
    ensures WeightedSum(d, Weights1) ==
      5 * DigitValue(d[0]) + 4 * DigitValue(d[1]) + 3 * DigitValue(d[2]) + 2 * DigitValue(d[3])
      + 9 * DigitValue(d[4]) + 8 * DigitValue(d[5]) + 7 * DigitValue(d[6]) + 6 * DigitValue(d[7])
      + 5 * DigitValue(d[8]) + 4 * DigitValue(d[9]) + 3 * DigitValue(d[10]) + 2 * DigitValue(d[11])
  {
    var w := Weights1;
    Weights1Entries();
    SumStep(d, w, 0, 5);
    SumStep(d, w, 1, 4);
    SumStep(d, w, 2, 3);
    SumStep(d, w, 3, 2);
    SumStep(d, w, 4, 9);
    SumStep(d, w, 5, 8);
    SumStep(d, w, 6, 7);
    SumStep(d, w, 7, 6);
    SumStep(d, w, 8, 5);
    SumStep(d, w, 9, 4);
    SumStep(d, w, 10, 3);
    SumStep(d, w, 11, 2);
  }

  /** The second check-digit sum written out with the weights of the rule. */
  lemma SecondSumExplicit(d: string)
    requires |d| >= 13 && AllDigits(d)
    ensures WeightedSum(d, Weights2) ==
      6 * DigitValue(d[0]) + 5 * DigitValue(d[1]) + 4 * DigitValue(d[2]) + 3 * DigitValue(d[3])
      + 2 * DigitValue(d[4]) + 9 * DigitValue(d[5]) + 8 * DigitValue(d[6]) + 7 * DigitValue(d[7])
      + 6 * DigitValue(d[8]) + 5 * DigitValue(d[9]) + 4 * DigitValue(d[10]) + 3 * DigitValue(d[11])
      + 2 * DigitValue(d[12])
  {
    var w := Weights2;
    Weights2Entries();
    SumStep(d, w, 0, 6);
    SumStep(d, w, 1, 5);
    SumStep(d, w, 2, 4);
    SumStep(d, w, 3, 3);
    SumStep(d, w, 4, 2);
    SumStep(d, w, 5, 9);
    SumStep(d, w, 6, 8);
    SumStep(d, w, 7, 7);
    SumStep(d, w, 8, 6);
    SumStep(d, w, 9, 5);
    SumStep(d, w, 10, 4);
    SumStep(d, w, 11, 3);
    SumStep(d, w, 12, 2);
  }

  lemma ModOfMultiple(q: nat, r: nat)
    requires r < 11
    ensures (11 * q + r) % 11 == r
  {
  }

  /** The first check of 11222333000181: the sum 102 leaves remainder 3, giving 8. */
  lemma ExampleFirstCheck(d: string)
    requires d == "11" + "222" + "333" + "0001" + "81"
    ensures AllDigits(d) && DigitValue(d[12]) == CheckDigit(d, Weights1)
  {
    FirstSumExplicit(d);
    assert WeightedSum(d, Weights1) == 11 * 9 + 3;
    ModOfMultiple(9, 3);
  }

  /** The second check of 11222333000181: the sum 120 leaves remainder 10, giving 1. */
  lemma ExampleSecondCheck(d: string)
    requires d == "11" + "222" + "333" + "0001" + "81"
    ensures AllDigits(d) && DigitValue(d[13]) == CheckDigit(d, Weights2)
  {
    SecondSumExplicit(d);
    assert WeightedSum(d, Weights2) == 11 * 10 + 10;
    ModOfMultiple(10, 10);
  }

  /** The digits 11222333000181 pass both checks. */
  lemma ExampleDigitsPass(d: string)
    requires d == "11" + "222" + "333" + "0001" + "81"
    ensures AllDigits(d) && !AllSame(d)
    ensures DigitValue(d[12]) == CheckDigit(d, Weights1) && DigitValue(d[13]) == CheckDigit(d, Weights2)
  {
    assert d[2] != d[0];
    ExampleFirstCheck(d);
    ExampleSecondCheck(d);
  }

  /** A fourteen-digit string whose digits pass both checks is accepted. */
  lemma ValidFromDigits(cnpj: string)
    requires |Digits(cnpj)| == 14 && !AllSame(Digits(cnpj))
    requires DigitValue(Digits(cnpj)[12]) == CheckDigit(Digits(cnpj), Weights1)
    requires DigitValue(Digits(cnpj)[13]) == CheckDigit(Digits(cnpj), Weights2)
    ensures ValidateCnpj(cnpj)
  {
  }

  /** A number that passes the check is accepted as typed on the field. */
  lemma ValidExample(cnpj: string)
    requires cnpj == "11.222.333/0001-81"
    ensures ValidateCnpj(cnpj)
  {
    assert cnpj == "11" + ['.'] + "222" + ['.'] + "333" + ['/'] + "0001" + ['-'] + "81";
    MaskedLiteral("11", "222", "333", "0001", "81");
    var d := Digits(cnpj);
    ExampleDigitsPass(d);
    ValidFromDigits(cnpj);
  }

  // ---------------------------------------------------------------- isTestCNPJ

  /** The shape AA.AAA.AAA/000K-BB every listed test number has. */
  function Listed(a: char, k: char, b: char): string {
    [a, a, '.', a, a, a, '.', a, a, a, '/', '0', '0', '0', k, '-', b, b]
  }

  /** The six test numbers, built from their shape so that the digit functions
      are not evaluated on long string literals. */
  const TestCnpjs: seq<string> := [
    Listed('0', '1', '0'),
    Listed('1', '1', '1'),
    Listed('2', '1', '2'),
    Listed('3', '1', '3'),
    Listed('1', '2', '2'),
    Listed('1', '3', '3')
  ]

  /** The list spelled out as the login page writes it. */
  lemma TestCnpjsAsWritten()
    ensures TestCnpjs == [
      "00.000.000/0001-00", "11.111.111/0001-11", "22.222.222/0001-22",
      "33.333.333/0001-33", "11.111.111/0002-22", "11.111.111/0003-33"]
  {
  }

  /** `isTestCNPJ`: exact membership in the six formatted test numbers. */
  function IsTestCnpj(cnpj: string): (r: bool)
    ensures r ==> |cnpj| == 18
  {
    cnpj in TestCnpjs
  }

  /** Cutting five joined groups of the mask's lengths at the group borders gives
      the groups back. */
  lemma GroupsOfJoined(p1: string, p2: string, p3: string, p4: string, p5: string)
    requires |p1| == 2 && |p2| == 3 && |p3| == 3 && |p4| == 4 && |p5| == 2
    ensures var d := p1 + p2 + p3 + p4 + p5;
      d[..2] == p1 && d[2..5] == p2 && d[5..8] == p3 && d[8..12] == p4 && d[12..] == p5
  {
    var d := p1 + p2 + p3 + p4 + p5;
    assert d == p1 + (p2 + (p3 + (p4 + p5)));
  }

  /** A literal written in the mask's shape has the expected digits and is a
      fixed point of the formatter. */
  lemma MaskedLiteral(p1: string, p2: string, p3: string, p4: string, p5: string)
    requires AllDigits(p1) && AllDigits(p2) && AllDigits(p3) && AllDigits(p4) && AllDigits(p5)
    requires |p1| == 2 && |p2| == 3 && |p3| == 3 && |p4| == 4 && |p5| == 2
    ensures var r := p1 + ['.'] + p2 + ['.'] + p3 + ['/'] + p4 + ['-'] + p5;
      Digits(r) == p1 + p2 + p3 + p4 + p5 && FormatCnpj(r) == r
  {
    var r := p1 + ['.'] + p2 + ['.'] + p3 + ['/'] + p4 + ['-'] + p5;
    var d := p1 + p2 + p3 + p4 + p5;
    assert Digits(r) == d by {
      DigitsOfMasked(p1, p2, p3, p4, p5, '.', '.', '/', '-');
      DigitsOfDigits(p1);
      DigitsOfDigits(p2);
      DigitsOfDigits(p3);
      DigitsOfDigits(p4);
      DigitsOfDigits(p5);
    }
    assert AllDigits(d) && |d| == 14 by {
      DigitsOfDigits(d);
    }
    GroupedFull(d);
    GroupsOfJoined(p1, p2, p3, p4, p5);
  }

  /** The digits of a listed test number, as the digit string AAAAAAAA000KBB. */
  lemma ListedDigits(a: char, k: char, b: char)
    requires IsDigit(a) && IsDigit(k) && IsDigit(b)
    ensures Digits(Listed(a, k, b)) == [a, a] + [a, a, a] + [a, a, a] + ['0', '0', '0', k] + [b, b]
    ensures FormatCnpj(Listed(a, k, b)) == Listed(a, k, b)
  {
    var p1, p2, p3, p4, p5 := [a, a], [a, a, a], [a, a, a], ['0', '0', '0', k], [b, b];
    assert Listed(a, k, b) == p1 + ['.'] + p2 + ['.'] + p3 + ['/'] + p4 + ['-'] + p5;
    MaskedLiteral(p1, p2, p3, p4, p5);
  }

  /** For the digits AAAAAAAA000KBB with 1 <= K <= 5 the first weighted sum is
      44 * A + 2 * K, so the first check digit is 11 - 2 * K. */
  lemma ListedCheckDigit(d: string, a: char, k: char, b: char)
    requires IsDigit(a) && IsDigit(k) && IsDigit(b) && 1 <= DigitValue(k) <= 5
    requires d == [a, a] + [a, a, a] + [a, a, a] + ['0', '0', '0', k] + [b, b]
    ensures |d| == 14 && AllDigits(d) && d[12] == b
    ensures CheckDigit(d, Weights1) == 11 - 2 * DigitValue(k)
  {
    assert d[0] == d[1] == d[2] == d[3] == d[4] == d[5] == d[6] == d[7] == a;
    assert d[8] == d[9] == d[10] == '0' && d[11] == k && d[12] == d[13] == b;
    FirstSumExplicit(d);
    assert WeightedSum(d, Weights1) == 11 * (4 * DigitValue(a)) + 2 * DigitValue(k);
    ModOfMultiple(4 * DigitValue(a), 2 * DigitValue(k));
  }

  /** A number shaped AA.AAA.AAA/000K-BB with 1 <= K <= 5 and a final pair BB that
      differs from the first check digit 11 - 2 * K fails the rule. */
  lemma ListedShape(cnpj: string, a: char, k: char, b: char)
    requires IsDigit(a) && IsDigit(k) && IsDigit(b)
    requires 1 <= DigitValue(k) <= 5 && DigitValue(b) != 11 - 2 * DigitValue(k)
    requires cnpj == Listed(a, k, b)
    ensures |Digits(cnpj)| == 14 && FormatCnpj(cnpj) == cnpj
    ensures !ValidateCnpj(cnpj)
  {
    ListedDigits(a, k, b);
    ListedCheckDigit(Digits(cnpj), a, k, b);
  }

  /** What each listed test number is: already formatted, fourteen digits, and
      rejected by the check-digit rule, so only the allow-list admits it; its
      bare digit string is not on the list. */
  lemma TestCnpjFacts(cnpj: string)
    requires IsTestCnpj(cnpj)
    ensures |Digits(cnpj)| == 14
    ensures FormatCnpj(cnpj) == cnpj
    ensures !ValidateCnpj(cnpj)
    ensures !IsTestCnpj(Digits(cnpj))
  {
    if cnpj == TestCnpjs[0] {
      ListedShape(cnpj, '0', '1', '0');
    } else if cnpj == TestCnpjs[1] {
      ListedShape(cnpj, '1', '1', '1');
    } else if cnpj == TestCnpjs[2] {
      ListedShape(cnpj, '2', '1', '2');
    } else if cnpj == TestCnpjs[3] {
      ListedShape(cnpj, '3', '1', '3');
    } else if cnpj == TestCnpjs[4] {
      ListedShape(cnpj, '1', '2', '2');
    } else {
      ListedShape(cnpj, '1', '3', '3');
    }
  }
}
