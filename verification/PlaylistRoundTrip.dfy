/** The duration parser inverts rendering, and its sum is additive at line boundaries. */
module PlaylistRoundTrip {
  import opened Common
  import opened PlaylistModel

  // Lines.

  lemma {:induction false} NewlineFound(a: string, b: string, i: nat)
    requires OneLine(a) && i <= |a|
    ensures NewlineFrom(a + "\n" + b, i) == |a|
    decreases |a| - i
  {
    if i < |a| {
      assert (a + "\n" + b)[i] == a[i];
      NewlineFound(a, b, i + 1);
    }
  }

  lemma LinesCons(line: string, rest: string)
    requires OneLine(line)
    ensures Lines(line + "\n" + rest) == [line] + Lines(rest)
  {
    var text := line + "\n" + rest;
    NewlineFound(line, rest, 0);
    assert text[..|line|] == line && text[|line| + 1..] == rest;
  }

  lemma {:induction false} NewlineMeans(text: string, i: nat)
    requires i <= |text|
    ensures var k := NewlineFrom(text, i);
      (k < |text| ==> text[k] == '\n') && forall j :: i <= j < k ==> text[j] != '\n'
    decreases |text| - i
  {
    if i < |text| && text[i] != '\n' {
      NewlineMeans(text, i + 1);
    }
  }

  /** A text that ends with a newline is a first line and another such text. */
  lemma FirstLine(a: string) returns (line: string, rest: string)
    requires a != "" && a[|a| - 1] == '\n'
    ensures a == line + "\n" + rest && OneLine(line)
    ensures rest != "" ==> rest[|rest| - 1] == '\n'
  {
    var k := NewlineFrom(a, 0);
    NewlineMeans(a, 0);
    line, rest := a[..k], a[k + 1..];
  }

  lemma LinesConsAppended(line: string, rest: string, b: string)
    requires OneLine(line) && Lines(rest + b) == Lines(rest) + Lines(b)
    ensures Lines(line + "\n" + rest + b) == [line] + Lines(rest) + Lines(b)
  {
    hide Lines;
    LinesCons(line, rest + b);
    assert line + "\n" + rest + b == line + "\n" + (rest + b);
  }

  /** A text of whole lines followed by another text: the lines of the one, then of the other. */
  lemma {:induction false} LinesAppended(a: string, b: string)
    requires a != "" ==> a[|a| - 1] == '\n'
    ensures Lines(a + b) == Lines(a) + Lines(b)
    decreases |a|
  {
    if a == "" {
      assert a + b == b;
    } else {
      var line, rest := FirstLine(a);
      LinesAppended(rest, b);
      LinesConsAppended(line, rest, b);
      LinesCons(line, rest);
    }
  }

  lemma {:induction false} AddedAppended(a: seq<Option<real>>, b: seq<Option<real>>)
    ensures Added(a + b) == Plus(Added(a), Added(b))
  {
    if a == [] {
      assert a + b == b;
    } else {
      AddedAppended(a[1..], b);
      assert (a + b)[1..] == a[1..] + b;
    }
  }

  /** The untruncated sum is additive over concatenation at a line boundary, and an invalid duration
      on either side is an invalid duration of the whole. */
  lemma TotalAdditive(a: string, b: string)
    requires a != "" ==> a[|a| - 1] == '\n'
    ensures Total(a + b) == Plus(Total(a), Total(b))
  {
    LinesAppended(a, b);
    DurationsAppended(Lines(a), Lines(b));
    AddedAppended(Durations(Lines(a)), Durations(Lines(b)));
  }

  lemma DurationsAppended(a: seq<string>, b: seq<string>)
    ensures Durations(a + b) == Durations(a) + Durations(b)
  {
  }

  // Numbers.

  /** Digits end where something else begins. */
  lemma {:induction false} DigitsUpTo(d: string, rest: string)
    requires AllDigits(d) && (rest != "" ==> !IsDigit(rest[0]))
    ensures Digits(d + rest) == d
  {
    if d == "" {
      assert d + rest == rest;
    } else {
      DigitsUpTo(d[1..], rest);
      assert (d + rest)[1..] == d[1..] + rest;
    }
  }

  lemma {:induction false} UnsignedNumber(whole: string, fraction: string, rest: string)
    requires whole != "" && AllDigits(whole) && AllDigits(fraction)
    requires rest != "" ==> !IsDigit(rest[0]) && rest[0] != '.'
    ensures Unsigned(Number(whole, fraction) + rest) == Some(Whole(whole) as real + Fraction(fraction))
  {
    if fraction == "" {
      UnsignedWhole(whole, rest);
    } else {
      UnsignedFraction(whole, fraction, rest);
    }
    NumberForm(whole, fraction, rest);
  }

  lemma NumberForm(whole: string, fraction: string, rest: string)
    ensures Number(whole, fraction) + rest == whole + if fraction == "" then rest else "." + (fraction + rest)
  {
  }

  lemma UnsignedWhole(whole: string, rest: string)
    requires whole != "" && AllDigits(whole) && (rest != "" ==> !IsDigit(rest[0]) && rest[0] != '.')
    ensures Unsigned(whole + rest) == Some(Whole(whole) as real)
  {
    DigitsUpTo(whole, rest);
    assert (whole + rest)[|whole|..] == rest;
  }

  lemma {:induction false} UnsignedFraction(whole: string, fraction: string, rest: string)
    requires whole != "" && AllDigits(whole) && AllDigits(fraction) && (rest != "" ==> !IsDigit(rest[0]))
    ensures Unsigned(whole + ("." + (fraction + rest))) == Some(Whole(whole) as real + Fraction(fraction))
  {
    var tail := "." + (fraction + rest);
    DigitsUpTo(whole, tail);
    assert (whole + tail)[|whole|..] == tail && tail[1..] == fraction + rest;
    DigitsUpTo(fraction, rest);
  }

  lemma StodNumber(whole: string, fraction: string, rest: string)
    requires whole != "" && AllDigits(whole) && AllDigits(fraction)
    requires rest != "" ==> !IsDigit(rest[0]) && rest[0] != '.'
    ensures Stod(Number(whole, fraction) + rest) == Some(Whole(whole) as real + Fraction(fraction))
  {
    UnsignedNumber(whole, fraction, rest);
    var text := Number(whole, fraction) + rest;
    assert text[0] == whole[0] && IsDigit(text[0]);
  }

  // One line.

  lemma TagFound(rest: string)
    ensures Contains(INF_TAG + rest, INF_TAG)
  {
    assert FoundAt(INF_TAG + rest, INF_TAG, 0);
  }

  lemma {:induction false} ColonSkips(line: string, i: nat, k: nat)
    requires i <= k < |line| && line[k] == ':' && forall j :: i <= j < k ==> line[j] != ':'
    ensures ColonFrom(line, i) == k + 1
    decreases k - i
  {
    if i < k {
      ColonSkips(line, i + 1, k);
    }
  }

  /** A line that starts with the tag: the number is read from what follows, less its last character. */
  lemma InfDuration(body: string)
    requires body != ""
    ensures Duration("#EXTINF:" + body) == Stod(body[..|body| - 1])
  {
    var line := "#EXTINF:" + body;
    assert line == INF_TAG + (":" + body);
    TagFound(":" + body);
    forall j | 0 <= j < 7 ensures line[j] != ':' {
      assert line[j] == INF_TAG[j];
    }
    ColonSkips(line, 0, 7);
    assert line[8..|line| - 1] == body[..|body| - 1];
  }

  lemma DurationCut(number: string, rest: string)
    requires rest != ""
    ensures Duration("#EXTINF:" + (number + rest)) == Stod(number + rest[..|rest| - 1])
  {
    InfDuration(number + rest);
    assert (number + rest)[..|number + rest| - 1] == number + rest[..|rest| - 1];
  }

  /** The number of a segment line survives the cut of its last character: that is the comma, or
      belongs to the title after it. */
  lemma SegmentDuration(e: Entry)
    requires e.Segment? && EntryOk(e)
    ensures Duration(Rendered(e)) == Some(Length(e))
  {
    var number, rest := Number(e.whole, e.fraction), "," + e.title;
    DurationCut(number, rest);
    StodNumber(e.whole, e.fraction, rest[..|rest| - 1]);
  }

  lemma {:induction false} EntryDuration(e: Entry)
    requires EntryOk(e)
    ensures Duration(Rendered(e)) == Some(Length(e)) && OneLine(Rendered(e))
  {
    if e.Segment? {
      SegmentDuration(e);
      assert forall i :: 0 <= i < |e.whole| ==> e.whole[i] != '\n';
      assert forall i :: 0 <= i < |e.fraction| ==> e.fraction[i] != '\n';
    }
  }

  // The whole playlist.

  lemma {:induction false} RenderedLines(es: seq<Entry>)
    requires EntriesOk(es)
    ensures |Lines(Render(es))| == |es| && forall i :: 0 <= i < |es| ==> Lines(Render(es))[i] == Rendered(es[i])
  {
    if es != [] {
      RenderedLines(es[1..]);
      EntryDuration(es[0]);
      LinesCons(Rendered(es[0]), Render(es[1..]));
    }
  }

  lemma {:induction false} AddedLengths(es: seq<Entry>, durations: seq<Option<real>>)
    requires EntriesOk(es) && |durations| == |es|
    requires forall i :: 0 <= i < |es| ==> EntryOk(es[i]) && durations[i] == Some(Length(es[i]))
    ensures Added(durations) == Some(Sum(es))
  {
    if es != [] {
      AddedLengths(es[1..], durations[1..]);
    }
  }

  lemma RenderedTotal(es: seq<Entry>)
    requires EntriesOk(es)
    ensures Total(Render(es)) == Some(Sum(es))
  {
    RenderedLines(es);
    var lines := Lines(Render(es));
    forall i | 0 <= i < |es| ensures EntryOk(es[i]) && Durations(lines)[i] == Some(Length(es[i])) {
      assert es[i] in es;
      EntryDuration(es[i]);
    }
    AddedLengths(es, Durations(lines));
  }

  lemma {:induction false} FractionBounds(d: string)
    requires AllDigits(d)
    ensures 0.0 <= Fraction(d) < 1.0
  {
    if d != "" {
      FractionBounds(d[1..]);
    }
  }

  lemma {:induction false} SumNotNegative(es: seq<Entry>)
    requires EntriesOk(es)
    ensures Sum(es) >= 0.0
  {
    if es != [] {
      SumNotNegative(es[1..]);
      assert EntryOk(es[0]);
      if es[0].Segment? {
        FractionBounds(es[0].fraction);
      }
    }
  }

  /** The round trip: for every list of segments and other lines, the parser's result is the floor of
      the exact sum. */
  lemma DurationRoundTrip(es: seq<Entry>)
    requires EntriesOk(es)
    ensures Total(Render(es)).Some? && Truncated(Total(Render(es)).value) == Sum(es).Floor
    ensures 0 <= Sum(es).Floor
  {
    RenderedTotal(es);
    SumNotNegative(es);
  }

  /** What is left of a duration when its last character is cut. */
  function CutValue(whole: string, fraction: string): Option<real>
    requires whole != "" && AllDigits(whole) && AllDigits(fraction)
  {
    if fraction != "" then Some(Whole(whole) as real + Fraction(fraction[..|fraction| - 1]))
    else if |whole| > 1 then Some(Whole(whole[..|whole| - 1]) as real)
    else None
  }

  lemma StodPlain(whole: string, fraction: string)
    requires whole != "" && AllDigits(whole) && AllDigits(fraction)
    ensures Stod(Number(whole, fraction)) == Some(Whole(whole) as real + Fraction(fraction))
  {
    StodNumber(whole, fraction, "");
    assert Number(whole, fraction) + "" == Number(whole, fraction);
  }

  lemma CutFraction(whole: string, fraction: string)
    requires whole != "" && fraction != "" && AllDigits(whole) && AllDigits(fraction)
    ensures var number := Number(whole, fraction); Stod(number[..|number| - 1]) == CutValue(whole, fraction)
  {
    if |fraction| > 1 {
      CutLongFraction(whole, fraction);
    } else {
      CutNumber(whole, fraction);
      TrailingPoint(whole);
    }
  }

  lemma CutLongFraction(whole: string, fraction: string)
    requires whole != "" && |fraction| > 1 && AllDigits(whole) && AllDigits(fraction)
    ensures var number := Number(whole, fraction); Stod(number[..|number| - 1]) == CutValue(whole, fraction)
  {
    CutNumber(whole, fraction);
    var shorter := fraction[..|fraction| - 1];
    assert AllDigits(shorter);
    StodPlain(whole, shorter);
  }

  lemma CutWhole(whole: string)
    requires whole != "" && AllDigits(whole)
    ensures var number := Number(whole, ""); Stod(number[..|number| - 1]) == CutValue(whole, "")
  {
    CutNumber(whole, "");
    if |whole| > 1 {
      StodPlain(whole[..|whole| - 1], "");
    }
  }

  /** Without the comma the cut takes the last digit of the duration, or leaves nothing to convert. */
  lemma MissingComma(whole: string, fraction: string)
    requires whole != "" && AllDigits(whole) && AllDigits(fraction)
    ensures Duration("#EXTINF:" + Number(whole, fraction)) == CutValue(whole, fraction)
  {
    InfDuration(Number(whole, fraction));
    if fraction == "" {
      CutWhole(whole);
    } else {
      CutFraction(whole, fraction);
    }
  }

  lemma CutNumber(whole: string, fraction: string)
    requires whole != ""
    ensures var number := Number(whole, fraction); var cut := number[..|number| - 1];
      && (|fraction| > 1 ==> cut == Number(whole, fraction[..|fraction| - 1]))
      && (|fraction| == 1 ==> cut == whole + ".")
      && (fraction == "" && |whole| > 1 ==> cut == Number(whole[..|whole| - 1], ""))
      && (fraction == "" && |whole| == 1 ==> cut == "")
  {
  }

  lemma TrailingPoint(whole: string)
    requires whole != "" && AllDigits(whole)
    ensures Stod(whole + ".") == Some(Whole(whole) as real)
  {
    UnsignedPoint(whole, ".");
    assert (whole + ".")[0] == whole[0] && IsDigit(whole[0]);
  }

  lemma {:induction false} UnsignedPoint(whole: string, rest: string)
    requires whole != "" && AllDigits(whole) && |rest| == 1 && rest[0] == '.'
    ensures Unsigned(whole + rest) == Some(Whole(whole) as real)
  {
    DigitsUpTo(whole, rest);
    assert (whole + rest)[|whole|..] == rest;
    assert rest[1..] == "" && Digits("") == "";
  }

  // The repair.

  /** For begin times and totals within the signed range, the repaired end is not before the begin
      exactly when the total is not negative and the sum does not overflow. */
  lemma RepairedNotBefore(begin: int, total: int)
    requires 0 <= begin < TWO_63 && -TWO_63 <= total < TWO_63
    ensures AsInt64(begin + total) >= begin <==> total >= 0 && begin + total < TWO_63
  {
  }

  /** The end of an archive with a well-formed playlist becomes its begin plus the whole seconds of its
      segments, and so is never before its begin unless the sum leaves the signed range. */
  lemma RepairOfRendered(begin: int, es: seq<Entry>)
    requires EntriesOk(es) && 0 <= begin < TWO_63 && Sum(es).Floor < TWO_63
    ensures var sum := begin + Sum(es).Floor; var end := AsInt64(sum);
      && RepairEnd(0, begin, Readable(Render(es))) == Repaired(end)
      && (end >= begin <==> sum < TWO_63) && (sum < TWO_63 ==> end == sum)
  {
    hide Total, Sum, Render;
    DurationRoundTrip(es);
    RepairedNotBefore(begin, Sum(es).Floor);
  }

  /** Any readable playlist: the end goes before the begin exactly when the durations sum to minus
      two or less; minus one is taken for a file that could not be opened. */
  lemma RepairGoesBack(begin: int, text: string)
    requires 0 <= begin < TWO_63 && Total(text).Some?
    requires -TWO_63 <= Truncated(Total(text).value) && begin + Truncated(Total(text).value) < TWO_63
    ensures var sum := Total(text).value; var repair := RepairEnd(0, begin, Readable(text));
      && (repair.Kept? <==> -2.0 < sum <= -1.0)
      && (repair.Repaired? && repair.end < begin <==> sum <= -2.0)
  {
    RepairWithTotal(begin, Total(text).value);
  }

  lemma RepairWithTotal(begin: int, sum: real)
    requires 0 <= begin < TWO_63 && -TWO_63 <= Truncated(sum) && begin + Truncated(sum) < TWO_63
    ensures var repair := RepairWith(begin, Some(sum));
      && (repair.Kept? <==> -2.0 < sum <= -1.0)
      && (repair.Repaired? && repair.end < begin <==> sum <= -2.0)
  {
  }

  /** Which archives the repair leaves alone, which it gives up on, and which it closes at their begin: a
      proper end, a missing or an unopenable playlist always keep the end. */
  lemma RepairDecides(endSecond: int, begin: int, file: PlaylistFile)
    ensures RepairEnd(endSecond, begin, file) == Kept <==>
      || endSecond != 0 || file == Missing || file == Unopenable
      || (file.Readable? && Total(file.text).Some? && -2.0 < Total(file.text).value <= -1.0)
    ensures RepairEnd(endSecond, begin, file) == Raised <==> endSecond == 0 && file.Readable? && Total(file.text) == None
    ensures endSecond == 0 && file == PathError && 0 <= begin < TWO_63 ==> RepairEnd(endSecond, begin, file) == Repaired(begin)
  {
  }

  /** The conversion to a signed 64-bit number: the one in its range that is congruent. */
  lemma SignedRange(x: int)
    ensures -0x8000_0000_0000_0000 <= AsInt64(x) < 0x8000_0000_0000_0000
    ensures (AsInt64(x) - x) % 0x1_0000_0000_0000_0000 == 0
  {
  }

  // Numbers after white space and a sign, and texts that hold none.

  predicate IsBlank(c: char) {
    c == ' ' || 9 <= c as int <= 13
  }

  predicate Blank(s: string) {
    forall i :: 0 <= i < |s| ==> IsBlank(s[i])
  }

  lemma {:induction false} BlankSkipped(spaces: string, rest: string)
    requires Blank(spaces) && (rest != "" ==> !IsBlank(rest[0]))
    ensures SkipSpaces(spaces + rest) == rest
  {
    if spaces == "" {
      assert spaces + rest == rest;
    } else {
      BlankSkipped(spaces[1..], rest);
      assert (spaces + rest)[1..] == spaces[1..] + rest;
    }
  }

  lemma StodAfter(spaces: string, text: string)
    requires Blank(spaces) && text != "" && IsDigit(text[0])
    ensures Stod(spaces + text) == Unsigned(text)
    ensures Stod(spaces + ("+" + text)) == Unsigned(text) && Stod(spaces + ("-" + text)) == Negated(Unsigned(text))
  {
    BlankSkipped(spaces, text);
    BlankSkipped(spaces, "+" + text);
    BlankSkipped(spaces, "-" + text);
    hide Unsigned, SkipSpaces;
    assert ("+" + text)[1..] == text && ("-" + text)[1..] == text;
  }

  /** The conversion reads a number after any white space and at most one sign. */
  lemma StodSigned(spaces: string, whole: string, fraction: string, rest: string)
    requires Blank(spaces) && whole != "" && AllDigits(whole) && AllDigits(fraction)
    requires rest != "" ==> !IsDigit(rest[0]) && rest[0] != '.'
    ensures var text, value := Number(whole, fraction) + rest, Whole(whole) as real + Fraction(fraction);
      && Stod(spaces + text) == Stod(spaces + ("+" + text)) == Some(value)
      && Stod(spaces + ("-" + text)) == Some(-value)
  {
    hide Stod, Unsigned, Number, Whole, Fraction, Blank;
    NumberStarts(whole, fraction, rest);
    UnsignedNumber(whole, fraction, rest);
    StodAfter(spaces, Number(whole, fraction) + rest);
  }

  lemma NumberStarts(whole: string, fraction: string, rest: string)
    requires whole != "" && AllDigits(whole)
    ensures Number(whole, fraction) + rest != "" && IsDigit((Number(whole, fraction) + rest)[0])
  {
    assert (Number(whole, fraction) + rest)[0] == whole[0];
  }

  /** It raises for a text that begins with anything else, in particular for an empty one. */
  lemma StodRaises(spaces: string, rest: string)
    requires Blank(spaces) && (rest != "" ==> !IsBlank(rest[0]) && !IsDigit(rest[0]) && rest[0] !in "+-.")
    ensures Stod(spaces + rest) == None
  {
    BlankSkipped(spaces, rest);
  }

  /** The duration of a line with the tag is read from what follows the first colon, less the last
      character. */
  lemma TaggedDuration(before: string, body: string)
    requires ':' !in before && body != "" && Contains(before + (":" + body), INF_TAG)
    ensures Duration(before + (":" + body)) == Stod(body[..|body| - 1])
  {
    var line := before + (":" + body);
    forall j | 0 <= j < |before| ensures line[j] != ':' {
      assert line[j] == before[j];
    }
    ColonSkips(line, 0, |before|);
    hide Stod, Contains, ColonFrom;
    assert line[|before| + 1..|line| - 1] == body[..|body| - 1];
  }

  /** In a line without a colon it is read from the beginning. */
  lemma TaggedWithoutColon(line: string)
    requires ':' !in line && Contains(line, INF_TAG)
    ensures line != "" && Duration(line) == Stod(line[..|line| - 1])
  {
    NoColon(line, 0);
    assert line[0..|line| - 1] == line[..|line| - 1];
  }

  lemma {:induction false} NoColon(line: string, i: nat)
    requires i <= |line| && ':' !in line
    ensures ColonFrom(line, i) == 0
    decreases |line| - i
  {
    if i < |line| {
      NoColon(line, i + 1);
    }
  }

  // The value of the digits.

  /** The decimal numeral of a number. */
  function Numeral(n: nat): (s: string)
    ensures s != "" && AllDigits(s)
  {
    var digit := ['0' + (n % 10) as char];
    if n < 10 then digit else Numeral(n / 10) + digit
  }

  lemma {:induction false} WholeOfNumeral(n: nat)
    ensures Whole(Numeral(n)) == n
  {
    var s := Numeral(n);
    assert DigitValue(s[|s| - 1]) == n % 10;
    if n < 10 {
      assert s[..0] == "";
    } else {
      WholeOfNumeral(n / 10);
      assert s[..|s| - 1] == Numeral(n / 10);
    }
  }

  function Pow10(k: nat): nat {
    if k == 0 then 1 else 10 * Pow10(k - 1)
  }

  lemma {:induction false} WholeCons(d: string)
    requires d != "" && AllDigits(d)
    ensures Whole(d) == DigitValue(d[0]) * Pow10(|d| - 1) + Whole(d[1..])
  {
    if |d| == 1 {
      assert d[..0] == "" && d[1..] == "";
    } else {
      var front, rest, last := d[..|d| - 1], d[1..], DigitValue(d[|d| - 1]);
      WholeCons(front);
      assert rest[..|rest| - 1] == front[1..];
      assert Whole(d) == 10 * Whole(front) + last && Whole(rest) == 10 * Whole(front[1..]) + last;
      Tenfold(DigitValue(d[0]), Pow10(|d| - 2), Whole(front[1..]), last);
    }
  }

  lemma Tenfold(v: nat, p: nat, w: nat, last: nat)
    ensures 10 * (v * p + w) + last == v * (10 * p) + (10 * w + last)
  {
  }

  ghost predicate IsQuotient(x: real, n: nat, d: nat) {
    x * d as real == n as real
  }

  /** The digits of a fraction are its numerator over a power of ten. */
  lemma {:induction false} FractionOfDigits(d: string)
    requires AllDigits(d)
    ensures IsQuotient(Fraction(d), Whole(d), Pow10(|d|))
  {
    if d != "" {
      hide IsQuotient;
      FractionOfDigits(d[1..]);
      WholeCons(d);
      FractionStep(DigitValue(d[0]), Fraction(d[1..]), Whole(d[1..]), Pow10(|d| - 1));
    }
  }

  lemma {:induction false} RealProduct(a: nat, b: nat)
    ensures (a * b) as real == a as real * b as real
  {
    if a > 0 {
      RealProduct(a - 1, b);
      assert a * b == (a - 1) * b + b;
    }
  }

  lemma FractionStep(v: nat, f: real, whole: nat, p: nat)
    requires IsQuotient(f, whole, p)
    ensures IsQuotient((v as real + f) / 10.0, v * p + whole, 10 * p)
  {
    RealProduct(v, p);
    RealProduct(10, p);
    var x, y := v as real + f, p as real;
    assert x / 10.0 * (10.0 * y) == x * y;
  }
}
