/** Closing an archive's playlist: idempotent, repeatable, and harmless to its duration. */
module PlaylistClosing {
  import opened Common
  import opened PlaylistModel
  import opened PlaylistRoundTrip

  /** A text is its whole lines followed by its last line. */
  lemma {:induction false} LastLineSplits(text: string)
    ensures |LastLine(text)| <= |text| && OneLine(LastLine(text))
    ensures var k := |text| - |LastLine(text)|;
      text[k..] == LastLine(text) && (k > 0 ==> text[k - 1] == '\n')
    decreases |text|
  {
    if text != "" && text[|text| - 1] != '\n' {
      var front := text[..|text| - 1];
      LastLineSplits(front);
      var k := |front| - |LastLine(front)|;
      assert text[k..] == front[k..] + [text[|text| - 1]];
    }
  }

  lemma {:induction false} LastLineAppended(text: string, more: string)
    requires OneLine(more)
    ensures LastLine(text + more) == LastLine(text) + more
  {
    if more == "" {
      assert text + more == text;
    } else {
      var front := more[..|more| - 1];
      LastLineAppended(text, front);
      assert (text + more)[..|text + more| - 1] == text + front;
    }
  }

  lemma ContainsEnd(a: string, sub: string)
    ensures Contains(a + sub, sub)
  {
    assert FoundAt(a + sub, sub, |a|);
  }

  /** The check appends the tag, or changes nothing exactly if the last line contains it; afterwards the
      last line contains it, and checking again changes nothing. */
  lemma CheckIdempotent(text: string)
    ensures Checked(text) == text <==> Contains(LastLine(text), CLOSING_TAG)
    ensures Checked(text) != text ==> Checked(text) == text + CLOSING_TAG
    ensures Contains(LastLine(Checked(text)), CLOSING_TAG) && Checked(Checked(text)) == Checked(text)
  {
    LastLineAppended(text, CLOSING_TAG);
    ContainsEnd(LastLine(text), CLOSING_TAG);
  }

  /** The live copy is the original, exactly if that was closed already, or the original and the tag; it
      is closed by a line of its own if and only if the original ended a line or was closed already. */
  lemma LiveCopyClosed(original: string)
    ensures LiveCopy(original) == original <==> LastLine(original) == CLOSING_TAG
    ensures LiveCopy(original) != original ==> LiveCopy(original) == original + CLOSING_TAG
    ensures LastLine(LiveCopy(original)) == CLOSING_TAG <==> LastLine(original) == "" || LastLine(original) == CLOSING_TAG
  {
    LastLineAppended(original, CLOSING_TAG);
  }

  /** Checking the original and then copying it adds the tag once. */
  lemma CheckedCopy(original: string)
    requires LastLine(original) == ""
    ensures LiveCopy(Checked(original)) == Checked(original) == LiveCopy(original) == original + "#EXT-X-ENDLIST"
  {
    LastLineAppended(original, CLOSING_TAG);
    assert "" + CLOSING_TAG == CLOSING_TAG;
    assert forall i: nat :: i <= |""| ==> !FoundAt("", CLOSING_TAG, i);
  }

  // The tag and the durations.

  /** The duration tag cannot begin inside the closing tag, nor run into it. */
  lemma NoOverlap(line: string, i: nat)
    requires FoundAt(line + CLOSING_TAG, INF_TAG, i)
    ensures i + |INF_TAG| <= |line|
  {
    var all := line + CLOSING_TAG;
    var found := all[i..i + |INF_TAG|];
    assert found == INF_TAG;
    forall j | 0 <= j < |INF_TAG| ensures all[i + j] == INF_TAG[j] {
      assert found[j] == all[i + j];
    }
    forall j | 0 <= j < |CLOSING_TAG| ensures all[|line| + j] == CLOSING_TAG[j] {}
    assert INF_TAG[0] == '#' && INF_TAG[4] == 'I' && forall j :: 0 < j < |INF_TAG| ==> INF_TAG[j] != '#';
    assert CLOSING_TAG[0] == '#' && CLOSING_TAG[4] == '-' && forall j :: 0 < j < |CLOSING_TAG| ==> CLOSING_TAG[j] != '#';
    assert all[i + 0] == '#' && all[|line| + 0] == '#';
    assert i <= |line| by {
      assert i == |line| + (i - |line|);
    }
    assert !(i < |line| < i + |INF_TAG|) by {
      assert |line| == i + (|line| - i);
    }
    assert i != |line|;
  }

  lemma NoNewTag(line: string)
    ensures Contains(line + CLOSING_TAG, INF_TAG) <==> Contains(line, INF_TAG)
  {
    var all := line + CLOSING_TAG;
    forall i: nat | i <= |all| && FoundAt(all, INF_TAG, i) ensures i <= |line| && FoundAt(line, INF_TAG, i) {
      NoOverlap(line, i);
      assert line[i..i + |INF_TAG|] == all[i..i + |INF_TAG|];
    }
    forall i: nat | i <= |line| && FoundAt(line, INF_TAG, i) ensures FoundAt(all, INF_TAG, i) {
      assert all[i..i + |INF_TAG|] == line[i..i + |INF_TAG|];
    }
  }

  lemma OneLineTotal(line: string)
    requires OneLine(line)
    ensures Total(line) == if line == "" then Some(0.0) else Duration(line)
  {
    if line != "" {
      NewlineMeans(line, 0);
      assert Lines(line) == [line];
      assert Durations([line]) == [Duration(line)];
      assert Added([Duration(line)]) == Plus(Duration(line), Some(0.0));
    } else {
      assert Durations([]) == [];
    }
  }

  lemma TotalSplit(front: string, last: string)
    requires OneLine(last) && (front != "" ==> front[|front| - 1] == '\n')
    ensures Total(front + last) == Plus(Total(front), if last == "" then Some(0.0) else Duration(last))
  {
    TotalAdditive(front, last);
    OneLineTotal(last);
  }

  // What a number is read as, with text after it.

  /** Characters at which the conversion stops wherever it is. */
  predicate Stops(c: char) {
    !IsDigit(c) && !IsSpace(c) && c != '.' && c != '-' && c != '+'
  }

  lemma {:induction false} SpacesStop(t: string, more: string)
    requires more != "" && Stops(more[0])
    ensures SkipSpaces(t + more) == SkipSpaces(t) + more
  {
    if t == "" {
      assert t + more == more;
    } else {
      SpacesStop(t[1..], more);
      assert (t + more)[1..] == t[1..] + more;
    }
  }

  lemma {:induction false} DigitsStop(t: string, more: string)
    requires more != "" && Stops(more[0])
    ensures Digits(t + more) == Digits(t)
  {
    if t == "" {
      assert t + more == more;
    } else {
      DigitsStop(t[1..], more);
      assert (t + more)[1..] == t[1..] + more;
    }
  }

  lemma UnsignedStops(t: string, more: string)
    requires more != "" && Stops(more[0])
    ensures Unsigned(t + more) == Unsigned(t)
  {
    DigitsStop(t, more);
    var whole, rest := Digits(t), t[|Digits(t)|..];
    assert (t + more)[|whole|..] == rest + more;
    PointStops(rest, more);
    hide Digits;
  }

  /** The digits after a leading point. */
  function AfterPoint(rest: string): string {
    if rest != "" && rest[0] == '.' then Digits(rest[1..]) else ""
  }

  lemma PointStops(rest: string, more: string)
    requires more != "" && Stops(more[0])
    ensures AfterPoint(rest + more) == AfterPoint(rest)
  {
    if rest != "" {
      DigitsStop(rest[1..], more);
      assert (rest + more)[1..] == rest[1..] + more;
    }
  }

  /** The conversion reads the same with such a character and anything after it. */
  lemma StodStops(t: string, more: string)
    requires more != "" && Stops(more[0])
    ensures Stod(t + more) == Stod(t)
  {
    SpacesStop(t, more);
    var u := SkipSpaces(t);
    if u == "" {
      assert u + more == more;
      UnsignedStops("", more);
      assert "" + more == more;
    } else {
      UnsignedStops(u, more);
      UnsignedStops(u[1..], more);
      assert (u + more)[1..] == u[1..] + more;
    }
  }

  // The duration of a last line, with the tag after it.

  lemma {:induction false} NoColonFrom(line: string, i: nat)
    requires i <= |line| && ':' !in line[i..]
    ensures ColonFrom(line, i) == 0
    decreases |line| - i
  {
    if i < |line| {
      assert line[i] in line[i..] && line[i + 1..] == line[i..][1..];
      NoColonFrom(line, i + 1);
    }
  }

  lemma {:induction false} ColonAppended(line: string, more: string, i: nat)
    requires i <= |line| && ':' !in more
    ensures ColonFrom(line + more, i) == ColonFrom(line, i)
    decreases |line| - i
  {
    if i == |line| {
      assert (line + more)[i..] == more;
      NoColonFrom(line + more, i);
    } else {
      ColonAppended(line, more, i + 1);
    }
  }

  /** What follows the colon, or the whole line. */
  function Body(line: string): string {
    line[AfterColon(line)..]
  }

  function Cut(s: string): string {
    if s == "" then "" else s[..|s| - 1]
  }

  lemma DurationOfBody(line: string)
    requires Contains(line, INF_TAG)
    ensures Duration(line) == Stod(Cut(Body(line)))
  {
    var k := AfterColon(line);
    if k < |line| {
      assert Body(line)[..|Body(line)| - 1] == line[k..|line| - 1];
    }
  }

  /** The tag takes the cut upon itself: the number is read from the whole body. */
  lemma DurationWithTag(line: string)
    requires Contains(line, INF_TAG)
    ensures Duration(line + CLOSING_TAG) == Stod(Body(line))
  {
    ColonAppended(line, CLOSING_TAG, 0);
    NoNewTag(line);
    DurationOfBody(line + CLOSING_TAG);
    var cut := CLOSING_TAG[..|CLOSING_TAG| - 1];
    assert cut[0] == '#';
    CutAppended(line[AfterColon(line)..], line, CLOSING_TAG);
    StodStops(Body(line), cut);
  }

  lemma CutAppended(body: string, line: string, more: string)
    requires more != "" && |body| <= |line| && body == line[|line| - |body|..]
    ensures Cut((line + more)[|line| - |body|..]) == body + more[..|more| - 1]
  {
    assert (line + more)[|line| - |body|..] == body + more;
  }

  // The tag and the durations.

  function Front(text: string): string {
    LastLineSplits(text);
    text[..|text| - |LastLine(text)|]
  }

  /** The lines before the last are invalid already, or the last one holds no duration, or one that
      reads the same without its last character. */
  predicate ClosesWell(text: string) {
    var last := LastLine(text);
    Total(Front(text)).None? || !Contains(last, INF_TAG) || Stod(Body(last)) == Stod(Cut(Body(last)))
  }

  lemma LastDurations(last: string)
    ensures !Contains(last, INF_TAG) ==> Duration(last + CLOSING_TAG) == Duration(last) == Some(0.0)
    ensures Contains(last, INF_TAG) ==>
      last != "" && Duration(last + CLOSING_TAG) == Stod(Body(last)) && Duration(last) == Stod(Cut(Body(last)))
  {
    NoNewTag(last);
    if Contains(last, INF_TAG) {
      DurationWithTag(last);
      DurationOfBody(last);
    }
  }

  lemma PlusSame(x: Option<real>, a: Option<real>, b: Option<real>)
    ensures Plus(x, a) == Plus(x, b) <==> x.None? || a == b
  {
  }

  lemma TotalsSplit(text: string, more: string)
    requires OneLine(more) && more != ""
    ensures var last := LastLine(text);
      && Total(text) == Plus(Total(Front(text)), if last == "" then Some(0.0) else Duration(last))
      && Total(text + more) == Plus(Total(Front(text)), Duration(last + more))
  {
    LastLineSplits(text);
    hide Total, Duration, LastLine;
    var last, front := LastLine(text), Front(text);
    TotalSplit(front, last);
    TotalSplit(front, last + more);
    assert text == front + last && text + more == front + (last + more);
  }

  /** Appending the tag keeps the parsed duration, or the error, of a playlist in exactly these cases. */
  lemma TagKeepsDuration(text: string)
    ensures Total(text + CLOSING_TAG) == Total(text) <==> ClosesWell(text)
  {
    var last := LastLine(text);
    TotalsSplit(text, CLOSING_TAG);
    LastDurations(last);
    NoneContained(last);
    PlusSame(Total(Front(text)), Duration(last + CLOSING_TAG), if last == "" then Some(0.0) else Duration(last));
  }

  lemma NoneContained(last: string)
    ensures last == "" ==> !Contains(last, INF_TAG)
  {
  }

  /** The same for the two closing steps. A line-terminated playlist, in particular, keeps its duration. */
  lemma ClosingKeepsDuration(text: string)
    ensures Total(Checked(text)) == Total(text) <==> Contains(LastLine(text), CLOSING_TAG) || ClosesWell(text)
    ensures Total(LiveCopy(text)) == Total(text) <==> LastLine(text) == CLOSING_TAG || ClosesWell(text)
    ensures LastLine(text) == "" ==> ClosesWell(text)
  {
    TagKeepsDuration(text);
    NoneContained(LastLine(text));
  }

  lemma {:induction false} RenderEndsLine(es: seq<Entry>)
    ensures LastLine(Render(es)) == ""
    ensures es != [] ==> Render(es) != "" && Render(es)[|Render(es)| - 1] == '\n'
  {
    if es != [] {
      RenderEndsLine(es[1..]);
    }
  }

  /** A well-formed playlist keeps its round trip through the check and the copy. */
  lemma ClosedRoundTrip(es: seq<Entry>)
    requires EntriesOk(es)
    ensures Total(Checked(Render(es))) == Some(Sum(es)) && Total(LiveCopy(Checked(Render(es)))) == Some(Sum(es))
  {
    RenderEndsLine(es);
    RenderedTotal(es);
    NoneContained("");
    TagKeepsDuration(Render(es));
    CheckedCopy(Render(es));
  }

  // A last line that is a duration without its comma.

  /** The last character carries nothing: a final zero of the fraction, or of a whole number of zeros. */
  predicate CutLosesNothing(whole: string, fraction: string) {
    if fraction != "" then fraction[|fraction| - 1] == '0' else |whole| > 1 && AllZero(whole)
  }

  predicate AllZero(s: string) {
    forall i :: 0 <= i < |s| ==> s[i] == '0'
  }

  lemma {:induction false} WholeZero(d: string)
    requires AllDigits(d)
    ensures Whole(d) == 0 <==> AllZero(d)
  {
    if d != "" {
      var front := d[..|d| - 1];
      WholeZero(front);
      assert DigitValue(d[|d| - 1]) == 0 <==> d[|d| - 1] == '0';
      assert AllZero(front) && d[|d| - 1] == '0' ==> AllZero(d);
    }
  }

  lemma {:induction false} FractionCut(d: string)
    requires d != "" && AllDigits(d)
    ensures Fraction(d[..|d| - 1]) == Fraction(d) <==> d[|d| - 1] == '0'
  {
    if |d| == 1 {
      assert d[..0] == "" && d[1..] == "";
      assert DigitValue(d[0]) == 0 <==> d[0] == '0';
    } else {
      FractionCut(d[1..]);
      assert d[1..][..|d| - 2] == d[..|d| - 1][1..];
    }
  }

  lemma CutValueSame(whole: string, fraction: string)
    requires whole != "" && AllDigits(whole) && AllDigits(fraction)
    ensures CutValue(whole, fraction) == Some(Whole(whole) as real + Fraction(fraction)) <==> CutLosesNothing(whole, fraction)
  {
    if fraction != "" {
      FractionCut(fraction);
    } else {
      WholeZero(whole);
      WholeCut(whole);
    }
  }

  lemma WholeCut(whole: string)
    requires whole != "" && AllDigits(whole)
    ensures Whole(whole[..|whole| - 1]) == Whole(whole) <==> Whole(whole) == 0
  {
  }

  lemma NumberBody(whole: string, fraction: string)
    requires whole != "" && AllDigits(whole) && AllDigits(fraction)
    ensures var line := "#EXTINF:" + Number(whole, fraction);
      Contains(line, INF_TAG) && Body(line) == Number(whole, fraction)
  {
    var number := Number(whole, fraction);
    var line := "#EXTINF:" + number;
    assert line == INF_TAG + (":" + number);
    TagFound(":" + number);
    forall j | 0 <= j < 7 ensures line[j] != ':' {
      assert line[j] == INF_TAG[j];
    }
    ColonSkips(line, 0, 7);
  }

  /** A playlist whose last line is a duration without its comma, after valid lines, keeps its duration
      through the tag exactly if the cut loses nothing; else the tag gives the lost digit back. */
  lemma TagRestoresDigit(text: string, whole: string, fraction: string)
    requires whole != "" && AllDigits(whole) && AllDigits(fraction)
    requires LastLine(text) == "#EXTINF:" + Number(whole, fraction)
    ensures Total(text + CLOSING_TAG) == Total(text) <==> Total(Front(text)).None? || CutLosesNothing(whole, fraction)
    ensures Total(text) == Plus(Total(Front(text)), CutValue(whole, fraction))
    ensures Total(text + CLOSING_TAG) == Plus(Total(Front(text)), Some(Whole(whole) as real + Fraction(fraction)))
  {
    TotalsSplit(text, CLOSING_TAG);
    NumberBody(whole, fraction);
    LastDurations(LastLine(text));
    StodPlain(whole, fraction);
    MissingComma(whole, fraction);
    CutValueSame(whole, fraction);
    PlusSame(Total(Front(text)), CutValue(whole, fraction), Some(Whole(whole) as real + Fraction(fraction)));
  }
}
