/** HLS playlist text: the duration parser used to repair archives, and the closing tag.

    Durations are exact reals in place of binary doubles. */
module PlaylistModel {
  import opened Common

  const INF_TAG := "#EXTINF"
  const CLOSING_TAG := "#EXT-X-ENDLIST"

  // Lines.

  function NewlineFrom(text: string, i: nat): (k: nat)
    requires i <= |text|
    ensures i <= k <= |text|
    decreases |text| - i
  {
    if i == |text| || text[i] == '\n' then i else NewlineFrom(text, i + 1)
  }

  /** The successive results of `getline`: a final newline opens no further line. */
  function Lines(text: string): seq<string>
    decreases |text|
  {
    if text == "" then []
    else
      var k := NewlineFrom(text, 0);
      if k == |text| then [text] else [text[..k]] + Lines(text[k + 1..])
  }

  /** The text after the final newline. */
  function LastLine(text: string): string {
    if text == "" || text[|text| - 1] == '\n' then "" else LastLine(text[..|text| - 1]) + [text[|text| - 1]]
  }

  // Numbers, as `stod` reads them: white space, sign, digits, point, digits; the rest is ignored.

  predicate IsDigit(c: char) {
    '0' <= c <= '9'
  }

  predicate IsSpace(c: char) {
    c in " \t\n\r" || c as int == 11 || c as int == 12
  }

  function DigitValue(c: char): nat
    requires IsDigit(c)
  {
    c as int - '0' as int
  }

  function SkipSpaces(s: string): string {
    if s != "" && IsSpace(s[0]) then SkipSpaces(s[1..]) else s
  }

  /** The longest prefix of digits. */
  function Digits(s: string): (d: string)
    ensures d <= s && forall i :: 0 <= i < |d| ==> IsDigit(d[i])
    ensures |d| < |s| ==> !IsDigit(s[|d|])
  {
    if s == "" || !IsDigit(s[0]) then "" else [s[0]] + Digits(s[1..])
  }

  function Whole(d: string): nat
    requires forall i :: 0 <= i < |d| ==> IsDigit(d[i])
  {
    if d == "" then 0 else 10 * Whole(d[..|d| - 1]) + DigitValue(d[|d| - 1])
  }

  function Fraction(d: string): real
    requires forall i :: 0 <= i < |d| ==> IsDigit(d[i])
  {
    if d == "" then 0.0 else (DigitValue(d[0]) as real + Fraction(d[1..])) / 10.0
  }

  /** An unsigned number at the start of `s`; one digit at least is needed. */
  function Unsigned(s: string): Option<real> {
    var whole := Digits(s);
    var rest := s[|whole|..];
    var fraction := if rest != "" && rest[0] == '.' then Digits(rest[1..]) else "";
    if whole == "" && fraction == "" then None else Some(Whole(whole) as real + Fraction(fraction))
  }

  function Negated(o: Option<real>): Option<real> {
    if o.Some? then Some(-o.value) else None
  }

  /** `None` stands for the exception. */
  function Stod(s: string): Option<real> {
    var t := SkipSpaces(s);
    if t != "" && t[0] == '-' then Negated(Unsigned(t[1..]))
    else if t != "" && t[0] == '+' then Unsigned(t[1..])
    else Unsigned(t)
  }

  // Durations.

  /** `find(":") + 1`, which is 0 where there is no colon. */
  function AfterColon(line: string): (k: nat)
    ensures k <= |line|
  {
    ColonFrom(line, 0)
  }

  function ColonFrom(line: string, i: nat): (k: nat)
    requires i <= |line|
    ensures k <= |line|
    decreases |line| - i
  {
    if i == |line| then 0 else if line[i] == ':' then i + 1 else ColonFrom(line, i + 1)
  }

  /** What follows the colon, less the last character of the line. */
  function DurationText(line: string): string {
    var k := AfterColon(line);
    if k == |line| then "" else line[k..|line| - 1]
  }

  function Duration(line: string): Option<real> {
    if Contains(line, INF_TAG) then Stod(DurationText(line)) else Some(0.0)
  }

  function Plus(a: Option<real>, b: Option<real>): Option<real> {
    if a.Some? && b.Some? then Some(a.value + b.value) else None
  }

  function Added(durations: seq<Option<real>>): Option<real> {
    if durations == [] then Some(0.0) else Plus(durations[0], Added(durations[1..]))
  }

  function Durations(lines: seq<string>): seq<Option<real>> {
    seq(|lines|, i requires 0 <= i < |lines| => Duration(lines[i]))
  }

  /** The untruncated sum of a playlist, if every duration is valid. */
  function Total(text: string): Option<real> {
    Added(Durations(Lines(text)))
  }

  /** Conversion of a double to an integer drops the fraction. */
  function Truncated(x: real): int {
    if x >= 0.0 then x.Floor else -((-x).Floor)
  }

  // The repair of an archive's end time.

  datatype PlaylistFile = Missing | Unopenable | PathError | Readable(text: string)

  /** The archive keeps its end, gets a new one, or the parser's exception leaves the repair. */
  datatype Repair = Kept | Repaired(end: int) | Raised

  const TWO_63 := 0x8000_0000_0000_0000
  const TWO_64 := 0x1_0000_0000_0000_0000

  /** An unsigned 64-bit sum read as a signed one. */
  function AsInt64(x: int): int {
    var u := x % TWO_64;
    if u >= TWO_63 then u - TWO_64 else u
  }

  /** `endSecond` is the local seconds field of the archive's end time. */
  function RepairEnd(endSecond: int, begin: int, file: PlaylistFile): Repair {
    if endSecond != 0 then Kept
    else
      match file
      case Missing => Kept
      case Unopenable => Kept
      case PathError => Repaired(AsInt64(begin))
      case Readable(text) => RepairWith(begin, Total(text))
  }

  function RepairWith(begin: int, total: Option<real>): Repair {
    match total
    case None => Raised
    case Some(sum) => if Truncated(sum) == -1 then Kept else Repaired(AsInt64(begin + Truncated(sum)))
  }

  // The closing tag.

  /** The original's check: a last line that merely contains the tag is enough. */
  function Checked(text: string): string {
    if Contains(LastLine(text), CLOSING_TAG) then text else text + CLOSING_TAG
  }

  /** The live copy: here the last line must be the tag. */
  function LiveCopy(original: string): string {
    if LastLine(original) == CLOSING_TAG then original else original + CLOSING_TAG
  }

  // Well-formed playlists, as the archiver's writer makes them.

  datatype Entry =
    | Segment(whole: string, fraction: string, title: string)
    | Other(text: string)

  predicate OneLine(s: string) {
    '\n' !in s
  }

  predicate AllDigits(s: string) {
    forall i :: 0 <= i < |s| ==> IsDigit(s[i])
  }

  predicate EntryOk(e: Entry) {
    match e
    case Segment(whole, fraction, title) => whole != "" && AllDigits(whole) && AllDigits(fraction) && OneLine(title)
    case Other(text) => OneLine(text) && !Contains(text, INF_TAG)
  }

  predicate EntriesOk(es: seq<Entry>) {
    forall e :: e in es ==> EntryOk(e)
  }

  function Number(whole: string, fraction: string): string {
    whole + if fraction == "" then "" else "." + fraction
  }

  function Rendered(e: Entry): string {
    match e
    case Segment(whole, fraction, title) => "#EXTINF:" + (Number(whole, fraction) + ("," + title))
    case Other(text) => text
  }

  function Render(es: seq<Entry>): string {
    if es == [] then "" else Rendered(es[0]) + "\n" + Render(es[1..])
  }

  function Length(e: Entry): real
    requires EntryOk(e)
  {
    match e
    case Segment(whole, fraction, _) => Whole(whole) as real + Fraction(fraction)
    case Other(_) => 0.0
  }

  function Sum(es: seq<Entry>): real
    requires EntriesOk(es)
  {
    if es == [] then 0.0 else Length(es[0]) + Sum(es[1..])
  }
}
