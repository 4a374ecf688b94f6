/**
 * The quarter-range resolver of `get_DERA`: from a dataset and two calendar
 * dates to the ordered list of zip-file URLs, one per quarter.
 */
module Resolver {
  import opened Common
  import opened Calendar
  import Strings

  /** The two supported DERA datasets. */
  datatype Dataset = Statements | Risk

  const DERA_DATA_URL: string := "https://www.sec.gov/files/dera/data"

  /** `DERA_DATA_PATHS[dataset]`. */
  function DataPath(k: Dataset): string {
    match k
    case Statements => "financial-statement-and-notes-data-sets/zipfile"
    case Risk => "mutual-fund-prospectus-risk/return-summary-data-sets/zipfile"
  }

  /** `DERA_DATA_FILENAMES[dataset]`. */
  function FilenamePattern(k: Dataset): string {
    match k
    case Statements => "%Yq%q_notes.zip"
    case Risk => "%Yq%q_rr1.zip"
  }

  /** The dataset a name selects; `None` is the `KeyError` of the table lookup. */
  function LookupDataset(name: string): (k: Option<Dataset>)
    ensures k.Some? <==> name in {"statements", "risk"}
    ensures k.Some? ==> DatasetName(k.value) == name
  {
    if name == "statements" then Some(Statements)
    else if name == "risk" then Some(Risk)
    else None
  }

  function DatasetName(k: Dataset): string {
    match k
    case Statements => "statements"
    case Risk => "risk"
  }

  /** The session's base URL, `f'{DERA_DATA_URL}/{endpoint}'`. */
  function BaseUrl(k: Dataset): string {
    DERA_DATA_URL + "/" + DataPath(k)
  }

  /** The part of the filename pattern after its underscore. */
  function PatternTail(k: Dataset): string {
    match k
    case Statements => "notes.zip"
    case Risk => "rr1.zip"
  }

  lemma PatternSplitsInTwo(k: Dataset)
    ensures Strings.Split(FilenamePattern(k), '_') == ["%Yq%q", PatternTail(k)]
  {
    var tail := PatternTail(k);
    assert FilenamePattern(k) == "%Yq%q" + ['_'] + tail;
    Strings.SplitAtFirstSeparator("%Yq%q", '_', tail);
    Strings.SplitWithoutSeparator(tail, '_');
  }

  /** `'_' + filename_format.split('_')[1]`: the suffix every URL of the dataset ends with. */
  function FilenameExt(k: Dataset): (ext: string)
    ensures ext == if k == Statements then "_notes.zip" else "_rr1.zip"
  {
    var parts := Strings.Split(FilenamePattern(k), '_');
    PatternSplitsInTwo(k);
    "_" + parts[1]
  }

  /** `strftime('%Yq%q')` of a quarter period: the year, the letter q, the quarter number. */
  function Token(p: Quarter): string {
    Strings.Decimal(p.year) + "q" + [Strings.DigitChar(p.number)]
  }

  /** Reads a `{year}q{n}` token with n in 1..4; `None` for anything else. */
  function ParseToken(s: string): Option<Quarter> {
    if |s| >= 3 && s[|s| - 2] == 'q' && Strings.AllDigits(s[..|s| - 2]) && '1' <= s[|s| - 1] <= '4'
    then Some(Quarter(Strings.ParseDecimal(s[..|s| - 2]), s[|s| - 1] as int - '0' as int))
    else None
  }

  /** Every token has the `{year}q{n}` form and names its quarter. */
  lemma TokenRoundTrip(p: Quarter)
    ensures ParseToken(Token(p)) == Some(p)
  {
    var y := Strings.Decimal(p.year);
    var s := Token(p);
    assert s[..|s| - 2] == y;
    Strings.DecimalRoundTrip(p.year);
  }

  /** Reads back the quarter of a URL of dataset k. */
  function ParseUrl(k: Dataset, u: string): Option<Quarter> {
    var ext := FilenameExt(k);
    if |u| >= |ext| && u[|u| - |ext|..] == ext then ParseToken(u[..|u| - |ext|]) else None
  }

  /** The quarter-end dates the code enumerates: `date_range` between the rolled-forward dates. */
  function QuarterEndDates(start: Date, end: Date): seq<Date> {
    DateRange(RollForward(start), RollForward(end))
  }

  /** `.to_period('Q')` of each enumerated date. */
  function Periods(start: Date, end: Date): seq<Quarter> {
    var ds := QuarterEndDates(start, end);
    seq(|ds|, i requires 0 <= i < |ds| => QuarterOf(ds[i]))
  }

  /** `.strftime('%Yq%q').to_list()`. */
  function Tokens(start: Date, end: Date): seq<string> {
    var ps := Periods(start, end);
    seq(|ps|, i requires 0 <= i < |ps| => Token(ps[i]))
  }

  /** `[f'{q}{filename_ext}' for q in date_range]`. */
  function Urls(k: Dataset, start: Date, end: Date): seq<string> {
    var ts := Tokens(start, end);
    seq(|ts|, i requires 0 <= i < |ts| => ts[i] + FilenameExt(k))
  }

  /** `end_date`, or today's date when `end_date` is falsy. */
  function EndDate(end: Option<Date>, today: Date): Date {
    if end.None? then today else end.value
  }

  /** Position of the first quarter the code enumerates for a bound. */
  function RolledOrdinal(d: Date): nat {
    Ordinal(QuarterOf(RollForward(d)))
  }

  /**
   * The periods run from the rolled-forward start's quarter to the rolled-forward
   * end's quarter, one quarter apart, strictly increasing, with nothing left out.
   */
  lemma PeriodsAreConsecutiveQuarters(start: Date, end: Date)
    ensures var ps := Periods(start, end);
      && |ps| == (if RolledOrdinal(end) < RolledOrdinal(start) then 0 else RolledOrdinal(end) - RolledOrdinal(start) + 1)
      && (forall i :: 0 <= i < |ps| ==> Ordinal(ps[i]) == RolledOrdinal(start) + i)
      && (forall i :: 0 <= i < |ps| - 1 ==> Ordinal(ps[i + 1]) == Ordinal(ps[i]) + 1)
      && (forall i, j :: 0 <= i < j < |ps| ==> Ordinal(ps[i]) < Ordinal(ps[j]))
      && (forall p :: p in ps <==> RolledOrdinal(start) <= Ordinal(p) <= RolledOrdinal(end))
  {
    var s, e := RollForward(start), RollForward(end);
    var ds := QuarterEndDates(start, end);
    var ps := Periods(start, end);
    assert LastRangeOrdinal(e) == RolledOrdinal(end);
    forall i | 0 <= i < |ps|
      ensures Ordinal(ps[i]) == RolledOrdinal(start) + i
    {
      var p := QuarterAt(RolledOrdinal(start) + i);
      assert ds[i] == QuarterEnd(p);
    }
    forall p
      ensures p in ps <==> RolledOrdinal(start) <= Ordinal(p) <= RolledOrdinal(end)
    {
      if RolledOrdinal(start) <= Ordinal(p) <= RolledOrdinal(end) {
        var i := Ordinal(p) - RolledOrdinal(start);
        OrdinalInjective(ps[i], p);
      }
    }
  }

  /**
   * For a start and end that are not the last day of a quarter and not in the
   * wrong order, the periods are exactly the quarters from the start's quarter
   * to the end's quarter: the first is the start's, the last is the end's.
   */
  lemma MidQuarterDatesKeepTheirQuarters(start: Date, end: Date)
    requires !IsQuarterEnd(start) && !IsQuarterEnd(end)
    requires !Before(end, start)
    ensures var ps := Periods(start, end);
      && ps != []
      && ps[0] == QuarterOf(start)
      && ps[|ps| - 1] == QuarterOf(end)
      && (forall p :: p in ps <==> Ordinal(QuarterOf(start)) <= Ordinal(p) <= Ordinal(QuarterOf(end)))
  {
    var ps := Periods(start, end);
    PeriodsAreConsecutiveQuarters(start, end);
    RollForwardQuarter(start);
    RollForwardQuarter(end);
    QuarterOfMonotone(start, end);
    OrdinalInjective(ps[0], QuarterOf(start));
    OrdinalInjective(ps[|ps| - 1], QuarterOf(end));
  }

  /** Two dates inside one quarter (neither its last day) give that quarter's token alone, in either order. */
  lemma SameQuarterGivesOneToken(start: Date, end: Date)
    requires QuarterOf(start) == QuarterOf(end)
    requires !IsQuarterEnd(start) && !IsQuarterEnd(end)
    ensures Tokens(start, end) == [Token(QuarterOf(start))]
  {
    var ps := Periods(start, end);
    PeriodsAreConsecutiveQuarters(start, end);
    RollForwardQuarter(start);
    RollForwardQuarter(end);
    OrdinalInjective(ps[0], QuarterOf(start));
  }

  /**
   * The list is empty, with no error, exactly when the start's rolled-forward
   * quarter end comes after the end's.
   */
  lemma EmptyExactlyWhenRolledStartIsLater(start: Date, end: Date)
    ensures Tokens(start, end) == [] <==> Before(RollForward(end), RollForward(start))
  {
  }

  /**
   * A start on the last day of a quarter does not fetch that quarter: the
   * enumeration begins with the next one. Likewise an end on the last day of
   * a quarter fetches the following quarter as well.
   */
  lemma QuarterEndBoundsMoveOneQuarterLater(start: Date, end: Date)
    requires Periods(start, end) != []
    ensures IsQuarterEnd(start) ==>
      Ordinal(Periods(start, end)[0]) == Ordinal(QuarterOf(start)) + 1 && QuarterOf(start) !in Periods(start, end)
    ensures IsQuarterEnd(end) ==>
      Ordinal(Periods(start, end)[|Periods(start, end)| - 1]) == Ordinal(QuarterOf(end)) + 1
  {
    PeriodsAreConsecutiveQuarters(start, end);
    RollForwardQuarter(start);
    RollForwardQuarter(end);
  }

  /**
   * Each token is well formed and names the quarter that ends on the
   * corresponding enumerated quarter-end date.
   */
  lemma TokensNameTheirQuarterEnds(start: Date, end: Date)
    ensures |Tokens(start, end)| == |QuarterEndDates(start, end)|
    ensures forall i :: 0 <= i < |Tokens(start, end)| ==>
      && IsQuarterEnd(QuarterEndDates(start, end)[i])
      && ParseToken(Tokens(start, end)[i]) == Some(Periods(start, end)[i])
      && QuarterEndDates(start, end)[i] == QuarterEnd(Periods(start, end)[i])
  {
    var ds := QuarterEndDates(start, end);
    var ps := Periods(start, end);
    DateRangeIsQuarterEndsBetween(RollForward(start), RollForward(end));
    forall i | 0 <= i < |ps|
      ensures ParseToken(Tokens(start, end)[i]) == Some(ps[i])
    {
      TokenRoundTrip(ps[i]);
    }
  }

  /** URLs correspond one to one with the periods, in the same order. */
  lemma UrlsMatchPeriods(k: Dataset, start: Date, end: Date)
    ensures |Urls(k, start, end)| == |Periods(start, end)|
    ensures forall i :: 0 <= i < |Urls(k, start, end)| ==>
      && Urls(k, start, end)[i] == Token(Periods(start, end)[i]) + FilenameExt(k)
      && ParseUrl(k, Urls(k, start, end)[i]) == Some(Periods(start, end)[i])
  {
    var us := Urls(k, start, end);
    var ps := Periods(start, end);
    forall i | 0 <= i < |us|
      ensures ParseUrl(k, us[i]) == Some(ps[i])
    {
      var ext := FilenameExt(k);
      assert us[i] == Token(ps[i]) + ext;
      assert us[i][..|us[i]| - |ext|] == Token(ps[i]);
      TokenRoundTrip(ps[i]);
    }
  }

  /** No URL is requested twice. */
  lemma UrlsDistinct(k: Dataset, start: Date, end: Date)
    ensures forall i, j :: 0 <= i < j < |Urls(k, start, end)| ==> Urls(k, start, end)[i] != Urls(k, start, end)[j]
  {
    var us := Urls(k, start, end);
    var ps := Periods(start, end);
    UrlsMatchPeriods(k, start, end);
    PeriodsAreConsecutiveQuarters(start, end);
    forall i, j | 0 <= i < j < |us|
      ensures us[i] != us[j]
    {
      assert ParseUrl(k, us[i]) == Some(ps[i]) && ParseUrl(k, us[j]) == Some(ps[j]);
      assert Ordinal(ps[i]) < Ordinal(ps[j]);
    }
  }

  lemma TokensOf2021()
    ensures Token(Quarter(2021, 1)) == "2021q1" && Token(Quarter(2021, 2)) == "2021q2"
  {
  }

  /** The documented example: 01-01-2021 to 15-04-2021 fetches 2021q1 and 2021q2. */
  lemma DocumentedRangeExample(k: Dataset, start: Date, end: Date)
    requires k == Statements && start == Date(2021, 1, 1) && end == Date(2021, 4, 15)
    ensures Urls(k, start, end) == ["2021q1_notes.zip", "2021q2_notes.zip"]
  {
    FirstTwoQuartersOf2021(start, end);
    TokensOfFirstHalf2021(start, end);
    StatementUrlsOfFirstHalf2021(k, start, end);
  }

  lemma TokensOfFirstHalf2021(start: Date, end: Date)
    requires Periods(start, end) == [Quarter(2021, 1), Quarter(2021, 2)]
    ensures Tokens(start, end) == ["2021q1", "2021q2"]
  {
    TokensOf2021();
  }

  lemma StatementUrlsOfFirstHalf2021(k: Dataset, start: Date, end: Date)
    requires k == Statements
    requires Tokens(start, end) == ["2021q1", "2021q2"]
    ensures Urls(k, start, end) == ["2021q1_notes.zip", "2021q2_notes.zip"]
  {
    var us, ts := Urls(k, start, end), Tokens(start, end);
    assert |us| == 2 && us[0] == ts[0] + FilenameExt(k) && us[1] == ts[1] + FilenameExt(k);
    SuffixedPair(us, ts, FilenameExt(k));
  }

  lemma SuffixedPair(us: seq<string>, ts: seq<string>, ext: string)
    requires ts == ["2021q1", "2021q2"] && ext == "_notes.zip"
    requires |us| == 2 && us[0] == ts[0] + ext && us[1] == ts[1] + ext
    ensures us == ["2021q1_notes.zip", "2021q2_notes.zip"]
  {
    assert us[0] == "2021q1_notes.zip";
    assert us[1] == "2021q2_notes.zip";
  }

  lemma FirstTwoQuartersOf2021(start: Date, end: Date)
    requires start == Date(2021, 1, 1) && end == Date(2021, 4, 15)
    ensures Periods(start, end) == [Quarter(2021, 1), Quarter(2021, 2)]
  {
    RolledOrdinalsOfExample(start, end);
    PeriodsOfAdjacentBounds(start, end);
    assert QuarterAt(8084) == Quarter(2021, 1) && QuarterAt(8085) == Quarter(2021, 2);
  }

  lemma RolledOrdinalsOfExample(start: Date, end: Date)
    requires start == Date(2021, 1, 1) && end == Date(2021, 4, 15)
    ensures RolledOrdinal(start) == 8084 && RolledOrdinal(end) == 8085
  {
  }

  /** Bounds whose rolled-forward quarters are adjacent give exactly those two quarters. */
  lemma PeriodsOfAdjacentBounds(start: Date, end: Date)
    requires RolledOrdinal(end) == RolledOrdinal(start) + 1
    ensures Periods(start, end) == [QuarterAt(RolledOrdinal(start)), QuarterAt(RolledOrdinal(end))]
  {
    var ps := Periods(start, end);
    PeriodsAreConsecutiveQuarters(start, end);
    OrdinalInjective(ps[0], QuarterAt(RolledOrdinal(start)));
    OrdinalInjective(ps[1], QuarterAt(RolledOrdinal(end)));
  }

  /** A start of 31-03-2021 begins at 2021q2. */
  lemma QuarterEndStartExample(start: Date, end: Date)
    requires start == Date(2021, 3, 31) && end == Date(2021, 4, 15)
    ensures Tokens(start, end) == ["2021q2"]
  {
    ExampleBoundsRollTogether(start, end);
    SameQuarterGivesOneTokenAfterRoll(start, end);
    TokensOf2021();
  }

  lemma ExampleBoundsRollTogether(start: Date, end: Date)
    requires start == Date(2021, 3, 31) && end == Date(2021, 4, 15)
    ensures RollForward(start) == RollForward(end)
    ensures QuarterOf(RollForward(start)) == Quarter(2021, 2)
  {
  }

  lemma QuarterEndRollsToNextQuarter(d: Date, next: Quarter)
    requires d == Date(2021, 3, 31) && next == Quarter(2021, 2)
    ensures RollForward(d) == QuarterEnd(next)
  {
    assert IsQuarterEnd(d);
    assert QuarterAt(Ordinal(QuarterOf(d)) + 1) == next;
  }

  lemma MidQuarterRollsToItsQuarterEnd(d: Date, p: Quarter)
    requires d == Date(2021, 4, 15) && p == Quarter(2021, 2)
    ensures RollForward(d) == QuarterEnd(p)
  {
  }

  /** Two bounds that roll forward to the same quarter end give that one quarter's token. */
  lemma SameQuarterGivesOneTokenAfterRoll(start: Date, end: Date)
    requires RollForward(start) == RollForward(end)
    ensures Tokens(start, end) == [Token(QuarterOf(RollForward(start)))]
  {
    var ps := Periods(start, end);
    PeriodsAreConsecutiveQuarters(start, end);
    OrdinalInjective(ps[0], QuarterOf(RollForward(start)));
  }
}
