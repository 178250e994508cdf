/**
 * The pure formatting helpers of the dashboard script (static/js/main.js): the opportunity
 * class by score, the countdown text, the crafting path text, the farming-type title and the
 * sign of a price change.
 */
module Display {
  import opened Wrappers

  /** `getOpportunityClass(score)` */
  function OpportunityClass(score: real): (r: string)
    ensures r == "high-opportunity" <==> score >= 80.0
    ensures r == "medium-opportunity" <==> 60.0 <= score < 80.0
    ensures r == "low-opportunity" <==> score < 60.0
  {
    if score >= 80.0 then "high-opportunity"
    else if score >= 60.0 then "medium-opportunity"
    else "low-opportunity"
  }

  /** A higher score never gets a lower class. */
  lemma OpportunityClassMonotone(a: real, b: real)
    requires a <= b
    ensures OpportunityClass(a) == "high-opportunity" ==> OpportunityClass(b) == "high-opportunity"
    ensures OpportunityClass(b) == "low-opportunity" ==> OpportunityClass(a) == "low-opportunity"
  {
  }

  // ------------------------------------------------------------ countdown

  /** The decimal digits of a natural number, as a template literal prints it. */
  function NatText(n: nat): (r: string)
    ensures |r| > 0
    decreases n
  {
    if n < 10 then [Digit(n)] else NatText(n / 10) + [Digit(n % 10)]
  }

  function Digit(d: nat): char
    requires d < 10
  {
    ['0', '1', '2', '3', '4', '5', '6', '7', '8', '9'][d]
  }

  predicate IsDigit(c: char) { '0' <= c <= '9' }

  /** The value of a string of decimal digits. */
  function DigitsValue(s: string): nat
    requires forall i :: 0 <= i < |s| ==> IsDigit(s[i])
  {
    if s == [] then 0
    else
      assert IsDigit(s[|s| - 1]);
      DigitsValue(s[..|s| - 1]) * 10 + ((s[|s| - 1] as int) - ('0' as int))
  }

  /** Printing a number and reading its digits back gives the number. */
  lemma {:induction false} NatTextRoundTrip(n: nat)
    ensures forall i :: 0 <= i < |NatText(n)| ==> IsDigit(NatText(n)[i])
    ensures DigitsValue(NatText(n)) == n
    decreases n
  {
    if n >= 10 {
      NatTextRoundTrip(n / 10);
      var s := NatText(n);
      assert s[..|s| - 1] == NatText(n / 10);
    }
  }

  /** An integer as a template literal prints it. */
  function IntText(n: int): string {
    if n < 0 then "-" + NatText(-n) else NatText(n)
  }

  /** What `formatTimeRemaining` prints: seconds alone, or minutes and remaining seconds. */
  datatype Remaining = SecondsOnly(seconds: int) | MinutesAndSeconds(minutes: nat, remainder: nat)

  /** The split `formatTimeRemaining(seconds)` makes, on whole seconds. */
  function TimeRemaining(seconds: int): (r: Remaining)
    ensures seconds < 60 <==> r.SecondsOnly?
    ensures r.SecondsOnly? ==> r.seconds == seconds
    ensures r.MinutesAndSeconds? ==>
      r.minutes >= 1 && r.remainder < 60 && 60 * r.minutes + r.remainder == seconds
  {
    if seconds < 60 then SecondsOnly(seconds)
    else MinutesAndSeconds(seconds / 60, seconds % 60)
  }

  /** The text: `${seconds} seconds` or `${minutes}m ${remainingSeconds}s`. */
  function RemainingText(r: Remaining): string {
    match r
    case SecondsOnly(s) => IntText(s) + " seconds"
    case MinutesAndSeconds(m, s) => NatText(m) + "m " + NatText(s) + "s"
  }

  /**
   * `formatTimeRemaining(seconds)`: under a minute the count of seconds; from a minute on, whole
   * minutes and the seconds left over, which are under 60 and add back up to the input.
   */
  function FormatTimeRemaining(seconds: int): (r: string)
    ensures seconds < 60 ==> r == IntText(seconds) + " seconds"
    ensures seconds >= 60 ==> exists m: nat, s: nat :: 1 <= m && s < 60 && 60 * m + s == seconds &&
                                                      r == NatText(m) + "m " + NatText(s) + "s"
  {
    var t := TimeRemaining(seconds);
    assert t.MinutesAndSeconds? ==> RemainingText(t) == NatText(t.minutes) + "m " + NatText(t.remainder) + "s";
    RemainingText(t)
  }

  /** The split is the only one with remaining seconds under a minute: minutes are `floor(s / 60)`. */
  lemma TimeRemainingUnique(seconds: int, m: nat, s: nat)
    requires seconds >= 60 && s < 60 && 60 * m + s == seconds
    ensures TimeRemaining(seconds) == MinutesAndSeconds(m, s)
  {
  }

  /** Ninety seconds read as "1m 30s". */
  lemma NinetySeconds()
    ensures FormatTimeRemaining(90) == "1m 30s"
  {
    assert NatText(30) == NatText(3) + [Digit(0)];
  }

  // ------------------------------------------------------------ crafting path

  /** The `path` a crafting opportunity carries: a string, an array of steps, or anything else. */
  datatype PathValue = PathText(text: string) | PathSteps(steps: seq<string>) | PathOther

  const Arrow: string := " \U{2192} "

  /** `steps.join(separator)` */
  function Join(steps: seq<string>, separator: string): string {
    if steps == [] then ""
    else if |steps| == 1 then steps[0]
    else Join(steps[..|steps| - 1], separator) + separator + steps[|steps| - 1]
  }

  /** Each further step adds the separator and the step; the text is as long as its parts. */
  lemma {:induction false} JoinLength(steps: seq<string>, separator: string)
    ensures |steps| > 0 ==> |Join(steps, separator)| == Lengths(steps) + (|steps| - 1) * |separator|
    ensures |steps| == 0 ==> Join(steps, separator) == ""
  {
    if |steps| > 1 {
      JoinLength(steps[..|steps| - 1], separator);
      assert steps[..|steps| - 1][..|steps| - 2] == steps[..|steps| - 2];
    }
  }

  function Lengths(steps: seq<string>): nat {
    if steps == [] then 0 else Lengths(steps[..|steps| - 1]) + |steps[|steps| - 1]|
  }

  /** `formatCurrencyPath(path)` */
  function FormatCurrencyPath(path: PathValue): (r: string)
    ensures path.PathText? ==> r == path.text
    ensures path.PathSteps? ==> r == Join(path.steps, Arrow)
    ensures path.PathOther? ==> r == "Unknown Path"
  {
    match path
    case PathText(text) => text
    case PathSteps(steps) => Join(steps, Arrow)
    case PathOther => "Unknown Path"
  }

  /** A path of several steps prints its steps, arrow-separated, in order. */
  lemma PathStepsText(first: string, rest: seq<string>, last: string)
    ensures FormatCurrencyPath(PathSteps([first] + rest + [last])) ==
            FormatCurrencyPath(PathSteps([first] + rest)) + Arrow + last
  {
    var steps := [first] + rest + [last];
    assert steps[..|steps| - 1] == [first] + rest;
  }

  // ------------------------------------------------------------ farming type

  /** `\w` of a regular expression without the `u` flag: ASCII letters, digits and `_`. */
  predicate IsWordChar(c: char) {
    'a' <= c <= 'z' || 'A' <= c <= 'Z' || '0' <= c <= '9' || c == '_'
  }

  /** `toUpperCase` on a word character: ASCII lower-case letters move up, the rest stay. */
  function Upper(c: char): (r: char)
    ensures IsWordChar(c) ==> IsWordChar(r)
    ensures r == '_' <==> c == '_'
    ensures r != '-' <==> c != '-'
  {
    if 'a' <= c <= 'z' then (c as int - 'a' as int + 'A' as int) as char else c
  }

  /** `replace(/[-_]/g, ' ')` */
  function Spaced(s: string): (r: string)
    ensures |r| == |s|
    ensures forall i :: 0 <= i < |s| ==> r[i] == (if s[i] == '-' || s[i] == '_' then ' ' else s[i])
  {
    seq(|s|, i requires 0 <= i < |s| => if s[i] == '-' || s[i] == '_' then ' ' else s[i])
  }

  /** Whether position `i` starts a word: `\b\w`, a word character with no word character before. */
  predicate StartsWord(s: string, i: int)
    requires 0 <= i < |s|
  {
    IsWordChar(s[i]) && (i == 0 || !IsWordChar(s[i - 1]))
  }

  /** `replace(/\b\w/g, l => l.toUpperCase())` */
  function Titled(s: string): (r: string)
    ensures |r| == |s|
  {
    seq(|s|, i requires 0 <= i < |s| => if StartsWord(s, i) then Upper(s[i]) else s[i])
  }

  /** `formatFarmingType(type)`: "Unknown" for a missing or empty type. */
  function FormatFarmingType(farmingType: Option<string>): (r: string)
    ensures farmingType.None? || farmingType.value == "" ==> r == "Unknown"
  {
    if farmingType.None? || farmingType.value == "" then "Unknown"
    else Titled(Spaced(farmingType.value))
  }

  /**
   * The title keeps the length, has no `-` or `_` left, upper-cases exactly the first
   * character of each word and leaves every other character as the spaced type has it.
   */
  lemma FarmingTypeShape(t: string)
    requires t != ""
    ensures var r := FormatFarmingType(Some(t));
      && |r| == |t|
      && (forall i :: 0 <= i < |r| ==> r[i] != '-' && r[i] != '_')
      && (forall i :: 0 <= i < |t| ==>
            r[i] == (if StartsWord(Spaced(t), i) then Upper(Spaced(t)[i]) else Spaced(t)[i]))
  {
  }

  /** Formatting a formatted farming type changes nothing more. */
  lemma FarmingTypeIdempotent(t: string)
    requires t != ""
    ensures FormatFarmingType(Some(FormatFarmingType(Some(t)))) == FormatFarmingType(Some(t))
  {
    var s := Spaced(t);
    var r := Titled(s);
    FarmingTypeShape(t);
    assert Spaced(r) == r;
    forall i | 0 <= i < |r| ensures IsWordChar(r[i]) <==> IsWordChar(s[i]) {
    }
    forall i | 0 <= i < |r| ensures Titled(r)[i] == r[i] {
      if StartsWord(r, i) {
        assert StartsWord(s, i);
      }
    }
  }

  /** "divination_card" is shown as "Divination Card". */
  lemma DivinationCardTitle()
    ensures FormatFarmingType(Some("divination_card")) == "Divination Card"
  {
    var s := Spaced("divination_card");
    var spaced := "divination card";
    forall i | 0 <= i < |s| ensures s[i] == spaced[i] {
      assert "divination_card"[i] == (if i == 10 then '_' else spaced[i]);
    }
    assert s == spaced;
    var r := Titled(s);
    var t := "Divination Card";
    forall i | 0 <= i < |s| ensures r[i] == t[i] {
      if i != 0 && i != 11 {
        assert !StartsWord(s, i);
      }
    }
  }

  // ------------------------------------------------------------ price change

  /** The class and sign `formatPriceChange(change)` puts around the number. */
  datatype ChangeStyle = ChangeStyle(cssClass: string, sign: string)

  function PriceChangeStyle(change: real): (r: ChangeStyle)
    ensures r.cssClass == "positive-change" <==> change >= 0.0
    ensures r.cssClass == "negative-change" <==> change < 0.0
    ensures r.sign == "+" <==> change >= 0.0
    ensures r.sign == "" <==> change < 0.0
  {
    ChangeStyle(if change >= 0.0 then "positive-change" else "negative-change",
                if change >= 0.0 then "+" else "")
  }
}
