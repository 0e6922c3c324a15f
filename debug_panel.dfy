/**
  The computed parts of components/DebugPanel.tsx: the page-number naming,
  the per-day "≤0.1 mm" flag of the daily rain analysis, and the marking of
  the current entry in the navigation-history listing.
 */
module DebugPanel {
  import opened Options
  import opened RainDecision
  import DecimalText

  const UnknownPrefix: string := "UNKNOWN("

  /** `getPageName`: the nine wizard pages by name, anything else as UNKNOWN(n). */
  function PageName(page: int): (name: string)
    ensures IsUnknownName(name) <==> !(1 <= page <= 9)
    ensures !(1 <= page <= 9) ==> name[|UnknownPrefix|..|name| - 1] == DecimalText.IntText(page)
  {
    match page
    case 1 => "WELCOME"
    case 2 => "RAIN_EVENT"
    case 3 => "OLIVE_TYPE"
    case 4 => "RESELINCE_QUESTION"
    case 5 => "MR_QUESTION_SEASON"
    case 6 => "MR_QUESTION_CONTAMIATION"
    case 7 => "RAIN_TEMP"
    case 8 => "FINAL_WITH_CALC"
    case 9 => "FINAL_NO_CALC"
    case _ => UnknownPrefix + DecimalText.IntText(page) + ")"
  }

  /** Reads a page name back into its page number: the inverse of PageName. */
  function PageNumberOf(name: string): Option<int> {
    if IsUnknownName(name) then Some(DecimalText.ParseInt(name[|UnknownPrefix|..|name| - 1]))
    else if name == "WELCOME" then Some(1)
    else if name == "RAIN_EVENT" then Some(2)
    else if name == "OLIVE_TYPE" then Some(3)
    else if name == "RESELINCE_QUESTION" then Some(4)
    else if name == "MR_QUESTION_SEASON" then Some(5)
    else if name == "MR_QUESTION_CONTAMIATION" then Some(6)
    else if name == "RAIN_TEMP" then Some(7)
    else if name == "FINAL_WITH_CALC" then Some(8)
    else if name == "FINAL_NO_CALC" then Some(9)
    else None
  }

  /** Shape of a fallback name: `UNKNOWN(`, some text, `)`. */
  predicate IsUnknownName(name: string) {
    |name| > |UnknownPrefix| && name[|name| - 1] == ')' && name[..|UnknownPrefix|] == UnknownPrefix
  }

  /** The nine page names in page order. */
  lemma NamedPages()
    ensures PageName(1) == "WELCOME" && PageName(2) == "RAIN_EVENT" && PageName(3) == "OLIVE_TYPE"
    ensures PageName(4) == "RESELINCE_QUESTION" && PageName(5) == "MR_QUESTION_SEASON"
    ensures PageName(6) == "MR_QUESTION_CONTAMIATION" && PageName(7) == "RAIN_TEMP"
    ensures PageName(8) == "FINAL_WITH_CALC" && PageName(9) == "FINAL_NO_CALC"
  {
  }

  /** Every page number's name reads back as that number. */
  lemma PageNameRoundTrip(page: int)
    ensures PageNumberOf(PageName(page)) == Some(page)
  {
    if !(1 <= page <= 9) {
      UnknownPageNameParses(page);
    }
  }

  lemma UnknownPageNameParses(page: int)
    requires !(1 <= page <= 9)
    ensures PageNumberOf(PageName(page)) == Some(page)
  {
    var name := PageName(page);
    var digits := DecimalText.IntText(page);
    assert name == UnknownPrefix + digits + ")";
    assert name[..|UnknownPrefix|] == UnknownPrefix;
    assert name[|UnknownPrefix|..|name| - 1] == digits;
    assert IsUnknownName(name);
    DecimalText.IntTextRoundTrip(page);
  }

  /** Distinct page numbers get distinct names (the nine named pages included). */
  lemma PageNameInjective(p: int, q: int)
    requires p != q
    ensures PageName(p) != PageName(q)
  {
    PageNameRoundTrip(p);
    PageNameRoundTrip(q);
  }

  /** The "Daily Rain Analysis" flags: one per day, set when that day had at most 0.1 mm. */
  function DailyLowRainFlags(days: seq<DayReading>): (flags: seq<bool>)
    ensures |flags| == |days|
    ensures forall i :: 0 <= i < |days| ==> flags[i] == IsLowRainDay(days[i])
  {
    seq(|days|, i requires 0 <= i < |days| => days[i].rain <= 0.1)
  }

  /** A flagged day is exactly what makes the decision rule's first check refuse treatment. */
  lemma FlagsAgreeWithDecision(days: seq<DayReading>, lo: real, hi: real)
    ensures (exists i :: 0 <= i < |days| && DailyLowRainFlags(days)[i]) <==> HasLowRainDay(days)
    ensures (exists i :: 0 <= i < |days| && DailyLowRainFlags(days)[i]) ==> Decide(days, lo, hi) == NoTreatment
  {
    var flags := DailyLowRainFlags(days);
    if exists i :: 0 <= i < |days| && flags[i] {
      var i :| 0 <= i < |days| && flags[i];
      assert IsLowRainDay(days[i]);
    }
    if HasLowRainDay(days) {
      var i :| 0 <= i < |days| && IsLowRainDay(days[i]);
      assert flags[i];
    }
  }

  /** Which history entries the listing marks "(current)": the one at the last index. */
  function CurrentEntryMarks(history: seq<int>): (marks: seq<bool>)
    ensures |marks| == |history|
  {
    seq(|history|, i requires 0 <= i < |history| => i == |history| - 1)
  }

  /** A non-empty history has exactly one entry marked current, the last one. */
  lemma ExactlyOneCurrentEntry(history: seq<int>)
    requires |history| > 0
    ensures (set i | 0 <= i < |history| && CurrentEntryMarks(history)[i]) == {|history| - 1}
  {
  }
}
