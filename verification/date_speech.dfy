/**
 `formatDateForSpeech`: a travel date, typed as `YYYY-MM-DD` or
 `MM/DD/YYYY`, is read back as "June 6th". Parsing the parts into a calendar
 date and naming the month are done by the JavaScript `Date` object and are
 inputs here; the part ordering and the ordinal suffix are modelled.
 */
module DateSpeech {
  import opened Common

  /** The three parts in calendar order; a part the input lacks is `undefined`. */
  datatype Parts = Parts(year: Option<string>, month: Option<string>, day: Option<string>)

  /** `parts[i]`, or `undefined` past the end. */
  function Nth(parts: seq<string>, i: nat): (r: Option<string>)
    ensures i < |parts| <==> r.Some?
    ensures i < |parts| ==> r.value == parts[i]
  {
    if i < |parts| then Some(parts[i]) else None
  }

  /**
   Split on `-` when the text has one, otherwise on `/`; a first part of
   exactly four characters means year first (ISO), otherwise month, day, year
   (US). `None` for the empty text, which is returned unchanged.
   */
  function PartsOf(raw: string): Option<Parts>
  {
    if raw == "" then None
    else
      var parts := if '-' in raw then Split(raw, '-') else Split(raw, '/');
      if JsLength(parts[0]) == 4 then Some(Parts(Nth(parts, 0), Nth(parts, 1), Nth(parts, 2)))
      else Some(Parts(Nth(parts, 2), Nth(parts, 0), Nth(parts, 1)))
  }

  lemma JoinThree(a: string, b: string, c: string, sep: char)
    ensures Join([a, b, c], sep) == a + [sep] + b + [sep] + c
  {
    assert [a, b, c][1..] == [b, c];
    assert [b, c][1..] == [c];
    assert Join([c], sep) == c;
    assert Join([b, c], sep) == b + [sep] + c;
  }

  /** An ISO date `year-month-day` yields its parts as written. */
  lemma IsoOrder(year: string, month: string, day: string)
    requires JsLength(year) == 4
    requires '-' !in year && '-' !in month && '-' !in day
    ensures PartsOf(year + "-" + month + "-" + day) == Some(Parts(Some(year), Some(month), Some(day)))
  {
    var raw := year + "-" + month + "-" + day;
    JoinThree(year, month, day, '-');
    SplitJoin([year, month, day], '-');
    assert raw[|year|] == '-';
  }

  /** A US date `month/day/year` (no `-` anywhere, month not four characters) is reordered to year, month, day. */
  lemma UsOrder(month: string, day: string, year: string)
    requires JsLength(month) != 4
    requires '-' !in month && '-' !in day && '-' !in year
    requires '/' !in month && '/' !in day && '/' !in year
    ensures PartsOf(month + "/" + day + "/" + year) == Some(Parts(Some(year), Some(month), Some(day)))
  {
    var raw := month + "/" + day + "/" + year;
    JoinThree(month, day, year, '/');
    SplitJoin([month, day, year], '/');
    JoinAvoids([month, day, year], '/', '-');
  }

  /** The suffix as the code computes it from the day of the month. */
  function OrdinalSuffix(d: nat): string
  {
    if d % 10 == 1 && d != 11 then "st"
    else if d % 10 == 2 && d != 12 then "nd"
    else if d % 10 == 3 && d != 13 then "rd"
    else "th"
  }

  /** English ordinals: "th" for the teens, otherwise by the last digit. */
  function EnglishSuffix(d: nat): string
  {
    if 11 <= d % 100 <= 13 then "th"
    else if d % 10 == 1 then "st"
    else if d % 10 == 2 then "nd"
    else if d % 10 == 3 then "rd"
    else "th"
  }

  /**
   For every number below one hundred, and so for every day of a month, the
   code's suffix is the English one (from 111 on the two part ways, which a
   day never reaches).
   */
  lemma OrdinalIsEnglish(d: nat)
    requires d < 100
    ensures OrdinalSuffix(d) == EnglishSuffix(d)
  {
    assert d % 100 == d;
    if 11 <= d <= 13 {
      assert d % 10 == d - 10;
    }
  }

  /**
   The spoken form: unchanged when empty or when `Date` rejects the parts,
   otherwise the month name, a space, the day and its English suffix. `date`
   is what `Date` made of the parts: the long month name and the day of the
   month (1 to 31).
   */
  function ForSpeech(raw: string, date: Option<(string, nat)>): (r: string)
    requires date.Some? ==> 1 <= date.value.1 <= 31
    ensures raw == "" || date.None? ==> r == raw
    ensures raw != "" && date.Some? ==>
      r == date.value.0 + " " + Decimal(date.value.1) + EnglishSuffix(date.value.1)
  {
    if raw == "" || date.None? then raw
    else
      var (month, d) := date.value;
      OrdinalIsEnglish(d);
      month + " " + Decimal(d) + OrdinalSuffix(d)
  }
}
