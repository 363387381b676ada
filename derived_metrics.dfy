/**
 * The figures the builder page derives from the work entries: the year of
 * the first job, the total experience and the current company.
 */
module DerivedMetrics {
  import opened Wrappers
  import opened Text
  import opened ResumeRecord

  predicate IsDigit(c: char) {
    '0' <= c <= '9'
  }

  /** A regular-expression word character: an ASCII letter, a digit or `_`. */
  predicate IsWordChar(c: char) {
    'a' <= c <= 'z' || 'A' <= c <= 'Z' || IsDigit(c) || c == '_'
  }

  /**
   * The pattern `\b(19|20)\d{2}\b` matches at index `i` of `s`: a word
   * boundary, `19` or `20`, two more digits, and a word boundary again.
   * The token starts with a digit, so the boundary before it means that
   * no word character precedes it, and the boundary after it that no
   * word character follows it.
   */
  predicate YearAt(s: string, i: int) {
    0 <= i && i + 4 <= |s|
    && (i == 0 || !IsWordChar(s[i - 1]))
    && ((s[i] == '1' && s[i + 1] == '9') || (s[i] == '2' && s[i + 1] == '0'))
    && IsDigit(s[i + 2]) && IsDigit(s[i + 3])
    && (i + 4 == |s| || !IsWordChar(s[i + 4]))
  }

  function DigitValue(c: char): nat
    requires IsDigit(c)
  {
    c as int - '0' as int
  }

  /** `parseInt` of the four matched digits. */
  function YearValue(s: string, i: int): (y: nat)
    requires YearAt(s, i)
    ensures 1900 <= y <= 2099
  {
    1000 * DigitValue(s[i]) + 100 * DigitValue(s[i + 1]) + 10 * DigitValue(s[i + 2]) + DigitValue(s[i + 3])
  }

  /** The index of the leftmost match at or after `from`, as the regular-expression search finds it. */
  function MatchYear(s: string, from: nat): (r: Option<nat>)
    requires from <= |s|
    ensures r.Some? ==> from <= r.value && YearAt(s, r.value)
    ensures r.Some? ==> forall k :: from <= k < r.value ==> !YearAt(s, k)
    ensures r.None? ==> forall k :: from <= k <= |s| ==> !YearAt(s, k)
    decreases |s| - from
  {
    if YearAt(s, from) then Some(from)
    else if from == |s| then None
    else MatchYear(s, from + 1)
  }

  /**
   * `job.date?.match(...)`, then `parseInt`: the value of the first year
   * token in the entry's date, if any.
   */
  function JobYear(job: Item): (y: Option<nat>)
    ensures y.Some? ==> 1900 <= y.value <= 2099
  {
    var date := Field(job, "date");
    match MatchYear(date, 0)
    case Some(i) => Some(YearValue(date, i))
    case None => None
  }

  /** `work.map(...)`: the year found in each entry, `None` standing for `null`. */
  function JobYears(work: seq<Item>): (ys: seq<Option<nat>>)
    ensures |ys| == |work|
    ensures forall i :: 0 <= i < |work| ==> ys[i] == JobYear(work[i])
  {
    seq(|work|, i requires 0 <= i < |work| => JobYear(work[i]))
  }

  /**
   * `.filter(Boolean)` and then `Math.min(...years)`, or `null` when nothing
   * is left (a found year is never 0, so the filter drops exactly the nulls).
   */
  function Earliest(ys: seq<Option<nat>>): (r: Option<nat>)
    ensures r.None? <==> forall i :: 0 <= i < |ys| ==> ys[i].None?
    ensures r.Some? ==> exists i :: 0 <= i < |ys| && ys[i] == r
    ensures r.Some? ==> forall i :: 0 <= i < |ys| && ys[i].Some? ==> r.value <= ys[i].value
    decreases |ys|
  {
    if |ys| == 0 then None
    else
      var n := |ys| - 1;
      var front := Earliest(ys[..n]);
      assert forall i :: 0 <= i < n ==> ys[..n][i] == ys[i];
      Earlier(front, ys[n])
  }

  /**
   * `getFirstJobYear`: the smallest year found over all entries, or none
   * (the page's `null`) when no entry's date holds a year.
   */
  function FirstJobYear(work: seq<Item>): (r: Option<nat>)
    ensures r.None? <==> forall i :: 0 <= i < |work| ==> JobYear(work[i]).None?
    ensures r.Some? ==> exists i :: 0 <= i < |work| && JobYear(work[i]) == r
    ensures r.Some? ==> forall i :: 0 <= i < |work| && JobYear(work[i]).Some? ==> r.value <= JobYear(work[i]).value
    ensures r.Some? ==> 1900 <= r.value <= 2099
  {
    var ys := JobYears(work);
    var r := Earliest(ys);
    assert r.Some? ==> exists i :: 0 <= i < |ys| && ys[i] == r;
    r
  }

  /** `Math.min` over the years found so far, where none counts as no candidate. */
  function Earlier(a: Option<nat>, b: Option<nat>): (r: Option<nat>)
    ensures r.None? <==> a.None? && b.None?
    ensures r == a || r == b
    ensures a.Some? ==> r.value <= a.value
    ensures b.Some? ==> r.value <= b.value
  {
    match (a, b)
    case (None, _) => b
    case (Some(_), None) => a
    case (Some(y), Some(z)) => if y <= z then a else b
  }

  /** `totalExperience`: a number of years, or `'N/A'`. */
  datatype Experience = Years(n: int) | NotAvailable

  /** `currentYear - firstJobYear` when a first year is known; the current year is an input. */
  function TotalExperience(work: seq<Item>, currentYear: int): (e: Experience)
    ensures e.NotAvailable? <==> FirstJobYear(work).None?
    ensures e.Years? ==> e.n == currentYear - FirstJobYear(work).value
    ensures e.Years? ==> currentYear - 2099 <= e.n <= currentYear - 1900
  {
    match FirstJobYear(work)
    case Some(y) => Years(currentYear - y)
    case None => NotAvailable
  }

  /** The entry's lower-cased date contains `present`. */
  predicate IsCurrent(job: Item) {
    Contains(Lower(Field(job, "date")), "present")
  }

  /** `find`: the index of the first current entry. */
  function FindCurrent(work: seq<Item>): (r: Option<nat>)
    ensures r.Some? ==> r.value < |work| && IsCurrent(work[r.value])
    ensures r.Some? ==> forall k :: 0 <= k < r.value ==> !IsCurrent(work[k])
    ensures r.None? <==> forall k :: 0 <= k < |work| ==> !IsCurrent(work[k])
    decreases |work|
  {
    if |work| == 0 then None
    else if IsCurrent(work[0]) then Some(0)
    else
      match FindCurrent(work[1..])
      case Some(i) =>
        assert forall k :: 1 <= k <= i ==> work[k] == work[1..][k - 1];
        Some(i + 1)
      case None =>
        assert forall k :: 1 <= k < |work| ==> work[k] == work[1..][k - 1];
        None
  }

  /**
   * `currentCompany`: the company of the first current entry, or `'N/A'`
   * when there is none or when that entry's company is empty (a later
   * current entry is not consulted).
   */
  function CurrentCompany(work: seq<Item>): (c: string)
    ensures c != ""
    ensures FindCurrent(work).None? ==> c == "N/A"
    ensures FindCurrent(work).Some? && Field(work[FindCurrent(work).value], "company") == "" ==> c == "N/A"
    ensures FindCurrent(work).Some? && Field(work[FindCurrent(work).value], "company") != "" ==>
      c == Field(work[FindCurrent(work).value], "company")
  {
    match FindCurrent(work)
    case None => "N/A"
    case Some(i) => if Field(work[i], "company") != "" then Field(work[i], "company") else "N/A"
  }
}

module DerivedMetricsProperties {
  import opened Wrappers
  import opened Text
  import opened Json
  import opened ResumeRecord
  import opened DerivedMetrics

  /** Adding an entry at the end combines its year with the earlier first year, so the first year never gets later. */
  lemma FirstJobYearAppend(work: seq<Item>, job: Item)
    ensures FirstJobYear(work + [job]) == Earlier(FirstJobYear(work), JobYear(job))
  {
    var ys := JobYears(work + [job]);
    assert ys[..|work|] == JobYears(work);
  }

  /** A year preceded by a letter is not a word-bounded token, so it is not found. */
  lemma GluedYearIgnored()
    ensures JobYear(map["date" := JStr("Q2020")]) == None
  {
    var s := "Q2020";
    assert Field(map["date" := JStr("Q2020")], "date") == s;
    assert !YearAt(s, 0) && !YearAt(s, 1) && !YearAt(s, 2) && !YearAt(s, 3) && !YearAt(s, 4) && !YearAt(s, 5);
  }

  /** The year of a date that starts with a year token is that year. */
  lemma LeadingYear(job: Item, date: string, y: nat)
    requires Field(job, "date") == date && YearAt(date, 0) && YearValue(date, 0) == y
    ensures JobYear(job) == Some(y)
  {
  }

  /** Two entries: `2020-Present` at Acme and `2015-2019` at Initech. */
  const AcmeJob: Item := map["company" := JStr("Acme"), "date" := JStr("2020-Present")]
  const InitechJob: Item := map["company" := JStr("Initech"), "date" := JStr("2015-2019")]

  lemma AcmeYear()
    ensures JobYear(AcmeJob) == Some(2020)
  {
    assert Field(AcmeJob, "date") == "2020-Present";
    LeadingYear(AcmeJob, "2020-Present", 2020);
  }

  lemma InitechYear()
    ensures JobYear(InitechJob) == Some(2015)
  {
    assert Field(InitechJob, "date") == "2015-2019";
    LeadingYear(InitechJob, "2015-2019", 2015);
  }

  /** Two entries whose years are 2020 and 2015 start in 2015. */
  lemma FirstOfTwo(a: Item, b: Item)
    requires JobYear(a) == Some(2020) && JobYear(b) == Some(2015)
    ensures FirstJobYear([a, b]) == Some(2015)
  {
    var ys: seq<Option<nat>> := JobYears([a, b]);
    assert ys == [Some(2020), Some(2015)];
    assert ys[..1] == [Some(2020)];
    assert ys[..1][..0] == [];
  }

  /** The first year of the two entries is 2015, so the experience in 2025 is ten years. */
  lemma TwoJobsFirstYear()
    ensures FirstJobYear([AcmeJob, InitechJob]) == Some(2015)
    ensures TotalExperience([AcmeJob, InitechJob], 2025) == Years(10)
  {
    AcmeYear();
    InitechYear();
    FirstOfTwo(AcmeJob, InitechJob);
  }

  /** The current company of the two entries is Acme, whose date says `Present`. */
  lemma TwoJobsCurrentCompany()
    ensures CurrentCompany([AcmeJob, InitechJob]) == "Acme"
  {
    assert Field(AcmeJob, "date") == "2020-Present";
    assert Lower("2020-Present")[5..] == "present";
    assert IsCurrent(AcmeJob);
  }
}
