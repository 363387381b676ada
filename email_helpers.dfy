/**
 * The strings behind the "send by email" action: the regular-expression tag
 * stripper, the padded summary cells, the subject and the body.
 */
module EmailHelpers {
  import opened Text
  import opened Sequences
  import opened ResumeRecord
  import opened DerivedMetrics

  /**
   * What is left of `t` once a tag opened just before it is consumed: the
   * rest after the first `>`, or nothing when no `>` follows, because the
   * closing `>` of the pattern `<[^>]*>?` is optional.
   */
  function AfterTag(t: string): (r: string)
    ensures |r| <= |t| && r == t[|t| - |r|..]
    ensures '>' !in t ==> r == ""
    decreases |t|
  {
    if t == [] then []
    else if t[0] == '>' then t[1..]
    else AfterTag(t[1..])
  }

  /** `s.replace(/<[^>]*>?/gm, '')`: every `<` and what the pattern matches after it is removed. */
  function StripTags(s: string): (r: string)
    ensures '<' !in r
    decreases |s|
  {
    if s == [] then []
    else if s[0] == '<' then StripTags(AfterTag(s[1..]))
    else [s[0]] + StripTags(s[1..])
  }

  /** `stripHtmlTags`: a falsy input gives `''`, any other is stripped. */
  function StripHtmlTags(s: string): (r: string)
    ensures s == "" ==> r == ""
    ensures '<' !in r
  {
    if s == "" then "" else StripTags(s)
  }

  /** `formatCell`: the heading padded with spaces to 20 characters, `": "`, then the value. */
  function FormatCell(heading: string, value: string): (r: string)
    ensures var w := if |heading| >= 20 then |heading| else 20;
      && |r| == w + 2 + |value|
      && r[..|heading|] == heading
      && (forall i :: |heading| <= i < w ==> r[i] == ' ')
      && r[w..w + 2] == ": "
      && r[w + 2..] == value
  {
    var padded := PadEnd(heading, 20);
    assert padded + ": " + value == padded + (": " + value);
    padded + ": " + value
  }

  /** The subject before URI encoding: the name, or `Candidate` when it is empty. */
  function Subject(name: string): (r: string)
    ensures "Resume of " <= r
    ensures name != "" ==> r == "Resume of " + name
    ensures name == "" ==> r == "Resume of Candidate"
  {
    "Resume of " + (if name != "" then name else "Candidate")
  }

  /** The value of the Skills cell: the skills joined with `", "`, cut to 100 characters. */
  function SkillsCell(skills: seq<string>): (r: string)
    ensures |r| <= 100
    ensures r <= Join(skills, ", ")
    ensures |Join(skills, ", ")| <= 100 ==> r == Join(skills, ", ")
    ensures |Join(skills, ", ")| > 100 ==> r == Join(skills, ", ")[..100]
  {
    Take(Join(skills, ", "), 100)
  }

  /** `totalExperience + ' years'`. */
  function ExperienceText(e: Experience): (r: string)
    ensures |r| > 6 && r[|r| - 6..] == " years"
    ensures e.NotAvailable? ==> r == "N/A years"
    ensures e.Years? ==> r == IntToString(e.n) + " years"
  {
    match e
    case Years(n) => IntToString(n) + " years"
    case NotAvailable => "N/A years"
  }

  /** The lines of the body, in order. */
  function EmailLines(r: Resume, totalExperience: Experience, currentCompany: string): (lines: seq<string>)
    ensures |lines| == 18
  {
    [ "Hi,",
      "",
      "Please find attached resume of " + r.name + ".",
      "",
      "Candidate Summary:",
      "",
      FormatCell("Name", r.name),
      FormatCell("Contact Number", r.phone),
      FormatCell("Email", r.email),
      FormatCell("Skills", SkillsCell(r.skills)),
      FormatCell("Total Experience", ExperienceText(totalExperience)),
      FormatCell("Current Company", currentCompany),
      "",
      "Summary:",
      StripHtmlTags(r.summary),
      "",
      "Best regards,  ",
      r.name ]
  }

  /** The body before URI encoding: the template's lines separated by newlines. */
  function EmailBody(r: Resume, totalExperience: Experience, currentCompany: string): (body: string)
    ensures "Hi,\n" <= body
  {
    var lines := EmailLines(r, totalExperience, currentCompany);
    JoinCons(lines[0], lines[1..], "\n");
    assert lines == [lines[0]] + lines[1..];
    Join(lines, "\n")
  }
}

module EmailHelpersProperties {
  import opened Text
  import opened Sequences
  import opened ResumeRecord
  import opened DerivedMetrics
  import opened EmailHelpers

  /** Text without `<` passes through unchanged. */
  lemma {:induction false} StripPlain(s: string)
    requires '<' !in s
    ensures StripTags(s) == s
    decreases |s|
  {
    if s != [] {
      StripPlain(s[1..]);
      assert s == [s[0]] + s[1..];
    }
  }

  /** Stripping twice is stripping once. */
  lemma StripIdempotent(s: string)
    ensures StripHtmlTags(StripHtmlTags(s)) == StripHtmlTags(s)
  {
    if s != "" {
      StripPlain(StripTags(s));
    }
  }

  lemma {:induction false} SubsequenceOfSuffix<T>(a: seq<T>, b: seq<T>, k: nat)
    requires k <= |b| && IsSubsequence(a, b[k..])
    ensures IsSubsequence(a, b)
    decreases k
  {
    if k > 0 {
      assert b[1..][k - 1..] == b[k..];
      SubsequenceOfSuffix(a, b[1..], k - 1);
    }
  }

  /** Only characters are removed: the result is a subsequence of the input and no longer. */
  lemma {:induction false} StripSubsequence(s: string)
    ensures IsSubsequence(StripTags(s), s)
    ensures |StripTags(s)| <= |s|
    decreases |s|
  {
    if s != [] {
      if s[0] == '<' {
        var t := AfterTag(s[1..]);
        StripSubsequence(t);
        assert s[|s| - |t|..] == t;
        SubsequenceOfSuffix(StripTags(s), s, |s| - |t|);
      } else {
        StripSubsequence(s[1..]);
        assert ([s[0]] + StripTags(s[1..]))[1..] == StripTags(s[1..]);
      }
      SubsequenceLength(StripTags(s), s);
    }
  }

  /** An opening `<` that is never closed removes everything after it. */
  lemma {:induction false} UnterminatedTag(p: string, t: string)
    requires '<' !in p && '>' !in t
    ensures StripTags(p + "<" + t) == p
    decreases |p|
  {
    if p == [] {
      assert (p + "<" + t)[1..] == t;
    } else {
      UnterminatedTag(p[1..], t);
      assert (p + "<" + t)[1..] == p[1..] + "<" + t;
      assert p == [p[0]] + p[1..];
    }
  }

  /** Text without `<` in front of anything is kept as it is. */
  lemma {:induction false} StripPlainPrefix(w: string, t: string)
    requires '<' !in w
    ensures StripTags(w + t) == w + StripTags(t)
    decreases |w|
  {
    if w == [] {
      assert w + t == t;
    } else {
      StripPlainPrefix(w[1..], t);
      assert (w + t)[1..] == w[1..] + t;
      assert [w[0]] + w[1..] == w;
      AppendAssociates([w[0]], w[1..], StripTags(t));
    }
  }

  /** A closed tag is removed whole. */
  lemma ClosedTag(tag: string, rest: string)
    requires |tag| >= 2 && tag[0] == '<' && tag[|tag| - 1] == '>' && '>' !in tag[1..|tag| - 1]
    ensures StripTags(tag + rest) == StripTags(rest)
  {
    var inner := tag[1..|tag| - 1];
    assert (tag + rest)[1..] == inner + ">" + rest;
    AfterTagPast(inner, rest);
  }

  lemma {:induction false} AfterTagPast(tag: string, rest: string)
    requires '>' !in tag
    ensures AfterTag(tag + ">" + rest) == rest
    decreases |tag|
  {
    if tag == [] {
      assert (tag + ">" + rest)[1..] == rest;
    } else {
      assert (tag + ">" + rest)[1..] == tag[1..] + ">" + rest;
      AfterTagPast(tag[1..], rest);
    }
  }

  /** The markup of a rich-text summary is removed: `<p>Hello <b>World</b></p>` becomes `Hello World`. */
  lemma StripExample()
    ensures StripHtmlTags("<p>" + ("Hello " + ("<b>" + ("World" + ("</b>" + "</p>"))))) == "Hello " + "World"
  {
    StripHelloWorld();
    ClosedTag("<p>", "Hello " + ("<b>" + ("World" + ("</b>" + "</p>"))));
  }

  lemma StripHelloWorld()
    ensures StripTags("Hello " + ("<b>" + ("World" + ("</b>" + "</p>")))) == "Hello " + "World"
  {
    StripBoldWorld();
    StripPlainPrefix("Hello ", "<b>" + ("World" + ("</b>" + "</p>")));
  }

  lemma StripBoldWorld()
    ensures StripTags("<b>" + ("World" + ("</b>" + "</p>"))) == "World"
  {
    StripWorld();
    ClosedTag("<b>", "World" + ("</b>" + "</p>"));
  }

  lemma StripWorld()
    ensures StripTags("World" + ("</b>" + "</p>")) == "World"
  {
    StripClosingTags();
    StripPlainPrefix("World", "</b>" + "</p>");
  }

  lemma StripClosingTags()
    ensures StripTags("</b>" + "</p>") == ""
  {
    ClosedTag("</p>", "");
    assert "</p>" + "" == "</p>";
    ClosedTag("</b>", "</p>");
  }

  /** When no line holds a newline, splitting the body at newlines gives back the template's lines. */
  lemma BodyLines(r: Resume, e: Experience, company: string)
    requires forall i :: 0 <= i < |EmailLines(r, e, company)| ==> NoneIn(EmailLines(r, e, company)[i], {'\n'})
    ensures Split(EmailBody(r, e, company), {'\n'}) == EmailLines(r, e, company)
  {
    SplitJoin(EmailLines(r, e, company), '\n', {'\n'});
  }

  /** The experience cell reads `N/A years` when no year was found. */
  lemma ExperienceCellWithoutYear(work: seq<Item>, currentYear: int)
    requires forall i :: 0 <= i < |work| ==> JobYear(work[i]).None?
    ensures ExperienceText(TotalExperience(work, currentYear)) == "N/A years"
  {
  }
}
