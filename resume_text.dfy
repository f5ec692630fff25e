/** `fullResumeText`: the resume flattened into one labelled plain-text string,
    the form in which a resume is handed to the language model. */
module ResumeText {
  import opened Wrappers
  import opened Strings
  import opened ResumeDoc

  /** `value ? `${tag}${value}` : ''`, the tag being the label with its colon. */
  function LabelledOrEmpty(tag: string, value: string): string {
    if value != [] then tag + value else []
  }

  /** The personal block: five candidate lines, the empty ones filtered out,
      the rest joined by newlines. An absent website counts as empty. */
  function PersonalDetails(p: Personal): (text: string)
    ensures text == Join(PresentFields(p), "\n")
  {
    PersonalFilter(p);
    Join(NonEmpty([
      LabelledOrEmpty("Name: ", p.name),
      LabelledOrEmpty("Email: ", p.email),
      LabelledOrEmpty("Phone: ", p.phone),
      LabelledOrEmpty("Location: ", p.location),
      LabelledOrEmpty("Website: ", p.website.GetOr([]))]), "\n")
  }

  /** One experience entry: its six lines joined by newlines. */
  function ExperienceEntry(e: Experience): (entry: string)
    ensures entry == Join(ExperienceLines(e), "\n")
  {
    ExperienceEntryLines(e);
    "Title: " + e.title + "\nCompany: " + e.company + "\nLocation: " + e.location
    + "\nDates: " + e.dates + "\nDescription:\n" + e.description
  }

  /** One education entry: its four lines joined by newlines. */
  function EducationEntry(e: Education): (entry: string)
    ensures entry == Join(EducationLines(e), "\n")
  {
    EducationEntryLines(e);
    "Degree: " + e.degree + "\nSchool: " + e.school + "\nLocation: " + e.location
    + "\nDates: " + e.dates
  }

  function ExperienceText(xs: seq<Experience>): (text: string)
    ensures xs == [] ==> text == []
  {
    Join(seq(|xs|, i requires 0 <= i < |xs| => ExperienceEntry(xs[i])), "\n\n")
  }

  function EducationText(xs: seq<Education>): (text: string)
    ensures xs == [] ==> text == []
  {
    Join(seq(|xs|, i requires 0 <= i < |xs| => EducationEntry(xs[i])), "\n\n")
  }

  /** `fullResumeText(resume)`; no resume gives the empty string. */
  function FullResumeText(resume: Option<Resume>): (text: string)
    ensures resume.None? ==> text == []
  {
    match resume
    case None => []
    case Some(r) =>
      var c := r.content;
      PersonalDetails(c.personal) + "\n\nSummary:\n" + c.summary
      + "\n\nExperience:\n" + ExperienceText(c.experience)
      + "\n\nEducation:\n" + EducationText(c.education)
      + "\n\nSkills:\n" + Join(c.skills, ", ")
  }

  // ---------------------------------------------------------------------
  // The output line by line: an independent description of the text.

  /** One labelled line per non-empty personal field, in the order Name,
      Email, Phone, Location, Website. */
  function PresentFields(p: Personal): seq<string> {
    (if p.name != [] then ["Name: " + p.name] else [])
    + (if p.email != [] then ["Email: " + p.email] else [])
    + (if p.phone != [] then ["Phone: " + p.phone] else [])
    + (if p.location != [] then ["Location: " + p.location] else [])
    + (var w := p.website.GetOr([]); if w != [] then ["Website: " + w] else [])
  }

  /** The fixed six lines of one experience entry. */
  function ExperienceLines(e: Experience): (lines: seq<string>)
    ensures |lines| == 6
  {
    ["Title: " + e.title, "Company: " + e.company, "Location: " + e.location,
     "Dates: " + e.dates, "Description:", e.description]
  }

  /** The fixed four lines of one education entry. */
  function EducationLines(e: Education): (lines: seq<string>)
    ensures |lines| == 4
  {
    ["Degree: " + e.degree, "School: " + e.school, "Location: " + e.location,
     "Dates: " + e.dates]
  }

  function ExperienceBlocks(xs: seq<Experience>): (blocks: seq<seq<string>>)
    ensures |blocks| == |xs|
    ensures forall i :: 0 <= i < |xs| ==> blocks[i] == ExperienceLines(xs[i])
  {
    seq(|xs|, i requires 0 <= i < |xs| => ExperienceLines(xs[i]))
  }

  function EducationBlocks(xs: seq<Education>): (blocks: seq<seq<string>>)
    ensures |blocks| == |xs|
    ensures forall i :: 0 <= i < |xs| ==> blocks[i] == EducationLines(xs[i])
  {
    seq(|xs|, i requires 0 <= i < |xs| => EducationLines(xs[i]))
  }

  /** Every line of the text of a resume with this content, in order: the
      personal lines (one empty line if there are none), then each header
      after an empty line, each section's lines after its header, entries
      separated by one empty line and an empty section as one empty line. */
  function ResumeLines(c: Content): seq<string> {
    var personal := PresentFields(c.personal);
    (if personal == [] then [[]] else personal)
    + [[], "Summary:", c.summary, [], "Experience:"]
    + BlankSeparated(ExperienceBlocks(c.experience))
    + [[], "Education:"]
    + BlankSeparated(EducationBlocks(c.education))
    + [[], "Skills:", Join(c.skills, ", ")]
  }

  lemma LabelledLine(tag: string, value: string)
    requires tag != []
    ensures NonEmpty([LabelledOrEmpty(tag, value)]) == if value != [] then [tag + value] else []
  {
    assert [LabelledOrEmpty(tag, value)][1..] == [];
  }

  /** The filter keeps exactly the present fields' lines, in their order. */
  lemma PersonalFilter(p: Personal)
    ensures NonEmpty([
      LabelledOrEmpty("Name: ", p.name), LabelledOrEmpty("Email: ", p.email),
      LabelledOrEmpty("Phone: ", p.phone), LabelledOrEmpty("Location: ", p.location),
      LabelledOrEmpty("Website: ", p.website.GetOr([]))]) == PresentFields(p)
  {
    var w := p.website.GetOr([]);
    var a, b, c, d, e :=
      LabelledOrEmpty("Name: ", p.name), LabelledOrEmpty("Email: ", p.email),
      LabelledOrEmpty("Phone: ", p.phone), LabelledOrEmpty("Location: ", p.location),
      LabelledOrEmpty("Website: ", w);
    NonEmptyConcat([a], [b]);
    NonEmptyConcat([a] + [b], [c]);
    NonEmptyConcat([a] + [b] + [c], [d]);
    NonEmptyConcat([a] + [b] + [c] + [d], [e]);
    assert [a, b, c, d, e] == [a] + [b] + [c] + [d] + [e];
    LabelledLine("Name: ", p.name);
    LabelledLine("Email: ", p.email);
    LabelledLine("Phone: ", p.phone);
    LabelledLine("Location: ", p.location);
    LabelledLine("Website: ", w);
  }

  /** One template line `\n<tag><value>` in front of the rest of the entry. */
  lemma TemplateLine(tag: string, value: string, rest: string)
    ensures "\n" + tag + value + ("\n" + rest) == "\n" + (tag + value + "\n" + rest)
  {
  }

  /** The experience template is the six lines joined by newlines. */
  lemma ExperienceEntryLines(e: Experience)
    ensures "Title: " + e.title + "\nCompany: " + e.company + "\nLocation: " + e.location
      + "\nDates: " + e.dates + "\nDescription:\n" + e.description
      == Join(ExperienceLines(e), "\n")
  {
    var l := ExperienceLines(e);
    forall k | 0 <= k < 5 ensures Join(l[k..], "\n") == l[k] + "\n" + Join(l[k + 1..], "\n") {
      assert l[k..] == [l[k]] + l[k + 1..];
      JoinCons(l[k], l[k + 1..], "\n");
    }
    assert l[5..] == [e.description];
    var j4 := Join(l[4..], "\n");
    var j3 := Join(l[3..], "\n");
    var j2 := Join(l[2..], "\n");
    var j1 := Join(l[1..], "\n");
    var r4 := "\nDescription:\n" + e.description;
    var r3 := "\nDates: " + e.dates + r4;
    var r2 := "\nLocation: " + e.location + r3;
    var r1 := "\nCompany: " + e.company + r2;
    assert r4 == "\n" + j4;
    assert "\nDates: " == "\n" + "Dates: ";
    TemplateLine("Dates: ", e.dates, j4);
    assert r3 == "\n" + j3;
    assert "\nLocation: " == "\n" + "Location: ";
    TemplateLine("Location: ", e.location, j3);
    assert r2 == "\n" + j2;
    assert "\nCompany: " == "\n" + "Company: ";
    TemplateLine("Company: ", e.company, j2);
    assert r1 == "\n" + j1;
    ConcatAssoc("Title: " + e.title, "\n", j1);
    ExperienceTemplate(e.title, e.company, e.location, e.dates, e.description);
  }

  /** The entry template, regrouped from the right. */
  lemma ExperienceTemplate(t: string, c: string, l: string, d: string, desc: string)
    ensures "Title: " + t + "\nCompany: " + c + "\nLocation: " + l + "\nDates: " + d
            + "\nDescription:\n" + desc
         == "Title: " + t + ("\nCompany: " + c + ("\nLocation: " + l + ("\nDates: " + d
            + ("\nDescription:\n" + desc))))
  {
  }

  /** The education template is the four lines joined by newlines. */
  lemma EducationEntryLines(e: Education)
    ensures "Degree: " + e.degree + "\nSchool: " + e.school + "\nLocation: " + e.location
      + "\nDates: " + e.dates
      == Join(EducationLines(e), "\n")
  {
    var l := EducationLines(e);
    forall k | 0 <= k < 3 ensures Join(l[k..], "\n") == l[k] + "\n" + Join(l[k + 1..], "\n") {
      assert l[k..] == [l[k]] + l[k + 1..];
      JoinCons(l[k], l[k + 1..], "\n");
    }
    assert l[3..] == ["Dates: " + e.dates];
    var j2 := Join(l[2..], "\n");
    var j1 := Join(l[1..], "\n");
    var r2 := "\nLocation: " + e.location + "\nDates: " + e.dates;
    var r1 := "\nSchool: " + e.school + r2;
    assert "\nDates: " == "\n" + "Dates: ";
    ConcatAssoc("\n", "Dates: ", e.dates);
    assert "\nLocation: " == "\n" + "Location: ";
    ConcatAssoc("\nLocation: " + e.location, "\nDates: ", e.dates);
    TemplateLine("Location: ", e.location, Join(l[3..], "\n"));
    assert r2 == "\n" + j2;
    assert "\nSchool: " == "\n" + "School: ";
    TemplateLine("School: ", e.school, j2);
    assert r1 == "\n" + j1;
    ConcatAssoc("Degree: " + e.degree, "\n", j1);
    EducationTemplate(e.degree, e.school, e.location, e.dates);
  }

  /** The education template, regrouped from the right. */
  lemma EducationTemplate(g: string, s: string, l: string, d: string)
    ensures "Degree: " + g + "\nSchool: " + s + "\nLocation: " + l + "\nDates: " + d
         == "Degree: " + g + ("\nSchool: " + s + ("\nLocation: " + l + "\nDates: " + d))
  {
  }

  /** The experience section: the entries' lines in list order, one empty
      line between entries; an empty list is one empty line. */
  lemma ExperienceTextLines(xs: seq<Experience>)
    ensures ExperienceText(xs) == Join(BlankSeparated(ExperienceBlocks(xs)), "\n")
  {
    var joined := seq(|xs|, i requires 0 <= i < |xs| => ExperienceEntry(xs[i]));
    assert forall i :: 0 <= i < |xs| ==> joined[i] == Join(ExperienceBlocks(xs)[i], "\n");
    JoinBlocks(ExperienceBlocks(xs), joined, "\n");
    assert "\n" + "\n" == "\n\n";
  }

  /** The education section, in the same way. */
  lemma EducationTextLines(xs: seq<Education>)
    ensures EducationText(xs) == Join(BlankSeparated(EducationBlocks(xs)), "\n")
  {
    var joined := seq(|xs|, i requires 0 <= i < |xs| => EducationEntry(xs[i]));
    assert forall i :: 0 <= i < |xs| ==> joined[i] == Join(EducationBlocks(xs)[i], "\n");
    JoinBlocks(EducationBlocks(xs), joined, "\n");
    assert "\n" + "\n" == "\n\n";
  }

  /** The text template, regrouped from the right. */
  lemma TextTemplate(p: string, s: string, x: string, e: string, k: string)
    ensures p + "\n\nSummary:\n" + s + "\n\nExperience:\n" + x + "\n\nEducation:\n" + e
            + "\n\nSkills:\n" + k
         == p + ("\n\nSummary:\n" + s + ("\n\nExperience:\n" + x + ("\n\nEducation:\n" + e
            + ("\n\nSkills:\n" + k))))
  {
  }

  /** The lines from the education header on. */
  lemma TailLines(e: string, k: string)
    ensures "\n" + ("\nEducation:" + "\n" + (e + "\n" + ("\nSkills:\n" + k)))
         == "\n\nEducation:\n" + e + ("\n\nSkills:\n" + k)
  {
  }

  /** The lines from the summary header to the experience section. */
  lemma MiddleLines(s: string, x: string, y: string)
    ensures "\n" + ("\nSummary:\n" + s + "\n\nExperience:" + "\n" + (x + "\n" + y))
         == "\n\nSummary:\n" + s + ("\n\nExperience:\n" + x + ("\n" + y))
  {
  }

  /** The summary and experience header lines joined. */
  lemma SummaryHeaderJoin(s: string)
    ensures Join([[], "Summary:", s, [], "Experience:"], "\n") == "\nSummary:\n" + s + "\n\nExperience:"
  {
    var l: seq<string> := [[], "Summary:", s, [], "Experience:"];
    var j3 := Join(l[3..], "\n");
    var j2 := Join(l[2..], "\n");
    var j1 := Join(l[1..], "\n");
    assert l[4..] == ["Experience:"];
    assert l[3..] == [l[3]] + l[4..];
    JoinCons(l[3], l[4..], "\n");
    assert j3 == "\nExperience:";
    assert l[2..] == [l[2]] + l[3..];
    JoinCons(l[2], l[3..], "\n");
    assert j2 == s + "\n" + "\nExperience:";
    assert l[1..] == [l[1]] + l[2..];
    JoinCons(l[1], l[2..], "\n");
    assert l == [l[0]] + l[1..];
    JoinCons(l[0], l[1..], "\n");
    assert Join(l, "\n") == [] + "\n" + ("Summary:" + "\n" + (s + "\n" + "\nExperience:"));
    ConcatAssoc(s, "\n", "\nExperience:");
    ConcatAssoc("Summary:", "\n", s + "\n\nExperience:");
    ConcatAssoc("\nSummary:\n", s, "\n\nExperience:");
  }

  /** The education header lines joined. */
  lemma EducationHeaderJoin()
    ensures Join([[], "Education:"], "\n") == "\nEducation:"
  {
  }

  /** The skills header lines joined. */
  lemma SkillsHeaderJoin(k: string)
    ensures Join([[], "Skills:", k], "\n") == "\nSkills:\n" + k
  {
    var l: seq<string> := [[], "Skills:", k];
    assert l[1..] == ["Skills:"] + [k];
    JoinCons("Skills:", [k], "\n");
    assert l == [l[0]] + l[1..];
    JoinCons(l[0], l[1..], "\n");
    ConcatAssoc("\n", "Skills:" + "\n", k);
  }

  /** Joining six groups of lines, regrouped from the right. */
  lemma JoinSix(a: seq<string>, b: seq<string>, x: seq<string>, d: seq<string>, e: seq<string>,
                f: seq<string>)
    requires a != [] && b != [] && x != [] && d != [] && e != [] && f != []
    ensures Join(a + b + x + d + e + f, "\n")
         == Join(a, "\n") + ("\n" + (Join(b, "\n") + "\n" + (Join(x, "\n") + "\n"
            + (Join(d, "\n") + "\n" + (Join(e, "\n") + "\n" + Join(f, "\n"))))))
  {
    assert a + b + x + d + e + f == a + (b + (x + (d + (e + f))));
    JoinAppend(e, f, "\n");
    JoinAppend(d, e + f, "\n");
    JoinAppend(x, d + (e + f), "\n");
    JoinAppend(b, x + (d + (e + f)), "\n");
    JoinAppend(a, b + (x + (d + (e + f))), "\n");
    ConcatAssoc(Join(a, "\n"), "\n", Join(b + (x + (d + (e + f))), "\n"));
  }

  /** The whole text is the resume's lines joined by newlines. */
  lemma FullResumeTextLines(r: Resume)
    ensures FullResumeText(Some(r)) == Join(ResumeLines(r.content), "\n")
  {
    var c := r.content;
    var personal := PresentFields(c.personal);
    var a := if personal == [] then [[]] else personal;
    var b: seq<string> := [[], "Summary:", c.summary, [], "Experience:"];
    var x := BlankSeparated(ExperienceBlocks(c.experience));
    var d: seq<string> := [[], "Education:"];
    var e := BlankSeparated(EducationBlocks(c.education));
    var k := Join(c.skills, ", ");
    var f: seq<string> := [[], "Skills:", k];
    var P, X, E := PersonalDetails(c.personal), Join(x, "\n"), Join(e, "\n");
    assert Join(a, "\n") == P;
    ExperienceTextLines(c.experience);
    EducationTextLines(c.education);
    SummaryHeaderJoin(c.summary);
    EducationHeaderJoin();
    SkillsHeaderJoin(k);
    assert ResumeLines(c) == a + b + x + d + e + f;
    JoinSix(a, b, x, d, e, f);
    TailLines(E, k);
    MiddleLines(c.summary, X, "\nEducation:" + "\n" + (E + "\n" + ("\nSkills:\n" + k)));
    TextTemplate(P, c.summary, X, E, k);
  }

  /** No field of the content holds a line break. */
  predicate NoLineBreaks(c: Content) {
    && '\n' !in c.personal.name && '\n' !in c.personal.email && '\n' !in c.personal.phone
    && '\n' !in c.personal.location && '\n' !in c.personal.website.GetOr([])
    && '\n' !in c.summary
    && (forall i :: 0 <= i < |c.experience| ==>
          var e := c.experience[i];
          '\n' !in e.title && '\n' !in e.company && '\n' !in e.location && '\n' !in e.dates
          && '\n' !in e.description)
    && (forall i :: 0 <= i < |c.education| ==>
          var e := c.education[i];
          '\n' !in e.degree && '\n' !in e.school && '\n' !in e.location && '\n' !in e.dates)
    && (forall i :: 0 <= i < |c.skills| ==> '\n' !in c.skills[i])
  }

  /** No line of `lines` holds a line break. */
  predicate LinesFree(lines: seq<string>) {
    forall i :: 0 <= i < |lines| ==> '\n' !in lines[i]
  }

  lemma LinesFreeConcat(a: seq<string>, b: seq<string>)
    requires LinesFree(a) && LinesFree(b)
    ensures LinesFree(a + b)
  {
  }

  lemma PersonalLinesFree(p: Personal)
    requires '\n' !in p.name && '\n' !in p.email && '\n' !in p.phone
    requires '\n' !in p.location && '\n' !in p.website.GetOr([])
    ensures LinesFree(PresentFields(p))
  {
  }

  lemma ExperienceLinesFree(xs: seq<Experience>)
    requires forall i :: 0 <= i < |xs| ==>
      var e := xs[i];
      '\n' !in e.title && '\n' !in e.company && '\n' !in e.location && '\n' !in e.dates
      && '\n' !in e.description
    ensures LinesFree(BlankSeparated(ExperienceBlocks(xs)))
  {
    BlankSeparatedExcludes(ExperienceBlocks(xs), '\n');
  }

  lemma EducationLinesFree(xs: seq<Education>)
    requires forall i :: 0 <= i < |xs| ==>
      var e := xs[i];
      '\n' !in e.degree && '\n' !in e.school && '\n' !in e.location && '\n' !in e.dates
    ensures LinesFree(BlankSeparated(EducationBlocks(xs)))
  {
    BlankSeparatedExcludes(EducationBlocks(xs), '\n');
  }

  /** When no field holds a line break, no line of the text does. */
  lemma ResumeLinesFree(c: Content)
    requires NoLineBreaks(c)
    ensures LinesFree(ResumeLines(c))
  {
    var personal := PresentFields(c.personal);
    var a := if personal == [] then [[]] else personal;
    var b: seq<string> := [[], "Summary:", c.summary, [], "Experience:"];
    var x := BlankSeparated(ExperienceBlocks(c.experience));
    var d: seq<string> := [[], "Education:"];
    var e := BlankSeparated(EducationBlocks(c.education));
    var f: seq<string> := [[], "Skills:", Join(c.skills, ", ")];
    PersonalLinesFree(c.personal);
    ExperienceLinesFree(c.experience);
    EducationLinesFree(c.education);
    JoinExcludes(c.skills, ", ", '\n');
    assert LinesFree(a) && LinesFree(b) && LinesFree(d) && LinesFree(f);
    LinesFreeConcat(a, b);
    LinesFreeConcat(a + b, x);
    LinesFreeConcat(a + b + x, d);
    LinesFreeConcat(a + b + x + d, e);
    LinesFreeConcat(a + b + x + d + e, f);
  }

  /** For a resume without line breaks in its fields, splitting the text at
      its newlines recovers exactly the resume's lines, in order. */
  lemma ResumeTextSplit(r: Resume)
    requires NoLineBreaks(r.content)
    ensures Split(FullResumeText(Some(r)), '\n') == ResumeLines(r.content)
  {
    FullResumeTextLines(r);
    ResumeLinesFree(r.content);
    JoinSplit(ResumeLines(r.content), '\n');
  }

  /** The four section headers are lines of every resume's text, in the
      order Summary, Experience, Education, Skills, whatever is empty. */
  lemma HeadersInOrder(c: Content) returns (s: nat, x: nat, e: nat, k: nat)
    ensures s < x < e < k < |ResumeLines(c)|
    ensures ResumeLines(c)[s] == "Summary:" && ResumeLines(c)[x] == "Experience:"
    ensures ResumeLines(c)[e] == "Education:" && ResumeLines(c)[k] == "Skills:"
  {
    var personal := PresentFields(c.personal);
    var a := if personal == [] then [[]] else personal;
    var xl := BlankSeparated(ExperienceBlocks(c.experience));
    var el := BlankSeparated(EducationBlocks(c.education));
    s := |a| + 1;
    x := |a| + 4;
    e := |a| + 5 + |xl| + 1;
    k := |a| + 5 + |xl| + 2 + |el| + 1;
  }

  /** With every personal field empty, the text opens with the summary
      header after two newlines. */
  lemma EmptyPersonalStart(r: Resume)
    requires r.content.personal.name == [] && r.content.personal.email == []
    requires r.content.personal.phone == [] && r.content.personal.location == []
    requires r.content.personal.website.GetOr([]) == []
    ensures "\n\nSummary:\n" <= FullResumeText(Some(r))
  {
    var c := r.content;
    TextTemplate([], c.summary, ExperienceText(c.experience), EducationText(c.education), Join(c.skills, ", "));
  }

  /** A resume whose every field and list is empty still has all four
      headers, each after an empty line; every other line is empty. */
  lemma EmptyResumeLines()
    ensures ResumeLines(Content(Personal([], [], [], [], None), [], [], [], []))
         == [[], [], "Summary:", [], [], "Experience:", [], [], "Education:", [], [], "Skills:", []]
  {
    assert PresentFields(Personal([], [], [], [], None)) == [];
    assert Join([], ", ") == [];
  }

  /** The worked example: one present personal field, one experience entry
      with an empty location, no education and one skill. */
  lemma ExampleResumeLines()
    ensures ResumeLines(Content(Personal("Jane Doe", [], [], [], None), "Engineer.",
              [Experience("Dev", "Acme", [], "2020-2021", "Built things.")], [], ["Go"]))
         == ["Name: " + "Jane Doe", [], "Summary:", "Engineer.", [], "Experience:",
             "Title: " + "Dev", "Company: " + "Acme", "Location: ", "Dates: " + "2020-2021",
             "Description:", "Built things.", [], "Education:", [], [], "Skills:", "Go"]
  {
    var e := Experience("Dev", "Acme", [], "2020-2021", "Built things.");
    assert "Location: " + [] == "Location: ";
    assert BlankSeparated(ExperienceBlocks([e])) == ExperienceLines(e);
  }
}
