/** The resume form editor. Every handler commits through
    `setResume(prev => ...)`, so each is modelled as a function from the
    current draft (absent while nothing is loaded) to the next one. */
module ResumeForm {
  import opened Wrappers
  import opened Strings
  import opened Sequences
  import opened ResumeDoc

  /** The sections of a resume's content, the keys `handleContentChange` takes. */
  datatype Section = PersonalSection | SummarySection | ExperienceSection | EducationSection | SkillsSection

  /** A new value for one section. */
  datatype SectionValue =
    | PersonalValue(personal: Personal)
    | SummaryValue(summary: string)
    | ExperienceValue(experience: seq<Experience>)
    | EducationValue(education: seq<Education>)
    | SkillsValue(skills: seq<string>)

  function SectionOf(v: SectionValue): Section {
    match v
    case PersonalValue(_) => PersonalSection
    case SummaryValue(_) => SummarySection
    case ExperienceValue(_) => ExperienceSection
    case EducationValue(_) => EducationSection
    case SkillsValue(_) => SkillsSection
  }

  /** The current value of one section. */
  function Get(c: Content, s: Section): SectionValue {
    match s
    case PersonalSection => PersonalValue(c.personal)
    case SummarySection => SummaryValue(c.summary)
    case ExperienceSection => ExperienceValue(c.experience)
    case EducationSection => EducationValue(c.education)
    case SkillsSection => SkillsValue(c.skills)
  }

  /** `after` is `before` with at most the section `s` of its content changed:
      id, title, time stamp and every other section are the same. */
  predicate OnlySectionChanged(before: Resume, after: Resume, s: Section) {
    && after.id == before.id
    && after.title == before.title
    && after.updatedAt == before.updatedAt
    && forall t: Section :: t != s ==> Get(after.content, t) == Get(before.content, t)
  }

  /** `handleContentChange(section, value)`: replaces one section; no draft
      stays no draft. */
  function ContentChange(draft: Option<Resume>, value: SectionValue): (next: Option<Resume>)
    ensures next.Some? <==> draft.Some?
    ensures next.Some? ==> OnlySectionChanged(draft.value, next.value, SectionOf(value))
    ensures next.Some? ==> Get(next.value.content, SectionOf(value)) == value
  {
    match draft
    case None => None
    case Some(r) =>
      var c := r.content;
      var c' := match value
        case PersonalValue(p) => c.(personal := p)
        case SummaryValue(s) => c.(summary := s)
        case ExperienceValue(xs) => c.(experience := xs)
        case EducationValue(xs) => c.(education := xs)
        case SkillsValue(xs) => c.(skills := xs);
      Some(r.(content := c'))
  }

  /** The title input: `setResume(prev => prev ? {...prev, title} : null)`. */
  function TitleChange(draft: Option<Resume>, title: string): (next: Option<Resume>)
    ensures next.Some? <==> draft.Some?
    ensures next.Some? ==> next.value.title == title
    ensures next.Some? ==> next.value.id == draft.value.id && next.value.updatedAt == draft.value.updatedAt
    ensures next.Some? ==> next.value.content == draft.value.content
  {
    match draft
    case None => None
    case Some(r) => Some(r.(title := title))
  }

  // ---------------------------------------------------------------------
  // Personal details

  datatype PersonalField = Name | Email | Phone | PersonalLocation | Website

  /** A personal field's value; only the website can be absent. */
  function PersonalGet(p: Personal, f: PersonalField): Option<string> {
    match f
    case Name => Some(p.name)
    case Email => Some(p.email)
    case Phone => Some(p.phone)
    case PersonalLocation => Some(p.location)
    case Website => p.website
  }

  /** `{ ...personal, [field]: value }`. */
  function PersonalSet(p: Personal, f: PersonalField, value: string): (q: Personal)
    ensures PersonalGet(q, f) == Some(value)
    ensures forall g :: g != f ==> PersonalGet(q, g) == PersonalGet(p, g)
  {
    match f
    case Name => p.(name := value)
    case Email => p.(email := value)
    case Phone => p.(phone := value)
    case PersonalLocation => p.(location := value)
    case Website => p.(website := Some(value))
  }

  /** `handlePersonalChange(field, value)`: sets that one personal field and
      nothing else. */
  function PersonalChange(draft: Option<Resume>, field: PersonalField, value: string): (next: Option<Resume>)
    ensures next.Some? <==> draft.Some?
    ensures next.Some? ==> OnlySectionChanged(draft.value, next.value, PersonalSection)
    ensures next.Some? ==> PersonalGet(next.value.content.personal, field) == Some(value)
    ensures next.Some? ==> forall g :: g != field ==>
      PersonalGet(next.value.content.personal, g) == PersonalGet(draft.value.content.personal, g)
  {
    match draft
    case None => None
    case Some(r) => ContentChange(draft, PersonalValue(PersonalSet(r.content.personal, field, value)))
  }

  // ---------------------------------------------------------------------
  // Experience entries

  datatype ExperienceField = Title | Company | ExperienceLocation | ExperienceDates | Description

  function ExperienceGet(e: Experience, f: ExperienceField): string {
    match f
    case Title => e.title
    case Company => e.company
    case ExperienceLocation => e.location
    case ExperienceDates => e.dates
    case Description => e.description
  }

  /** `{ ...entry, [field]: value }`. */
  function ExperienceSet(e: Experience, f: ExperienceField, value: string): (e': Experience)
    ensures ExperienceGet(e', f) == value
    ensures forall g :: g != f ==> ExperienceGet(e', g) == ExperienceGet(e, g)
  {
    match f
    case Title => e.(title := value)
    case Company => e.(company := value)
    case ExperienceLocation => e.(location := value)
    case ExperienceDates => e.(dates := value)
    case Description => e.(description := value)
  }

  /** The entry `addExperience` appends. */
  const BlankExperience := Experience([], [], [], [], [])

  /** `handleExperienceChange(index, field, value)` for an entry the form
      shows: sets one field of one entry. */
  function ExperienceChange(draft: Option<Resume>, index: nat, field: ExperienceField, value: string)
    : (next: Option<Resume>)
    requires draft.Some? ==> index < |draft.value.content.experience|
    ensures next.Some? <==> draft.Some?
    ensures next.Some? ==> OnlySectionChanged(draft.value, next.value, ExperienceSection)
    ensures next.Some? ==>
      var xs, ys := draft.value.content.experience, next.value.content.experience;
      && |ys| == |xs|
      && ExperienceGet(ys[index], field) == value
      && (forall g :: g != field ==> ExperienceGet(ys[index], g) == ExperienceGet(xs[index], g))
      && (forall j :: 0 <= j < |xs| && j != index ==> ys[j] == xs[j])
  {
    match draft
    case None => None
    case Some(r) =>
      var xs := r.content.experience;
      ContentChange(draft, ExperienceValue(xs[index := ExperienceSet(xs[index], field, value)]))
  }

  /** `addExperience()`: one blank entry after the existing ones. */
  function AddExperience(draft: Option<Resume>): (next: Option<Resume>)
    ensures next.Some? <==> draft.Some?
    ensures next.Some? ==> OnlySectionChanged(draft.value, next.value, ExperienceSection)
    ensures next.Some? ==>
      var xs, ys := draft.value.content.experience, next.value.content.experience;
      && |ys| == |xs| + 1
      && ys[..|xs|] == xs
      && forall f :: ExperienceGet(ys[|xs|], f) == []
  {
    match draft
    case None => None
    case Some(r) => ContentChange(draft, ExperienceValue(r.content.experience + [BlankExperience]))
  }

  /** `removeExperience(index)`: the entries other than position `index`, in
      order; an index outside the list removes nothing. */
  function RemoveExperience(draft: Option<Resume>, index: int): (next: Option<Resume>)
    ensures next.Some? <==> draft.Some?
    ensures next.Some? ==> OnlySectionChanged(draft.value, next.value, ExperienceSection)
    ensures next.Some? ==>
      var xs, ys := draft.value.content.experience, next.value.content.experience;
      && (0 <= index < |xs| ==> ys == xs[..index] + xs[index + 1..])
      && (!(0 <= index < |xs|) ==> ys == xs)
  {
    match draft
    case None => None
    case Some(r) =>
      var xs := r.content.experience;
      var ys := WithoutIndex(xs, index);
      assert 0 <= index < |xs| ==> ys == xs[..index] + xs[index + 1..];
      ContentChange(draft, ExperienceValue(ys))
  }

  // ---------------------------------------------------------------------
  // Education entries

  datatype EducationField = Degree | School | EducationLocation | EducationDates

  function EducationGet(e: Education, f: EducationField): string {
    match f
    case Degree => e.degree
    case School => e.school
    case EducationLocation => e.location
    case EducationDates => e.dates
  }

  /** `{ ...entry, [field]: value }`. */
  function EducationSet(e: Education, f: EducationField, value: string): (e': Education)
    ensures EducationGet(e', f) == value
    ensures forall g :: g != f ==> EducationGet(e', g) == EducationGet(e, g)
  {
    match f
    case Degree => e.(degree := value)
    case School => e.(school := value)
    case EducationLocation => e.(location := value)
    case EducationDates => e.(dates := value)
  }

  /** The entry `addEducation` appends. */
  const BlankEducation := Education([], [], [], [])

  /** `handleEducationChange(index, field, value)` for an entry the form
      shows: sets one field of one entry. */
  function EducationChange(draft: Option<Resume>, index: nat, field: EducationField, value: string)
    : (next: Option<Resume>)
    requires draft.Some? ==> index < |draft.value.content.education|
    ensures next.Some? <==> draft.Some?
    ensures next.Some? ==> OnlySectionChanged(draft.value, next.value, EducationSection)
    ensures next.Some? ==>
      var xs, ys := draft.value.content.education, next.value.content.education;
      && |ys| == |xs|
      && EducationGet(ys[index], field) == value
      && (forall g :: g != field ==> EducationGet(ys[index], g) == EducationGet(xs[index], g))
      && (forall j :: 0 <= j < |xs| && j != index ==> ys[j] == xs[j])
  {
    match draft
    case None => None
    case Some(r) =>
      var xs := r.content.education;
      ContentChange(draft, EducationValue(xs[index := EducationSet(xs[index], field, value)]))
  }

  /** `addEducation()`: one blank entry after the existing ones. */
  function AddEducation(draft: Option<Resume>): (next: Option<Resume>)
    ensures next.Some? <==> draft.Some?
    ensures next.Some? ==> OnlySectionChanged(draft.value, next.value, EducationSection)
    ensures next.Some? ==>
      var xs, ys := draft.value.content.education, next.value.content.education;
      && |ys| == |xs| + 1
      && ys[..|xs|] == xs
      && forall f :: EducationGet(ys[|xs|], f) == []
  {
    match draft
    case None => None
    case Some(r) => ContentChange(draft, EducationValue(r.content.education + [BlankEducation]))
  }

  /** `removeEducation(index)`: the entries other than position `index`, in
      order; an index outside the list removes nothing. */
  function RemoveEducation(draft: Option<Resume>, index: int): (next: Option<Resume>)
    ensures next.Some? <==> draft.Some?
    ensures next.Some? ==> OnlySectionChanged(draft.value, next.value, EducationSection)
    ensures next.Some? ==>
      var xs, ys := draft.value.content.education, next.value.content.education;
      && (0 <= index < |xs| ==> ys == xs[..index] + xs[index + 1..])
      && (!(0 <= index < |xs|) ==> ys == xs)
  {
    match draft
    case None => None
    case Some(r) =>
      var xs := r.content.education;
      var ys := WithoutIndex(xs, index);
      assert 0 <= index < |xs| ==> ys == xs[..index] + xs[index + 1..];
      ContentChange(draft, EducationValue(ys))
  }

  // ---------------------------------------------------------------------
  // Skills

  /** What the skills text area shows, `skills.join(', ')`: nothing for no
      skills, otherwise the first skill, then every later one after a comma
      and a space. */
  function SkillsDisplay(skills: seq<string>): (shown: string)
    ensures skills == [] ==> shown == []
    ensures skills != [] ==> shown == Join(ShownPieces(skills), [','])
  {
    ShownPiecesJoin(skills);
    Join(skills, ", ")
  }

  /** `text.split(',').map(s => s.trim())`: one trimmed piece per stretch
      between commas, so one more piece than there are commas. */
  function ParseSkills(text: string): (skills: seq<string>)
    ensures |skills| == multiset(text)[','] + 1
    ensures forall i :: 0 <= i < |skills| ==> Trimmed(skills[i]) && ',' !in skills[i]
    ensures text == [] ==> skills == [[]]
  {
    var pieces := Split(text, ',');
    seq(|pieces|, i requires 0 <= i < |pieces| => Trim(pieces[i]))
  }

  /** Each skill with its surrounding white space put back. */
  function Padded(left: seq<string>, skills: seq<string>, right: seq<string>): (pieces: seq<string>)
    requires |left| == |skills| == |right|
    ensures |pieces| == |skills|
    ensures forall i :: 0 <= i < |skills| ==> pieces[i] == left[i] + skills[i] + right[i]
  {
    seq(|skills|, i requires 0 <= i < |skills| => left[i] + skills[i] + right[i])
  }

  /** The parse loses only white space: each skill, with the white space
      that surrounded it put back, is the text between two commas, so the
      text is the padded skills joined by commas. */
  lemma ParseSkillsPadding(text: string) returns (left: seq<string>, right: seq<string>)
    ensures |left| == |ParseSkills(text)| && |right| == |ParseSkills(text)|
    ensures forall i :: 0 <= i < |left| ==> AllWhitespace(left[i]) && AllWhitespace(right[i])
    ensures text == Join(Padded(left, ParseSkills(text), right), [','])
  {
    var pieces := Split(text, ',');
    var skills := ParseSkills(text);
    left := seq(|pieces|, i requires 0 <= i < |pieces| => LeftPadding(pieces[i]));
    right := seq(|pieces|, i requires 0 <= i < |pieces| => RightPadding(pieces[i]));
    forall i | 0 <= i < |pieces| ensures Padded(left, skills, right)[i] == pieces[i] {
      TrimSurrounded(pieces[i]);
    }
    assert Padded(left, skills, right) == pieces;
    SplitJoin(text, ',');
  }

  /** The comma-separated pieces of "React, Node.js,  Go". */
  lemma ExampleSkillsPieces()
    ensures Split("React, Node.js,  Go", ',') == ["React", " Node.js", "  Go"]
  {
    var pieces: seq<string> := ["React", " Node.js", "  Go"];
    JoinCons(" Node.js", ["  Go"], ",");
    assert pieces[1..] == [" Node.js"] + ["  Go"];
    JoinCons("React", pieces[1..], ",");
    assert pieces == ["React"] + pieces[1..];
    assert Join(pieces, [',']) == "React, Node.js,  Go";
    JoinSplit(pieces, ',');
  }

  /** Text written as comma-free pieces joined by commas parses to those
      pieces, each trimmed. */
  lemma ParseSkillsOfPieces(pieces: seq<string>)
    requires pieces != []
    requires forall i :: 0 <= i < |pieces| ==> ',' !in pieces[i]
    ensures |ParseSkills(Join(pieces, [',']))| == |pieces|
    ensures forall i :: 0 <= i < |pieces| ==> ParseSkills(Join(pieces, [',']))[i] == Trim(pieces[i])
  {
    JoinSplit(pieces, ',');
  }

  /** The converse of `ParseSkillsPadding`: trimmed, comma-free skills, each
      with any white space around it, joined by commas, parse back to
      exactly those skills. */
  lemma ParsePaddedSkills(left: seq<string>, skills: seq<string>, right: seq<string>)
    requires skills != [] && |left| == |skills| == |right|
    requires forall i :: 0 <= i < |skills| ==> Trimmed(skills[i]) && ',' !in skills[i]
    requires forall i :: 0 <= i < |skills| ==> AllWhitespace(left[i]) && AllWhitespace(right[i])
    ensures ParseSkills(Join(Padded(left, skills, right), [','])) == skills
  {
    var pieces := Padded(left, skills, right);
    forall i | 0 <= i < |pieces| ensures ',' !in pieces[i] && Trim(pieces[i]) == skills[i] {
      TrimPadded(left[i], skills[i], right[i]);
      assert ',' !in left[i] && ',' !in right[i];
    }
    ParseSkillsOfPieces(pieces);
  }

  /** "React", "Node.js" and "Go", with the spaces typed after the commas. */
  lemma ExamplePadded()
    ensures Padded([[], " ", "  "], ["React", "Node.js", "Go"], [[], [], []]) == ["React", " Node.js", "  Go"]
  {
    var pieces := Padded([[], " ", "  "], ["React", "Node.js", "Go"], [[], [], []]);
    assert pieces[0] == [] + "React" + [] == "React";
    assert pieces[1] == " " + "Node.js" + [] == " Node.js";
    assert pieces[2] == "  " + "Go" + [] == "  Go";
  }

  /** The worked example: "React, Node.js,  Go" (the pieces "React",
      " Node.js" and "  Go" between its commas) parses to "React",
      "Node.js" and "Go". */
  lemma ExampleParseSkills()
    ensures ParseSkills(Join(["React", " Node.js", "  Go"], [','])) == ["React", "Node.js", "Go"]
  {
    ParsePaddedSkills([[], " ", "  "], ["React", "Node.js", "Go"], [[], [], []]);
    ExamplePadded();
  }

  /** The worked example on the text itself: "React, Node.js,  Go" parses
      to "React", "Node.js" and "Go". */
  lemma ExampleParseSkillsText()
    ensures ParseSkills("React, Node.js,  Go") == ["React", "Node.js", "Go"]
  {
    ExampleSkillsPieces();
    ExampleParseSkills();
    JoinSplit(["React", " Node.js", "  Go"], ',');
  }

  /** The skills text area's `onChange`. */
  function SkillsChange(draft: Option<Resume>, text: string): (next: Option<Resume>)
    ensures next.Some? <==> draft.Some?
    ensures next.Some? ==> OnlySectionChanged(draft.value, next.value, SkillsSection)
    ensures next.Some? ==> next.value.content.skills == ParseSkills(text)
  {
    ContentChange(draft, SkillsValue(ParseSkills(text)))
  }

  /** Every piece but the first with the space that `", "` puts before it. */
  function SpaceLed(xs: seq<string>): (ys: seq<string>)
    ensures |ys| == |xs|
    ensures forall i :: 0 <= i < |xs| ==> ys[i] == " " + xs[i]
  {
    seq(|xs|, i requires 0 <= i < |xs| => " " + xs[i])
  }

  /** `", "` is `","` followed by a space that starts the next piece. */
  lemma {:induction false} JoinCommaSpace(xs: seq<string>)
    requires xs != []
    ensures " " + Join(xs, ", ") == Join(SpaceLed(xs), ",")
  {
    if |xs| > 1 {
      JoinCommaSpace(xs[1..]);
      assert SpaceLed(xs)[1..] == SpaceLed(xs[1..]);
      ConcatAssoc(" " + xs[0], ",", " " + Join(xs[1..], ", "));
      assert " " + (xs[0] + ", " + Join(xs[1..], ", ")) == " " + xs[0] + "," + (" " + Join(xs[1..], ", "));
    }
  }

  /** The pieces that `split(',')` cuts the shown skills into: the first
      skill, then every later one with the space that `", "` left before it. */
  function ShownPieces(skills: seq<string>): (pieces: seq<string>)
    requires skills != []
    ensures |pieces| == |skills|
  {
    [skills[0]] + SpaceLed(skills[1..])
  }

  /** The shown text is the shown pieces joined with bare commas. */
  lemma ShownPiecesJoin(skills: seq<string>)
    ensures skills != [] ==> Join(skills, ", ") == Join(ShownPieces(skills), [','])
  {
    if |skills| > 1 {
      JoinCommaSpace(skills[1..]);
      ConcatAssoc(skills[0], ",", " " + Join(skills[1..], ", "));
      assert Join(skills, ", ") == skills[0] + "," + Join(SpaceLed(skills[1..]), ",");
      JoinCons(skills[0], SpaceLed(skills[1..]), ",");
    }
  }

  /** Trimming a shown piece gives back its skill. */
  lemma ShownPiecesTrim(skills: seq<string>, i: nat)
    requires skills != [] && i < |skills| && Trimmed(skills[i])
    ensures Trim(ShownPieces(skills)[i]) == skills[i]
  {
  }

  /** Showing skills and parsing the shown text gives the same skills back,
      as long as there is at least one, none holds a comma and none has
      white space at either end. */
  lemma DisplayParseRoundTrip(skills: seq<string>)
    requires skills != []
    requires forall i :: 0 <= i < |skills| ==> ',' !in skills[i] && Trimmed(skills[i])
    ensures ParseSkills(SkillsDisplay(skills)) == skills
  {
    var pieces := ShownPieces(skills);
    forall i | 0 <= i < |pieces| ensures ',' !in pieces[i] {
      if i > 0 {
        assert pieces[i] == " " + skills[i];
      }
    }
    JoinSplit(pieces, ',');
    forall i | 0 <= i < |skills| ensures Trim(pieces[i]) == skills[i] {
      ShownPiecesTrim(skills, i);
    }
  }

  /** An empty skills list shows as empty text, which parses to one empty
      skill: the round trip needs at least one skill. */
  lemma EmptySkillsRoundTrip()
    ensures ParseSkills(SkillsDisplay([])) == [[]]
  {
  }

  /** Changing one personal field and then changing it back restores the
      draft, website presence included. */
  lemma PersonalChangeUndo(draft: Option<Resume>, field: PersonalField, value: string)
    requires draft.Some? && (field == Website ==> draft.value.content.personal.website.Some?)
    ensures
      var before := PersonalGet(draft.value.content.personal, field).value;
      PersonalChange(PersonalChange(draft, field, value), field, before) == draft
  {
  }

  /** Appending a blank entry and removing the last one restores the draft. */
  lemma AddRemoveExperience(draft: Option<Resume>)
    requires draft.Some?
    ensures RemoveExperience(AddExperience(draft), |draft.value.content.experience|) == draft
  {
    var r, xs := draft.value, draft.value.content.experience;
    var added := AddExperience(draft);
    assert added == Some(r.(content := r.content.(experience := xs + [BlankExperience])));
    assert (xs + [BlankExperience])[..|xs|] == xs;
    assert (xs + [BlankExperience])[|xs| + 1..] == [];
    assert WithoutIndex(xs + [BlankExperience], |xs|) == xs;
  }

  /** Appending a blank entry and removing the last one restores the draft. */
  lemma AddRemoveEducation(draft: Option<Resume>)
    requires draft.Some?
    ensures RemoveEducation(AddEducation(draft), |draft.value.content.education|) == draft
  {
    var r, xs := draft.value, draft.value.content.education;
    var added := AddEducation(draft);
    assert added == Some(r.(content := r.content.(education := xs + [BlankEducation])));
    assert (xs + [BlankEducation])[..|xs|] == xs;
    assert (xs + [BlankEducation])[|xs| + 1..] == [];
    assert WithoutIndex(xs + [BlankEducation], |xs|) == xs;
  }
}
