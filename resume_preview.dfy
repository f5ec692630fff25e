/** What the resume preview shows: placeholders for empty fields, the
    contact line, description bullets and the skill badges. The page is
    modelled as the values it displays, not as markup. */
module ResumePreview {
  import opened Strings
  import opened ResumeDoc

  const NamePlaceholder := "Your Name"
  const SummaryPlaceholder := "A brief professional summary about yourself."
  const JobTitlePlaceholder := "Job Title"
  const DateRangePlaceholder := "Date Range"
  const CompanyPlaceholder := "Company Name"
  const LocationPlaceholder := "Location"
  const DegreePlaceholder := "Degree"
  const SchoolPlaceholder := "School Name"

  /** `value || placeholder` on strings: the value unless it is empty. */
  function OrPlaceholder(value: string, placeholder: string): (shown: string)
    ensures value != [] ==> shown == value
    ensures value == [] ==> shown == placeholder
    ensures placeholder != [] ==> shown != []
  {
    if value != [] then value else placeholder
  }

  // ---------------------------------------------------------------------
  // Contact line

  /** The icon in front of a contact item. */
  datatype ContactKind = Mail | Phone | MapPin | Globe

  datatype ContactItem = ContactItem(kind: ContactKind, text: string)

  /** The personal field each kind of contact item shows. */
  function ContactField(p: Personal, k: ContactKind): string {
    match k
    case Mail => p.email
    case Phone => p.phone
    case MapPin => p.location
    case Globe => p.website.GetOr([])
  }

  /** The place of each kind on the contact line. */
  function Rank(k: ContactKind): nat {
    match k
    case Mail => 0
    case Phone => 1
    case MapPin => 2
    case Globe => 3
  }

  function ItemIf(k: ContactKind, text: string): seq<ContactItem> {
    if text != [] then [ContactItem(k, text)] else []
  }

  /** The contact line: one item for each of email, phone, location and
      website that is not empty, in that order, each showing its field. */
  function ContactItems(p: Personal): (items: seq<ContactItem>)
    ensures forall i :: 0 <= i < |items| ==>
      items[i].text == ContactField(p, items[i].kind) && items[i].text != []
    ensures forall i, j :: 0 <= i < j < |items| ==> Rank(items[i].kind) < Rank(items[j].kind)
    ensures forall k :: ContactField(p, k) != [] ==> ContactItem(k, ContactField(p, k)) in items
  {
    ItemIf(Mail, p.email) + ItemIf(Phone, p.phone) + ItemIf(MapPin, p.location)
    + ItemIf(Globe, p.website.GetOr([]))
  }

  // ---------------------------------------------------------------------
  // Description bullets

  /** `line.replace(/^- /, '')`: one leading "- " removed, if there is one. */
  function StripBullet(line: string): (bullet: string)
    ensures "- " <= line ==> line == "- " + bullet
    ensures !("- " <= line) ==> bullet == line
  {
    if "- " <= line then line[2..] else line
  }

  /** The bullets under an experience entry: the non-empty lines of its
      description, in order, each without one leading "- ". A line that is
      only "- " is not empty, so it gives an empty bullet. */
  function Bullets(description: string): (bullets: seq<string>)
    ensures |bullets| == |NonEmpty(Split(description, '\n'))|
    ensures forall i :: 0 <= i < |bullets| ==> '\n' !in bullets[i]
    ensures description == [] ==> bullets == []
  {
    var lines := NonEmpty(Split(description, '\n'));
    NonEmptyFrom(Split(description, '\n'));
    seq(|lines|, i requires 0 <= i < |lines| => StripBullet(lines[i]))
  }

  /** There is one bullet per description line that is not empty. */
  lemma BulletCount(description: string)
    ensures var lines := Split(description, '\n');
      |Bullets(description)| == |lines| - multiset(lines)[[]]
  {
  }

  /** A description that is only "- " has one bullet, and it is empty. */
  lemma DashOnlyBullet()
    ensures Bullets("- ") == [[]]
  {
  }

  /** A description written as lines shows one bullet per non-empty line,
      in order, each without one leading "- "; blank lines show nothing. */
  lemma BulletsOfLines(lines: seq<string>)
    requires lines != []
    requires forall i :: 0 <= i < |lines| ==> '\n' !in lines[i]
    ensures |Bullets(Join(lines, "\n"))| == |NonEmpty(lines)|
    ensures forall i :: 0 <= i < |NonEmpty(lines)| ==>
      Bullets(Join(lines, "\n"))[i] == StripBullet(NonEmpty(lines)[i])
  {
    JoinSplit(lines, '\n');
  }

  /** A blank line between two lines shows no bullet of its own. */
  lemma BlankLineBetween(x: string, y: string)
    requires x != [] && y != [] && '\n' !in x && '\n' !in y
    ensures Bullets(Join([x, [], y], "\n")) == [StripBullet(x), StripBullet(y)]
  {
    var lines: seq<string> := [x, [], y];
    BulletsOfLines(lines);
    assert lines == [x, []] + [y];
    NonEmptyConcat([x, []], [y]);
    assert [x, []] == [x] + [[]];
    NonEmptyConcat([x], [[]]);
    assert NonEmpty(lines) == [x, y];
  }

  /** The description made of the lines "- a", "" and "b" shows the bullets
      "a" and "b". */
  lemma BlankLineBullets()
    ensures Bullets(Join(["- a", [], "b"], "\n")) == ["a", "b"]
  {
    BlankLineBetween("- a", "b");
    assert "- " <= "- a" && "- a"[2..] == "a";
  }

  /** A description written as "- item" lines shows exactly those items,
      however many of them are themselves empty. */
  lemma MarkedBullets(items: seq<string>)
    requires items != []
    requires forall i :: 0 <= i < |items| ==> '\n' !in items[i]
    ensures Bullets(Join(seq(|items|, i requires 0 <= i < |items| => "- " + items[i]), "\n")) == items
  {
    var lines := seq(|items|, i requires 0 <= i < |items| => "- " + items[i]);
    forall i | 0 <= i < |lines| ensures lines[i] != [] && '\n' !in lines[i] {
      assert lines[i][0] == '-';
    }
    BulletsOfLines(lines);
    NonEmptyKeepsAll(lines);
    forall i | 0 <= i < |items| ensures StripBullet(lines[i]) == items[i] {
      assert "- " <= lines[i];
    }
  }

  // ---------------------------------------------------------------------
  // Skills and the whole page

  /** `skills.filter(s => s)`: the badges are the non-empty skills, each as
      often as it is listed, in the listed order. */
  function RenderedSkills(skills: seq<string>): (badges: seq<string>)
    ensures forall i :: 0 <= i < |badges| ==> badges[i] != []
    ensures multiset(badges) == multiset(skills)[[] := 0]
  {
    NonEmptyCounts(skills);
    NonEmpty(skills)
  }

  /** Badges for a skill list followed by more skills are the badges of the
      first followed by the badges of the rest: the order is kept. */
  lemma RenderedSkillsOrder(a: seq<string>, b: seq<string>)
    ensures RenderedSkills(a + b) == RenderedSkills(a) + RenderedSkills(b)
  {
    NonEmptyConcat(a, b);
  }

  datatype ExperienceCard = ExperienceCard(
    title: string, dates: string, company: string, location: string, bullets: seq<string>)

  datatype EducationCard = EducationCard(degree: string, dates: string, school: string, location: string)

  /** Everything the preview displays. */
  datatype Page = Page(
    name: string,
    contacts: seq<ContactItem>,
    summary: string,
    experience: seq<ExperienceCard>,
    education: seq<EducationCard>,
    skills: seq<string>)

  /** One experience entry as displayed: every heading field is shown, with
      its placeholder when it is empty. */
  function ExperienceCardOf(e: Experience): (card: ExperienceCard)
    ensures card.title != [] && card.dates != [] && card.company != [] && card.location != []
    ensures e.title != [] ==> card.title == e.title
    ensures e.dates != [] ==> card.dates == e.dates
    ensures e.company != [] ==> card.company == e.company
    ensures e.location != [] ==> card.location == e.location
    ensures e.title == [] ==> card.title == JobTitlePlaceholder
    ensures e.dates == [] ==> card.dates == DateRangePlaceholder
    ensures e.company == [] ==> card.company == CompanyPlaceholder
    ensures e.location == [] ==> card.location == LocationPlaceholder
    ensures card.bullets == Bullets(e.description)
  {
    ExperienceCard(
      OrPlaceholder(e.title, JobTitlePlaceholder),
      OrPlaceholder(e.dates, DateRangePlaceholder),
      OrPlaceholder(e.company, CompanyPlaceholder),
      OrPlaceholder(e.location, LocationPlaceholder),
      Bullets(e.description))
  }

  /** One education entry as displayed. */
  function EducationCardOf(e: Education): (card: EducationCard)
    ensures card.degree != [] && card.dates != [] && card.school != [] && card.location != []
    ensures e.degree != [] ==> card.degree == e.degree
    ensures e.dates != [] ==> card.dates == e.dates
    ensures e.school != [] ==> card.school == e.school
    ensures e.location != [] ==> card.location == e.location
    ensures e.degree == [] ==> card.degree == DegreePlaceholder
    ensures e.dates == [] ==> card.dates == DateRangePlaceholder
    ensures e.school == [] ==> card.school == SchoolPlaceholder
    ensures e.location == [] ==> card.location == LocationPlaceholder
  {
    EducationCard(
      OrPlaceholder(e.degree, DegreePlaceholder),
      OrPlaceholder(e.dates, DateRangePlaceholder),
      OrPlaceholder(e.school, SchoolPlaceholder),
      OrPlaceholder(e.location, LocationPlaceholder))
  }

  /** The preview of a resume's content: every entry shown once, in order,
      and a name and a summary that are never blank on the page. */
  function Preview(c: Content): (page: Page)
    ensures page.name != [] && page.summary != []
    ensures c.personal.name != [] ==> page.name == c.personal.name
    ensures c.summary != [] ==> page.summary == c.summary
    ensures c.personal.name == [] ==> page.name == NamePlaceholder
    ensures c.summary == [] ==> page.summary == SummaryPlaceholder
    ensures page.contacts == ContactItems(c.personal)
    ensures |page.experience| == |c.experience|
    ensures forall i :: 0 <= i < |c.experience| ==> page.experience[i] == ExperienceCardOf(c.experience[i])
    ensures |page.education| == |c.education|
    ensures forall i :: 0 <= i < |c.education| ==> page.education[i] == EducationCardOf(c.education[i])
    ensures page.skills == RenderedSkills(c.skills)
  {
    Page(
      OrPlaceholder(c.personal.name, NamePlaceholder),
      ContactItems(c.personal),
      OrPlaceholder(c.summary, SummaryPlaceholder),
      seq(|c.experience|, i requires 0 <= i < |c.experience| => ExperienceCardOf(c.experience[i])),
      seq(|c.education|, i requires 0 <= i < |c.education| => EducationCardOf(c.education[i])),
      RenderedSkills(c.skills))
  }
}
