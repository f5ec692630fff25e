/** The resume document: the `Resume` record of the dashboard and the shape
    the resume parser produces. Every scalar is a string; the website is the
    one field the parsed shape marks optional, and the id is absent on drafts
    and on duplicates that are about to be stored. */
module ResumeDoc {
  import opened Wrappers

  datatype Personal = Personal(
    name: string,
    email: string,
    phone: string,
    location: string,
    website: Option<string>)

  datatype Experience = Experience(
    title: string,
    company: string,
    location: string,
    dates: string,
    description: string)

  datatype Education = Education(
    degree: string,
    school: string,
    location: string,
    dates: string)

  datatype Content = Content(
    personal: Personal,
    summary: string,
    experience: seq<Experience>,
    education: seq<Education>,
    skills: seq<string>)

  /** `updatedAt` is an ISO 8601 time stamp, kept as an opaque string. */
  datatype Resume = Resume(
    id: Option<string>,
    title: string,
    updatedAt: string,
    content: Content)
}
