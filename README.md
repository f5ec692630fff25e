# Resume document core, modelled in Dafny

A model of the data layer of a resume-building web application. It covers:

- the resume document itself;
- the serialiser that turns a resume into the labelled plain text handed to the language model;
- the form editor's update handlers;
- the dashboard's duplicate and delete requests, its modal/selection state and its `analyze` query parameter;
- the values the preview displays;
- the chat page's send state machine.

Modules:

- `Wrappers`: the `Option` type.
- `Strings`: JavaScript's `trim`, one-character `split`, `join` and `filter(Boolean)` with their algebra.
  - split/join round trips;
  - `trim` on padded strings;
  - the filter keeps order and counts.
- `Sequences`: `filter` by index.
- `ResumeDoc`: the `Resume` record.
- `ResumeText`: `fullResumeText`.
  - The text is specified independently as a list of lines (`ResumeLines`).
  - It is proved equal to those lines joined by newlines.
  - Splitting it at newlines recovers them when no field holds a line break.
- `ResumeForm`: every editor handler is a pure function from the current draft to the next one. The handlers are `setResume(prev => …)` updaters. Each handler is specified by what it changes and by everything it leaves alone.
- `Dashboard`:
  - the store request built by duplicate and delete;
  - lookup by id;
  - a `DashboardState` class for the selection and the two modal flags.
- `ResumePreview`:
  - placeholders;
  - the contact line;
  - description bullets;
  - skill badges;
  - the page as the values it shows.
- `Chatbot`: a `ChatPage` class holding `messages`, `input` and `isLoading`.
  - The invariant `Valid`: user and assistant strictly alternate; loading iff the last message awaits its answer; the input is empty while loading.
  - The send is split at its `await` into `HandleSendMessage` and `ReceiveReply`. `Send` is both halves together.

Inputs taken as parameters:

- the current time (`now`);
- the signed-in user;
- the `analyze` query parameter and the loaded resume list;
- the assistant's outcome (`Replied(text)` or `Failed`).

## Model

| member | source | states |
|---|---|---|
| Strings.Trim | src/components/resume-form.tsx:132 | `trim` leaves no white space at either end; it is empty exactly when the input is all white space, and it is the identity on trimmed strings |
| Strings.TrimSurrounded | src/components/resume-form.tsx:132 | every string is the white space `trim` removes in front, then the trimmed string, then the white space it removes behind |
| Strings.TrimPadded | src/components/resume-form.tsx:132 | trimming white space + trimmed core + white space gives exactly the core |
| Strings.Split | src/components/resume-preview.tsx:96 | `split` on one character gives one more piece than there are separators, and no piece holds the separator |
| Strings.SplitJoin | src/components/resume-preview.tsx:96 | joining the pieces of a split with the separator gives back the string |
| Strings.JoinSplit | src/components/resume-form.tsx:132 | splitting text joined from separator-free pieces gives back exactly those pieces |
| Strings.Join | src/lib/resume-text.ts:6-18 | `join` of no parts is empty; otherwise the text starts with the first part and its length is the parts' total length plus one separator between each two parts |
| Strings.NonEmpty | src/lib/resume-text.ts:16 | `filter(Boolean)` on strings keeps only non-empty strings and is no longer than its input |
| Strings.NonEmptyCounts | src/lib/resume-text.ts:16 | the filter keeps each non-empty string as often as it occurs and drops every empty one |
| Strings.NonEmptyConcat | src/lib/resume-text.ts:16 | the filter works piece by piece, so it preserves order |
| Sequences.WithoutIndex | src/components/resume-form.tsx:38 | `filter((_, i) => i !== index)` has one element fewer, keeps the elements before `index` and shifts the later ones down by one; an out-of-range index (negative or too large) removes nothing |
| ResumeText.FullResumeText | src/lib/resume-text.ts:3-4 | no resume serialises to the empty string |
| ResumeText.ExperienceText | src/lib/resume-text.ts:6 | an empty experience list gives the empty string |
| ResumeText.EducationText | src/lib/resume-text.ts:7 | an empty education list gives the empty string |
| ResumeText.PersonalDetails | src/lib/resume-text.ts:10-16 | the personal block is one labelled line per non-empty field, in the order Name, Email, Phone, Location, Website (an absent website gives no line), joined by single newlines |
| ResumeText.ExperienceEntry | src/lib/resume-text.ts:6 | an experience entry is exactly the lines `Title: t`, `Company: c`, `Location: l`, `Dates: d`, `Description:`, then the description, joined by newlines |
| ResumeText.EducationEntry | src/lib/resume-text.ts:7 | an education entry is exactly `Degree: …`, `School: …`, `Location: …`, `Dates: …` joined by newlines |
| ResumeText.ExperienceTextLines | src/lib/resume-text.ts:6 | the experience section is the entries' lines in list order, one empty line between entries (joined by `\n\n`) |
| ResumeText.EducationTextLines | src/lib/resume-text.ts:7 | the education section is the entries' lines in list order, one empty line between entries |
| ResumeText.FullResumeTextLines | src/lib/resume-text.ts:3-19 | the whole text is `ResumeLines` joined by newlines: personal block, then each of the Summary, Experience, Education and Skills headers after an empty line with its section below it, and the skills joined with `", "` in order |
| ResumeText.ResumeTextSplit | src/lib/resume-text.ts:18 | when no field holds a line break, splitting the text at newlines gives exactly the resume's lines in order |
| ResumeText.HeadersInOrder | src/lib/resume-text.ts:18 | the four headers are lines of every resume's text, in the order Summary, Experience, Education, Skills, whatever is empty |
| ResumeText.EmptyPersonalStart | src/lib/resume-text.ts:10-18 | with every personal field empty or absent, the text starts with `"\n\nSummary:\n"` |
| ResumeText.EmptyResumeLines | src/lib/resume-text.ts:3-19 | the lines of an entirely empty resume: all four headers, each after an empty line, every other line empty |
| ResumeText.ExampleResumeLines | src/lib/resume-text.ts:3-19 | a worked resume with one personal field, one experience entry with an empty location, no education and one skill, line by line |
| ResumeForm.ContentChange | src/components/resume-form.tsx:19-21 | a missing draft stays missing; otherwise the named section takes the new value and id, title, time stamp and every other section are unchanged |
| ResumeForm.TitleChange | src/components/resume-form.tsx:62 | only the title changes; a missing draft stays missing |
| ResumeForm.PersonalSet | src/components/resume-form.tsx:24 | `{ ...personal, [field]: value }` sets that field and leaves every other personal field as it was |
| ResumeForm.PersonalChange | src/components/resume-form.tsx:23-25 | sets exactly that personal field, leaves the other personal fields and the rest of the resume unchanged |
| ResumeForm.PersonalChangeUndo | src/components/resume-form.tsx:23-25 | changing a personal field and then setting it back to its old value restores the draft |
| ResumeForm.ExperienceSet | src/components/resume-form.tsx:29 | `{ ...entry, [field]: value }` on an experience entry sets that field only |
| ResumeForm.ExperienceChange | src/components/resume-form.tsx:27-31 | for an index in range: same list length, the entry at the index has that field set and its other fields kept, every other entry unchanged, nothing outside the experience list changes |
| ResumeForm.AddExperience | src/components/resume-form.tsx:33-35 | the list grows by one; earlier entries are kept; the new entry has all five fields empty |
| ResumeForm.RemoveExperience | src/components/resume-form.tsx:37-39 | the list without position `index`, others in order; an out-of-range index leaves the list unchanged |
| ResumeForm.AddRemoveExperience | src/components/resume-form.tsx:33-39 | adding a blank entry and removing the last position restores the draft |
| ResumeForm.EducationSet | src/components/resume-form.tsx:43 | `{ ...entry, [field]: value }` on an education entry sets that field only |
| ResumeForm.EducationChange | src/components/resume-form.tsx:41-45 | for an index in range: same length, the entry at the index has that field set and its other fields kept, other entries unchanged |
| ResumeForm.AddEducation | src/components/resume-form.tsx:47-49 | the list grows by one; earlier entries are kept; the new entry has all four fields empty |
| ResumeForm.RemoveEducation | src/components/resume-form.tsx:51-53 | the list without position `index`, others in order; an out-of-range index leaves the list unchanged |
| ResumeForm.AddRemoveEducation | src/components/resume-form.tsx:47-53 | adding a blank entry and removing the last position restores the draft |
| ResumeForm.ParseSkills | src/components/resume-form.tsx:132 | `split(',').map(trim)` gives exactly one more skill than the text has commas; every skill is trimmed and comma-free; empty text gives one empty skill |
| ResumeForm.ParseSkillsOfPieces | src/components/resume-form.tsx:132 | text made of comma-free pieces joined by commas parses to exactly those pieces, each trimmed, in order |
| ResumeForm.ParseSkillsPadding | src/components/resume-form.tsx:132 | the parse loses only white space: each skill sits between two commas with only white space around it, so the text is the skills, padded back, joined by commas |
| ResumeForm.ParsePaddedSkills | src/components/resume-form.tsx:132 | conversely, trimmed comma-free skills with any white space around them, joined by commas, parse back to exactly those skills |
| ResumeForm.ExampleSkillsPieces | src/components/resume-form.tsx:132 | `"React, Node.js,  Go".split(',')` is `"React"`, `" Node.js"`, `"  Go"` |
| ResumeForm.ExampleParseSkills | src/components/resume-form.tsx:132 | those pieces parse to `"React"`, `"Node.js"`, `"Go"`: the spaces typed after the commas are dropped |
| ResumeForm.ExampleParseSkillsText | src/components/resume-form.tsx:132 | the text `"React, Node.js,  Go"` itself parses to `"React"`, `"Node.js"`, `"Go"` |
| ResumeForm.SkillsChange | src/components/resume-form.tsx:132 | the skills become the parse of the text; nothing else changes |
| ResumeForm.SkillsDisplay | src/components/resume-form.tsx:132 | `skills.join(', ')` is empty for no skills, otherwise the first skill and then each later skill after a comma and a space: the pieces a comma split will see |
| ResumeForm.DisplayParseRoundTrip | src/components/resume-form.tsx:132 | a non-empty skill list with no commas and no surrounding white space survives display as `join(', ')` followed by the parse |
| ResumeForm.EmptySkillsRoundTrip | src/components/resume-form.tsx:132 | an empty skill list displays as empty text, which parses back to one empty skill, so the round trip needs at least one skill |
| Dashboard.DuplicateOf | src/components/dashboard-client.tsx:96-102 | the duplicate's title is the original title followed by `" (Copy)"`; it has the same content, so the same resume text; it has no id, and its time stamp is the supplied current time |
| Dashboard.HandleDuplicate | src/components/dashboard-client.tsx:94-118 | no signed-in user, no request; otherwise exactly one add of the duplicate to that user's resumes |
| Dashboard.HandleDelete | src/components/dashboard-client.tsx:78-92 | no signed-in user, no request; otherwise exactly one delete of that document of that user's resumes |
| Dashboard.FindById | src/components/dashboard-client.tsx:51 | `find` by id gives the first resume with that id, and none exactly when no resume has it |
| Dashboard.DashboardState.constructor | src/components/dashboard-client.tsx:43-45 | nothing selected, both modals closed |
| Dashboard.DashboardState.OpenMatchModal | src/components/dashboard-client.tsx:68-71 | selects the resume and opens the match modal; the analysis flag is unchanged |
| Dashboard.DashboardState.OpenAnalysisModal | src/components/dashboard-client.tsx:73-76 | selects the resume and opens the analysis modal; the match flag is unchanged |
| Dashboard.DashboardState.SetMatchModalOpen | src/components/dashboard-client.tsx:166 | sets the match flag only |
| Dashboard.DashboardState.SetAnalysisModalOpen | src/components/dashboard-client.tsx:171 | sets the analysis flag only |
| Dashboard.DashboardState.AnalysisText | src/components/dashboard-client.tsx:172 | the analysis modal gets the selected resume's text lines joined by newlines, and the empty string while nothing is selected |
| Dashboard.DashboardState.ApplyAnalyzeParam | src/components/dashboard-client.tsx:48-58 | a non-empty id, a loaded resume list and a matching resume select the first match and open the analysis modal, and the address is replaced; in every other case nothing changes |
| ResumePreview.OrPlaceholder | src/components/resume-preview.tsx:67 | `value \|\| placeholder`: the value when it is non-empty, else the placeholder; never empty when the placeholder is not |
| ResumePreview.ContactItems | src/components/resume-preview.tsx:69-72 | each item shows its own field and is non-empty; items are in the order email, phone, location, website; every non-empty field has its item |
| ResumePreview.StripBullet | src/components/resume-preview.tsx:96 | `replace(/^- /, '')` removes one leading `"- "` if there is one and otherwise leaves the line alone |
| ResumePreview.Bullets | src/components/resume-preview.tsx:96 | one bullet per non-empty description line, none holding a newline; an empty description has no bullets (which bullet each line gives: `BulletsOfLines`) |
| ResumePreview.BulletCount | src/components/resume-preview.tsx:96 | the number of bullets is the number of lines minus the number of empty lines |
| ResumePreview.DashOnlyBullet | src/components/resume-preview.tsx:96 | the line `"- "` passes the emptiness test and yields one empty bullet |
| ResumePreview.BulletsOfLines | src/components/resume-preview.tsx:96 | a description written as lines, blank ones included, shows one bullet per non-empty line, in order, each stripped of one leading `"- "`; blank lines show nothing |
| ResumePreview.BlankLineBetween | src/components/resume-preview.tsx:96 | a blank line between two lines gives no bullet: the bullets are those of the two lines |
| ResumePreview.BlankLineBullets | src/components/resume-preview.tsx:96 | the description written as the lines `"- a"`, `""`, `"b"` shows the bullets `"a"` and `"b"` |
| ResumePreview.MarkedBullets | src/components/resume-preview.tsx:96 | a description of `"- item"` lines shows exactly the items |
| ResumePreview.RenderedSkills | src/components/resume-preview.tsx:124 | the badges are the non-empty skills, each as often as it is listed |
| ResumePreview.RenderedSkillsOrder | src/components/resume-preview.tsx:124 | the badges keep the listed order |
| ResumePreview.ExperienceCardOf | src/components/resume-preview.tsx:88-96 | title, dates, company and location show their value when non-empty, else `Job Title`, `Date Range`, `Company Name`, `Location`; the bullets are the description's bullets |
| ResumePreview.EducationCardOf | src/components/resume-preview.tsx:109-114 | degree, dates, school and location show their value when non-empty, else `Degree`, `Date Range`, `School Name`, `Location`; none is ever blank |
| ResumePreview.Preview | src/components/resume-preview.tsx:67-124 | the name shows `Your Name` and the summary the fixed summary prompt when empty, and their value otherwise; the contact line is `ContactItems`; every experience and education entry is rendered once, in list order; the skills are the rendered badges |
| Chatbot.IsBlank | src/app/chatbot/page.tsx:17 | `!input.trim()` holds exactly when the input is all white space |
| Chatbot.ReplyText | src/app/chatbot/page.tsx:27-33 | the assistant's message is the response on success and the fixed apology on failure |
| Chatbot.ChatPage.constructor | src/app/chatbot/page.tsx:12-14 | no messages, empty input, not loading |
| Chatbot.ChatPage.OnInputChange | src/app/chatbot/page.tsx:105-107 | typing sets the input unless loading (the box is disabled); history and loading unchanged |
| Chatbot.ChatPage.HandleSendMessage | src/app/chatbot/page.tsx:16-23 | blank input changes nothing (so neither does a send while one is pending); otherwise the untrimmed input is appended as a `user` message, the input is cleared, loading starts, and the history handed to the assistant is the old messages followed by the new user message |
| Chatbot.ChatPage.ReceiveReply | src/app/chatbot/page.tsx:25-38 | exactly one `model` message with the response or the apology is appended, and loading ends |
| Chatbot.ChatPage.Send | src/app/chatbot/page.tsx:16-39 | blank input changes nothing; otherwise the history grows by exactly two (the user message, then the assistant's message), earlier messages are an unchanged prefix, the input is empty and loading is over |
| Chatbot.ChatPage.Submit | src/app/chatbot/page.tsx:106-109 | Enter or the send button does nothing while loading; otherwise it starts a send |
| Chatbot.HistoryEndsWithUser | src/app/chatbot/page.tsx:20 | after complete exchanges, the history handed to the assistant alternates user/assistant and ends with the user's message |

## Left out

- Database I/O is not modelled. This covers `addDoc`, `deleteDoc`, the live `useCollection` query, toasts and the permission-error emission. The model stops at the request value the handler builds (`Dashboard.StoreRequest`).
- Authentication, the login redirect and the loading spinner are not modelled. The signed-in user enters as an `Option` parameter.
- The calls to the language model are foreign calls: the chatbot flow, analysis, matching, rewriting and parsing. Only their outcome enters, as a parameter. The match score is therefore not modelled at all.
- PDF text extraction, the import page, the two modals' internals and the pure presentation components (header, cards, landing and contact pages) hold no core logic and are not part of this model.
- The clock is not modelled. `new Date().toISOString()` is the `now` parameter, an opaque string.
- Navigation is not modelled. `router.replace('/dashboard')` is only the Boolean result of `ApplyAnalyzeParam`.
- React's state mechanics are not modelled: batching, re-rendering and the stale closures of the handlers that read the `resume` prop rather than `prev`. The model applies every handler to the current draft, which is what happens when updates are not batched.
- White space for `trim` is the ASCII set (space, tab, line feed, carriage return, vertical tab, form feed). Unicode white space and line terminators beyond these are not modelled.
- Fields missing at run time (`undefined`) are not modelled. The only exception is the website, which the parsed resume shape marks optional. Every other field is a string, as the `Resume` type declares.
- ResumeForm.ExperienceChange: requires the index to be within the list, as the form only offers existing entries. Assigning past the end of a JavaScript array is not modelled.
- ResumeForm.EducationChange: requires the index to be within the list, for the same reason.
- ResumeText.ExampleResumeLines: the worked examples are stated on the resume's lines and not on the full joined string. The full text follows from them through `FullResumeTextLines`.
- Chatbot.ChatPage.ReceiveReply: appends to the current messages. The source appends to the history captured when the send began. The two are the same because nothing else changes the messages while loading: the input is disabled and `Valid` forces a blank input.
- The order in which the page renders markup, its styles and icons are not modelled. The preview is the values it displays.
