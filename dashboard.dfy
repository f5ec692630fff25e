/** The dashboard: duplicating and deleting resumes (the data handed to the
    document store), the two modals' selection state, and opening the
    analysis modal from the `analyze` query parameter. */
module Dashboard {
  import opened Wrappers
  import opened Strings
  import opened ResumeDoc
  import opened ResumeText

  /** A write the dashboard hands to the document store, for the collection
      of the signed-in user `uid`. */
  datatype StoreRequest =
    | AddDoc(uid: string, data: Resume)
    | DeleteDoc(uid: string, docId: string)

  const CopySuffix := " (Copy)"

  /** The record `handleDuplicateResume` stores: the original with
      " (Copy)" after its title, `now` as its time stamp, and no id. */
  function DuplicateOf(r: Resume, now: string): (d: Resume)
    ensures d.title == r.title + CopySuffix
    ensures r.title < d.title
    ensures d.content == r.content
    ensures d.id.None? && d.updatedAt == now
    ensures FullResumeText(Some(d)) == FullResumeText(Some(r))
  {
    r.(id := None, title := r.title + CopySuffix, updatedAt := now)
  }

  /** `handleDuplicateResume`: nothing without a signed-in user, otherwise
      one write that adds the duplicate to that user's resumes. */
  function HandleDuplicate(user: Option<string>, r: Resume, now: string): (req: Option<StoreRequest>)
    ensures req.None? <==> user.None?
    ensures req.Some? ==> req.value == AddDoc(user.value, DuplicateOf(r, now))
  {
    match user
    case None => None
    case Some(uid) => Some(AddDoc(uid, DuplicateOf(r, now)))
  }

  /** `handleDeleteResume`: nothing without a signed-in user, otherwise one
      write that deletes document `id` of that user's resumes. */
  function HandleDelete(user: Option<string>, id: string): (req: Option<StoreRequest>)
    ensures req.None? <==> user.None?
    ensures req.Some? ==> req.value.DeleteDoc? && req.value.uid == user.value && req.value.docId == id
  {
    match user
    case None => None
    case Some(uid) => Some(DeleteDoc(uid, id))
  }

  /** `resumes.find(r => r.id === id)`, as a position: the first resume
      with that id, or none when no resume has it. */
  function FindById(resumes: seq<Resume>, id: string): (k: Option<nat>)
    ensures k.Some? ==> k.value < |resumes| && resumes[k.value].id == Some(id)
    ensures k.Some? ==> forall j :: 0 <= j < k.value ==> resumes[j].id != Some(id)
    ensures k.None? <==> forall j :: 0 <= j < |resumes| ==> resumes[j].id != Some(id)
  {
    if resumes == [] then None
    else if resumes[0].id == Some(id) then Some(0)
    else match FindById(resumes[1..], id)
      case None => None
      case Some(k) => Some(k + 1)
  }

  /** The dashboard's selection and modal state. */
  class DashboardState {
    var selectedResume: Option<Resume>
    var isMatchModalOpen: bool
    var isAnalysisModalOpen: bool

    /** Nothing selected and both modals closed. */
    constructor()
      ensures selectedResume.None? && !isMatchModalOpen && !isAnalysisModalOpen
    {
      selectedResume := None;
      isMatchModalOpen := false;
      isAnalysisModalOpen := false;
    }

    /** The text the analysis modal is given: the selected resume as plain
        text, empty while nothing is selected. */
    function AnalysisText(): (text: string)
      reads this
      ensures selectedResume.None? ==> text == []
      ensures selectedResume.Some? ==> text == Join(ResumeLines(selectedResume.value.content), "\n")
    {
      match selectedResume
      case None => FullResumeText(None)
      case Some(r) => FullResumeTextLines(r); FullResumeText(Some(r))
    }

    /** `handleOpenMatchModal(resume)`. */
    method OpenMatchModal(r: Resume)
      modifies this
      ensures selectedResume == Some(r) && isMatchModalOpen
      ensures isAnalysisModalOpen == old(isAnalysisModalOpen)
    {
      selectedResume := Some(r);
      isMatchModalOpen := true;
    }

    /** `handleOpenAnalysisModal(resume)`. */
    method OpenAnalysisModal(r: Resume)
      modifies this
      ensures selectedResume == Some(r) && isAnalysisModalOpen
      ensures isMatchModalOpen == old(isMatchModalOpen)
    {
      selectedResume := Some(r);
      isAnalysisModalOpen := true;
    }

    /** The match modal's `onOpenChange`: sets its flag, keeps the selection. */
    method SetMatchModalOpen(open: bool)
      modifies this
      ensures isMatchModalOpen == open
      ensures selectedResume == old(selectedResume) && isAnalysisModalOpen == old(isAnalysisModalOpen)
    {
      isMatchModalOpen := open;
    }

    /** The analysis modal's `onOpenChange`: sets its flag, keeps the selection. */
    method SetAnalysisModalOpen(open: bool)
      modifies this
      ensures isAnalysisModalOpen == open
      ensures selectedResume == old(selectedResume) && isMatchModalOpen == old(isMatchModalOpen)
    {
      isAnalysisModalOpen := open;
    }

    /** The effect that reads the `analyze` query parameter: when it is a
        non-empty id, the resumes have loaded and one of them has that id,
        the first such resume is opened in the analysis modal and the
        result asks for the address to be replaced by the bare dashboard
        address; otherwise nothing changes. */
    method ApplyAnalyzeParam(analyzeId: Option<string>, resumes: Option<seq<Resume>>)
      returns (replaceUrl: bool)
      modifies this
      ensures replaceUrl <==>
        analyzeId.Some? && analyzeId.value != [] && resumes.Some?
        && FindById(resumes.value, analyzeId.value).Some?
      ensures replaceUrl ==>
        && selectedResume == Some(resumes.value[FindById(resumes.value, analyzeId.value).value])
        && selectedResume.value.id == analyzeId
        && isAnalysisModalOpen
        && isMatchModalOpen == old(isMatchModalOpen)
      ensures !replaceUrl ==> unchanged(this)
    {
      replaceUrl := false;
      if analyzeId.Some? && analyzeId.value != [] && resumes.Some? {
        var found := FindById(resumes.value, analyzeId.value);
        if found.Some? {
          OpenAnalysisModal(resumes.value[found.value]);
          replaceUrl := true;
        }
      }
    }
  }
}
