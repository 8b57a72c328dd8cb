/** The session record (`st.session_state`) the wizard works on, with the
    wizard step as a datatype instead of the raw integers 0, 1, 4, 5, 6, 7. */
module State {
  import opened Wrappers
  import opened Artifacts
  import opened Parsers

  /** The wizard screens: name entry (0), syllabus input (1), dashboard (4),
      roadmap view (5), mock-exam card runner (6) and completion (7). */
  datatype Step = Entry | SyllabusInput | Dashboard | RoadmapResult | MockRunner | MockComplete

  /** The integer the application stores for a step. */
  function StepNumber(s: Step): int {
    match s
    case Entry => 0
    case SyllabusInput => 1
    case Dashboard => 4
    case RoadmapResult => 5
    case MockRunner => 6
    case MockComplete => 7
  }

  /** The step an integer denotes, if any. */
  function StepOf(n: int): (r: Option<Step>)
    ensures r.Some? <==> n in {0, 1, 4, 5, 6, 7}
  {
    if n == 0 then Some(Entry)
    else if n == 1 then Some(SyllabusInput)
    else if n == 4 then Some(Dashboard)
    else if n == 5 then Some(RoadmapResult)
    else if n == 6 then Some(MockRunner)
    else if n == 7 then Some(MockComplete)
    else None
  }

  /** Step numbers and steps are in one-to-one correspondence. */
  lemma StepNumbering(s: Step, n: int)
    ensures StepOf(StepNumber(s)) == Some(s)
    ensures StepOf(n) == Some(s) ==> StepNumber(s) == n
  {
  }

  /** The sidebar test `step >= 1` (app.py:359) holds on every screen but name entry. */
  lemma SidebarShownPastEntry(s: Step)
    ensures StepNumber(s) >= 1 <==> s != Entry
  {
  }

  /** `st.session_state.roadmap`: absent (it has no default, app.py:118-127),
      None after a failed model call (app.py:733), or a text. */
  datatype Roadmap = NotSet | Failed | Generated(text: string)

  /** The session keys the core reads and writes. */
  datatype SessionState = SessionState(
    step: Step,
    userName: string,
    syllabusFiles: Store,
    pyqFiles: Store,
    mockJson: seq<Card>,
    qIndex: int,
    roadmap: Roadmap,
    forceRoadmap: bool,
    apiKey: string,
    showApiModal: bool,
    apiError: bool)

  /** Both artifact stores are dicts. */
  predicate WellFormed(s: SessionState) {
    UniqueKeys(s.syllabusFiles) && UniqueKeys(s.pyqFiles)
  }

  /** The defaults block (app.py:118-127) applied to an empty session. */
  const Defaults: SessionState :=
    SessionState(Entry, "", [], [], [], 0, NotSet, false, "", false, false)
}
