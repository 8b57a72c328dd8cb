/** One run of the script: the session is reloaded, the credential modal
    is checked first, then the sidebar (on every screen but name entry),
    then the current wizard screen; a button click is an event. Each
    handler is a function from the session and the files on disk to their
    new values; `st.rerun()` and `st.stop()` end the run with that value. */
module Wizard {
  import opened Wrappers
  import opened Text
  import opened Artifacts
  import opened Extraction
  import opened Gateway
  import opened Parsers
  import opened History
  import opened State
  import opened Persistence

  /** What is on disk: the session snapshot and the strategy history log. */
  datatype Stored = Stored(snapshot: SnapshotFile, history: HistoryFile)

  /** The session together with the disk. */
  datatype App = App(session: SessionState, stored: Stored)

  /** The external collaborators of a run: PDF reader, OCR, the model, the
      JSON decoder for decks, the environment key and the formatted clock. */
  datatype World = World(pdf: PdfReader, ocr: ImageReader, llm: Model, decode: DeckDecoder,
                         env: Option<string>, now: string)

  /** What the user did in the run. */
  datatype Event =
    | Idle
    | NameSubmitted(name: string)
    | ConfirmClicked(files: seq<UploadedFile>, pasted: string)
    | NewSessionClicked
    | SidebarFilesUploaded(sidebarFiles: seq<UploadedFile>)
    | SaveClicked(artifact: string, text: string)
    | DeleteClicked(victim: string)
    | ResetClicked
    | HistoryClicked(index: nat)
    | KeyButtonClicked
    | PyqFilesUploaded(pyqUploads: seq<UploadedFile>)
    | AnalysisClicked(days: nat, hours: nat)
    | MockExamClicked
    | BackClicked
    | ExitClicked
    | PreviousClicked
    | NextClicked
    | FinishClicked
    | ReturnClicked
    | CancelClicked
    | SaveKeyClicked(key: string)

  /** Messages a run leaves on the screen. */
  datatype Notice = Quiet | NeedContent | NeedPyqs | FormatError | Glitch | DeckCorrupted | IndexOutOfRange

  datatype Outcome = Outcome(app: App, notice: Notice)

  /** `save_state()` after the session has become `s`: the snapshot is
      replaced, the history log is untouched. */
  function Saved(s: SessionState, st: Stored): (r: App)
    ensures r.session == s && r.stored.history == st.history && r.stored.snapshot.Snapshot?
  {
    App(s, st.(snapshot := Snapshot(SaveState(s))))
  }

  /** Questions in a full deck; navigation hard-codes the last index 19 (app.py:952). */
  const DeckSize: int := 20

  /** A snapshot the next session can start from, with the cursor in range. */
  predicate SnapshotOk(f: SnapshotFile) {
    WellFormedFile(f) && (f.Snapshot? && QIndexKey in f.fields ==> 0 <= f.fields[QIndexKey].i < DeckSize)
  }

  /** What every run keeps: dict stores, the cursor within 0..19, a restorable snapshot. */
  predicate Inv(a: App) {
    WellFormed(a.session) && 0 <= a.session.qIndex < DeckSize && SnapshotOk(a.stored.snapshot)
  }

  /** Saving a session that keeps the invariant leaves a good snapshot. */
  lemma SavedOk(s: SessionState, st: Stored)
    requires WellFormed(s) && 0 <= s.qIndex < DeckSize
    ensures Inv(Saved(s, st))
  {
    SaveStateWellTyped(s);
  }

  // ---------------------------------------------------------------------------
  // The credential modal (app.py:317-353)

  /** While the modal is open only Cancel and Save act; Save needs a non-empty
      key. Only the key and the two modal flags can change, the key only to
      the non-empty text saved, and the modal closes only on those two
      buttons; the history log is never touched. */
  function Modal(s: SessionState, st: Stored, e: Event): (r: App)
    ensures r.stored.history == st.history
    ensures r.session == s.(apiKey := r.session.apiKey, showApiModal := r.session.showApiModal,
                            apiError := r.session.apiError)
    ensures r.session.apiKey != s.apiKey ==> e.SaveKeyClicked? && e.key != "" && r.session.apiKey == e.key
    ensures r.session != s ==> e == CancelClicked || (e.SaveKeyClicked? && e.key != "")
    ensures r.session != s ==> !r.session.showApiModal && !r.session.apiError
  {
    match e
    case CancelClicked => App(s.(showApiModal := false, apiError := false), st)
    case SaveKeyClicked(key) =>
      if key != "" then
        var s1 := s.(apiKey := key);
        App(s1.(showApiModal := false, apiError := false), st.(snapshot := Snapshot(SaveState(s1))))
      else App(s, st)
    case _ => App(s, st)
  }

  // ---------------------------------------------------------------------------
  // Sidebar (app.py:359-448)

  /** "New Session" and "↻ New": a fresh syllabus step with empty artifacts
      (app.py:362-368, 599-606). */
  function StartNewSession(s: SessionState, st: Stored): (r: App) {
    Saved(s.(step := SyllabusInput, syllabusFiles := [], pyqFiles := [], roadmap := Generated(""), mockJson := []), st)
  }

  /** The sidebar control that fired, or None when the click reaches the screen. */
  function Sidebar(s: SessionState, st: Stored, e: Event, w: World): (r: Option<App>)
    requires WellFormed(s)
    ensures s.step == Entry ==> r.None?
    ensures r.Some? ==> r.value.stored.history == st.history
  {
    if s.step == Entry then None
    else
      match e
      case NewSessionClicked => Some(StartNewSession(s, st))
      case SidebarFilesUploaded(files) =>
        var r := AddUploads(s.syllabusFiles, files, SidebarReader(w.pdf, w.ocr));
        if |r| > |s.syllabusFiles| then Some(Saved(s.(syllabusFiles := r), st)) else None
      case SaveClicked(name, text) =>
        if name in Keys(s.syllabusFiles) then Some(Saved(s.(syllabusFiles := Put(s.syllabusFiles, name, text)), st))
        else None
      case DeleteClicked(name) =>
        if name in Keys(s.syllabusFiles) then Some(Saved(s.(syllabusFiles := Remove(s.syllabusFiles, name)), st))
        else None
      case ResetClicked => Some(App(Startup(NoSnapshot), st.(snapshot := NoSnapshot)))
      case HistoryClicked(i) =>
        var h := LoadHistory(st.history);
        if i < |h| then Some(Saved(s.(roadmap := Generated(h[i].roadmap), step := RoadmapResult), st)) else None
      case _ => None
  }

  // ---------------------------------------------------------------------------
  // Screens

  /** Step 0 (app.py:466-473): a non-empty name is upper-cased and saved. */
  function EnterName(s: SessionState, st: Stored, name: string): (r: App) {
    if name != "" then Saved(s.(userName := Upper(name), step := SyllabusInput), st) else App(s, st)
  }

  /** The syllabus store after a confirm: `update` with the "PDFs" and
      "Images" texts of this upload, then the pasted text under "Manual Entry"
      unless it is blank (app.py:524-547). */
  function ConfirmedStore(store: Store, files: seq<UploadedFile>, pasted: string, w: World): (r: Store)
    requires UniqueKeys(store)
    ensures UniqueKeys(r) && |r| >= |store|
  {
    var pdfs := OfType(files, [PdfMime]);
    var images := OfType(files, ConfirmImageMimes);
    var s1 := if pdfs != [] then Put(store, "PDFs", PdfText(pdfs, w.pdf)) else store;
    assert |s1| >= |store|;
    var s2 := if images != [] then Put(s1, "Images", ImageText(images, w.ocr)) else s1;
    assert |s2| >= |s1|;
    if Strip(pasted) != "" then Put(s2, "Manual Entry", pasted) else s2
  }

  /** Step 1 confirm (app.py:542-555): on to the dashboard once there is any syllabus. */
  function Confirm(s: SessionState, st: Stored, files: seq<UploadedFile>, pasted: string, w: World): (o: Outcome)
    requires WellFormed(s)
  {
    var store := ConfirmedStore(s.syllabusFiles, files, pasted, w);
    if store != [] then Outcome(Saved(s.(syllabusFiles := store, step := Dashboard), st), Quiet)
    else Outcome(App(s.(syllabusFiles := store), st), NeedContent)
  }

  /** Dashboard PYQ upload (app.py:671-680): new names only, saved when any was added. */
  function UploadPyqs(s: SessionState, st: Stored, files: seq<UploadedFile>, w: World): (r: App)
    requires WellFormed(s)
  {
    var r := AddUploads(s.pyqFiles, files, PyqReader(w.pdf));
    if |r| > |s.pyqFiles| then Saved(s.(pyqFiles := r), st) else App(s, st)
  }

  /** Roadmap generation (app.py:695-749). A failed call leaves the roadmap
      None and opens the modal; an empty reply is kept and nothing else
      happens; any other reply is cleaned, logged in the history and shown. */
  function Generate(s: SessionState, st: Stored, days: nat, hours: nat, w: World): (r: App) {
    var reply := w.llm(EffectiveKey(None, s.apiKey, w.env), RoadmapRequest(s.syllabusFiles, s.pyqFiles, days, hours));
    match reply
    case None => App(s.(roadmap := Failed, showApiModal := true, apiError := true), st)
    case Some(raw) =>
      if raw == "" then App(s.(roadmap := Generated("")), st)
      else
        var text := StripFences(raw);
        var s1 := s.(roadmap := Generated(text), step := RoadmapResult);
        App(s1, Stored(Snapshot(SaveState(s1)), SaveHistory(st.history, text, days, hours, w.now)))
  }

  /** Mock exam (app.py:754-795): PYQs are required; the deck is committed,
      with the cursor at 0, only when the reply holds a decodable array. The
      `st.rerun()` after the commit (app.py:789) raises inside the `try`
      whose bare `except:` (app.py:792) catches it, so the run goes on and
      shows the glitch message over the committed deck. */
  function StartMock(s: SessionState, st: Stored, w: World): (o: Outcome) {
    if s.pyqFiles == [] then Outcome(App(s, st), NeedPyqs)
    else
      match w.llm(EffectiveKey(None, s.apiKey, w.env), MockExamRequest(s.pyqFiles))
      case None => Outcome(App(s.(showApiModal := true, apiError := true), st), Quiet)
      case Some(raw) =>
        if raw == "" then Outcome(App(s, st), Quiet)
        else
          match ParseDeck(raw, w.decode)
          case NoArray => Outcome(App(s, st), FormatError)
          case DecodeError => Outcome(App(s, st), Glitch)
          case Deck(cards) => Outcome(Saved(s.(mockJson := cards, qIndex := 0, step := MockRunner), st), Glitch)
  }

  /** `seq[i]` succeeds in Python for -len <= i < len. */
  predicate PyIndexOk(n: int, i: int) {
    -n <= i < n
  }

  /** The card runner (app.py:903-961): Exit first, then the empty-deck
      return, then the card lookup, then the navigation buttons. */
  function Runner(s: SessionState, st: Stored, e: Event): (o: Outcome) {
    if e == ExitClicked then Outcome(Saved(s.(step := Dashboard), st), Quiet)
    else if s.mockJson == [] then Outcome(App(s.(step := Dashboard), st), DeckCorrupted)
    else if !PyIndexOk(|s.mockJson|, s.qIndex) then Outcome(App(s, st), IndexOutOfRange)
    else if e == PreviousClicked && s.qIndex > 0 then Outcome(App(s.(qIndex := s.qIndex - 1), st), Quiet)
    else if e == NextClicked && s.qIndex < DeckSize - 1 then Outcome(App(s.(qIndex := s.qIndex + 1), st), Quiet)
    else if e == FinishClicked && s.qIndex >= DeckSize - 1 then Outcome(Saved(s.(step := MockComplete), st), Quiet)
    else Outcome(App(s, st), Quiet)
  }

  /** The screen for the current step. */
  function Screen(s: SessionState, st: Stored, e: Event, w: World): (o: Outcome)
    requires WellFormed(s)
  {
    match s.step
    case Entry =>
      if e.NameSubmitted? then Outcome(EnterName(s, st, e.name), Quiet) else Outcome(App(s, st), Quiet)
    case SyllabusInput =>
      if e.ConfirmClicked? then Confirm(s, st, e.files, e.pasted, w) else Outcome(App(s, st), Quiet)
    case Dashboard =>
      (match e
       case KeyButtonClicked => Outcome(App(s.(showApiModal := true), st), Quiet)
       case PyqFilesUploaded(files) => Outcome(UploadPyqs(s, st, files, w), Quiet)
       case AnalysisClicked(days, hours) => Outcome(Generate(s, st, days, hours, w), Quiet)
       case MockExamClicked => StartMock(s, st, w)
       case _ => Outcome(App(s, st), Quiet))
    case RoadmapResult =>
      if e == BackClicked then Outcome(Saved(s.(step := Dashboard), st), Quiet) else Outcome(App(s, st), Quiet)
    case MockRunner => Runner(s, st, e)
    case MockComplete =>
      if e == ReturnClicked then Outcome(Saved(s.(step := Dashboard), st), Quiet) else Outcome(App(s, st), Quiet)
  }

  /** One run of the script. */
  function Run(a: App, e: Event, w: World): (o: Outcome)
    requires Inv(a)
  {
    ReloadOnlyRoadmap(a.session, a.stored.snapshot);
    var s := Reload(a.session, a.stored.snapshot);
    if s.showApiModal then Outcome(Modal(s, a.stored, e), Quiet)
    else
      match Sidebar(s, a.stored, e, w)
      case Some(b) => Outcome(b, Quiet)
      case None => Screen(s, a.stored, e, w)
  }
}
