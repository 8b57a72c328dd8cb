/** The running application: `st.session_state` as an object whose fields
    the handlers update in place, and the working directory holding the
    snapshot and the history log. Every method is proved to do what the
    corresponding wizard function says. */
module Runtime {
  import opened Wrappers
  import opened Text
  import opened Artifacts
  import opened Extraction
  import opened Gateway
  import opened Parsers
  import opened History
  import opened State
  import opened Persistence
  import opened Wizard
  import opened WizardProperties

  /** The two files the application keeps in its working directory. */
  class Disk {
    var snapshot: SnapshotFile
    var history: HistoryFile

    constructor (snapshot: SnapshotFile, history: HistoryFile)
      ensures this.snapshot == snapshot && this.history == history
    {
      this.snapshot := snapshot;
      this.history := history;
    }

    /** `save_state()`: the snapshot file is rewritten. */
    method SaveState(s: SessionState)
      modifies this
      ensures snapshot == Snapshot(Persistence.SaveState(s)) && history == old(history)
    {
      snapshot := Snapshot(Persistence.SaveState(s));
    }

    /** `save_strategy_history`: read the log, insert the entry at 0, write it back. */
    method SaveStrategyHistory(roadmap: string, days: nat, hours: nat, now: string)
      modifies this
      ensures history == SaveHistory(old(history), roadmap, days, hours, now) && snapshot == old(snapshot)
    {
      var entry := HistoryEntry(now, roadmap, Summary(days, hours));
      var data := LoadHistory(history);
      data := [entry] + data;
      history := HistoryLog(data);
    }

    /** `os.remove(".zenflow_state.json")` when it exists. */
    method RemoveSnapshot()
      modifies this
      ensures snapshot == NoSnapshot && history == old(history)
    {
      snapshot := NoSnapshot;
    }
  }

  /** `st.session_state`. */
  class Session {
    var step: Step
    var userName: string
    var syllabusFiles: Store
    var pyqFiles: Store
    var mockJson: seq<Card>
    var qIndex: int
    var roadmap: Roadmap
    var forceRoadmap: bool
    var apiKey: string
    var showApiModal: bool
    var apiError: bool
    const disk: Disk

    /** The fields as a session record. */
    function Current(): SessionState
      reads this
    {
      SessionState(step, userName, syllabusFiles, pyqFiles, mockJson, qIndex, roadmap, forceRoadmap, apiKey,
                   showApiModal, apiError)
    }

    /** The files as a value. */
    function OnDisk(): Stored
      reads disk
    {
      Stored(disk.snapshot, disk.history)
    }

    function AppState(): App
      reads this, disk
    {
      App(Current(), OnDisk())
    }

    /** The invariant every run keeps. */
    predicate Valid()
      reads this, disk
    {
      Inv(AppState())
    }

    /** Overwrite every field with `s`. */
    method Assign(s: SessionState)
      modifies this
      ensures Current() == s
    {
      step, userName, syllabusFiles, pyqFiles := s.step, s.userName, s.syllabusFiles, s.pyqFiles;
      mockJson, qIndex, roadmap, forceRoadmap := s.mockJson, s.qIndex, s.roadmap, s.forceRoadmap;
      apiKey, showApiModal, apiError := s.apiKey, s.showApiModal, s.apiError;
    }

    /** A new browser session: `load_state` into the empty session, then the
        defaults for every key still missing (app.py:117-127). */
    constructor Start(d: Disk)
      requires SnapshotOk(d.snapshot)
      ensures disk == d && Current() == Startup(d.snapshot) && Valid()
    {
      var f := LoadState(map[], d.snapshot);
      assert WellTyped(f) by {
        if d.snapshot.Snapshot? {
          FillAbsentWellTyped(map[], d.snapshot.fields);
        }
      }
      var s := FromFields(f);
      disk := d;
      step, userName, syllabusFiles, pyqFiles := s.step, s.userName, s.syllabusFiles, s.pyqFiles;
      mockJson, qIndex, roadmap, forceRoadmap := s.mockJson, s.qIndex, s.roadmap, s.forceRoadmap;
      apiKey, showApiModal, apiError := s.apiKey, s.showApiModal, s.apiError;
    }

    /** The `load_state()` call at the top of every rerun (app.py:117): only
        keys the session lacks are taken from the snapshot. */
    method Reload()
      requires Valid()
      modifies this
      ensures Current() == Persistence.Reload(old(Current()), disk.snapshot) && Valid()
    {
      var s := Current();
      FieldsRoundTrip(s);
      LoadIntoWellTyped(ToFields(s), disk.snapshot, s);
      ReloadOnlyRoadmap(s, disk.snapshot);
      var f := LoadState(ToFields(s), disk.snapshot);
      roadmap := FromFields(f).roadmap;
    }

    method Save()
      modifies disk
      ensures AppState() == Saved(Current(), old(OnDisk()))
    {
      disk.SaveState(Current());
    }

    // -------------------------------------------------------------------------
    // Modal and gateway

    /** Cancel and Save in the credential modal (app.py:337-350). */
    method Modal(e: Event)
      modifies this, disk
      ensures AppState() == Wizard.Modal(old(Current()), old(OnDisk()), e)
    {
      if e.CancelClicked? {
        CloseModal();
      } else if e.SaveKeyClicked? && e.key != "" {
        apiKey := e.key;
        assert Current() == old(Current()).(apiKey := e.key);
        Save();
        CloseModal();
      }
    }

    /** Both modal buttons end by hiding the modal and clearing the error flag. */
    method CloseModal()
      modifies this
      ensures Current() == old(Current()).(showApiModal := false, apiError := false)
    {
      showApiModal := false;
      apiError := false;
    }

    /** `get_gemini_response`: a failed call opens the modal with the error flag. */
    method GetGeminiResponse(prompt: Prompt, w: World) returns (reply: Option<string>)
      modifies this
      ensures reply == w.llm(EffectiveKey(None, old(apiKey), w.env), prompt)
      ensures reply.None? ==> Current() == old(Current()).(showApiModal := true, apiError := true)
      ensures reply.Some? ==> Current() == old(Current())
    {
      var key := EffectiveKey(None, apiKey, w.env);
      reply := w.llm(key, prompt);
      if reply.None? {
        showApiModal := true;
        apiError := true;
      }
    }

    // -------------------------------------------------------------------------
    // Sidebar

    method StartNewSession()
      modifies this, disk
      ensures AppState() == Wizard.StartNewSession(old(Current()), old(OnDisk()))
    {
      step := SyllabusInput;
      syllabusFiles := [];
      pyqFiles := [];
      roadmap := Generated("");
      mockJson := [];
      assert Current() == old(Current()).(step := SyllabusInput, syllabusFiles := [], pyqFiles := [],
                                          roadmap := Generated(""), mockJson := []);
      Save();
    }

    /** One file of the sidebar loop (app.py:385-392): a new PDF or image
        is read and stored under its name. */
    method AddSidebarFile(f: UploadedFile, w: World) returns (added: bool)
      requires UniqueKeys(syllabusFiles)
      modifies this
      ensures syllabusFiles == AddUpload(old(syllabusFiles), f, SidebarReader(w.pdf, w.ocr))
      ensures added ==> |syllabusFiles| == |old(syllabusFiles)| + 1
      ensures !added ==> syllabusFiles == old(syllabusFiles)
      ensures Current() == old(Current()).(syllabusFiles := syllabusFiles)
    {
      added := false;
      if f.name !in Keys(syllabusFiles) {
        if f.mime == PdfMime {
          var text := ExtractText([f], w.pdf);
          syllabusFiles := Put(syllabusFiles, f.name, text);
          added := true;
        } else if f.mime in SidebarImageMimes {
          var text := ExtractTextFromImages([f], w.ocr);
          syllabusFiles := Put(syllabusFiles, f.name, text);
          added := true;
        }
      }
    }

    /** The sidebar upload loop (app.py:382-400). */
    method AddSidebarUploads(files: seq<UploadedFile>, w: World) returns (updated: bool)
      requires UniqueKeys(syllabusFiles)
      modifies this
      ensures syllabusFiles == AddUploads(old(syllabusFiles), files, SidebarReader(w.pdf, w.ocr))
      ensures updated <==> |syllabusFiles| > |old(syllabusFiles)|
      ensures !updated ==> syllabusFiles == old(syllabusFiles)
      ensures Current() == old(Current()).(syllabusFiles := syllabusFiles)
    {
      updated := false;
      for i := 0 to |files|
        invariant UniqueKeys(syllabusFiles)
        invariant syllabusFiles == AddUploads(old(syllabusFiles), files[..i], SidebarReader(w.pdf, w.ocr))
        invariant |syllabusFiles| >= |old(syllabusFiles)|
        invariant updated <==> |syllabusFiles| > |old(syllabusFiles)|
        invariant !updated ==> syllabusFiles == old(syllabusFiles)
        invariant Current() == old(Current()).(syllabusFiles := syllabusFiles)
      {
        assert files[..i + 1][..i] == files[..i];
        var added := AddSidebarFile(files[i], w);
        updated := updated || added;
      }
      assert files[..|files|] == files;
    }

    /** Sidebar upload (app.py:381-400): saved only when a new name was stored. */
    method UploadFromSidebar(files: seq<UploadedFile>, w: World) returns (fired: bool)
      requires WellFormed(Current()) && step != Entry
      modifies this, disk
      ensures fired == Wizard.Sidebar(old(Current()), old(OnDisk()), SidebarFilesUploaded(files), w).Some?
      ensures fired ==> AppState() == Wizard.Sidebar(old(Current()), old(OnDisk()), SidebarFilesUploaded(files), w).value
      ensures !fired ==> AppState() == old(AppState())
    {
      fired := AddSidebarUploads(files, w);
      if fired {
        Save();
      }
    }

    /** "Save" under an artifact (app.py:408-412): the edited text replaces the stored one. */
    method SaveArtifact(name: string, text: string) returns (fired: bool)
      requires WellFormed(Current()) && step != Entry
      modifies this, disk
      ensures fired <==> name in Keys(old(syllabusFiles))
      ensures fired ==> AppState() == Saved(old(Current()).(syllabusFiles := Put(old(syllabusFiles), name, text)), old(OnDisk()))
      ensures !fired ==> AppState() == old(AppState())
    {
      fired := false;
      if name in Keys(syllabusFiles) {
        syllabusFiles := Put(syllabusFiles, name, text);
        assert Current() == old(Current()).(syllabusFiles := syllabusFiles);
        Save();
        fired := true;
      }
    }

    /** "Delete" under an artifact (app.py:414-419). */
    method DeleteArtifact(name: string) returns (fired: bool)
      requires WellFormed(Current()) && step != Entry
      modifies this, disk
      ensures fired <==> name in Keys(old(syllabusFiles))
      ensures fired ==> AppState() == Saved(old(Current()).(syllabusFiles := Remove(old(syllabusFiles), name)), old(OnDisk()))
      ensures !fired ==> AppState() == old(AppState())
    {
      fired := false;
      if name in Keys(syllabusFiles) {
        syllabusFiles := Remove(syllabusFiles, name);
        assert Current() == old(Current()).(syllabusFiles := syllabusFiles);
        Save();
        fired := true;
      }
    }

    /** "Reset All Data" (app.py:422-427): the snapshot is removed and the
        next run starts from the defaults. */
    method ResetAll()
      modifies this, disk
      ensures AppState() == App(Startup(NoSnapshot), old(OnDisk()).(snapshot := NoSnapshot))
    {
      disk.RemoveSnapshot();
      Assign(Startup(NoSnapshot));
    }

    /** A history entry clicked (app.py:434-448). */
    method PickHistory(i: nat, w: World) returns (fired: bool)
      requires WellFormed(Current()) && step != Entry
      modifies this, disk
      ensures fired == Wizard.Sidebar(old(Current()), old(OnDisk()), HistoryClicked(i), w).Some?
      ensures fired ==> AppState() == Wizard.Sidebar(old(Current()), old(OnDisk()), HistoryClicked(i), w).value
      ensures !fired ==> AppState() == old(AppState())
    {
      fired := false;
      var history := LoadHistory(disk.history);
      if i < |history| {
        roadmap := Generated(history[i].roadmap);
        step := RoadmapResult;
        assert Current() == old(Current()).(roadmap := Generated(history[i].roadmap), step := RoadmapResult);
        Save();
        fired := true;
      }
    }

    /** The sidebar (app.py:359-448): the control that fired, if any. */
    method Sidebar(e: Event, w: World) returns (fired: bool)
      requires WellFormed(Current())
      modifies this, disk
      ensures fired == Wizard.Sidebar(old(Current()), old(OnDisk()), e, w).Some?
      ensures fired ==> AppState() == Wizard.Sidebar(old(Current()), old(OnDisk()), e, w).value
      ensures !fired ==> AppState() == old(AppState())
    {
      fired := false;
      if step == Entry {
        return;
      }
      ghost var r := Wizard.Sidebar(Current(), OnDisk(), e, w);
      match e {
        case NewSessionClicked =>
          StartNewSession();
          fired := true;
        case SidebarFilesUploaded(files) =>
          fired := UploadFromSidebar(files, w);
        case SaveClicked(name, text) =>
          fired := SaveArtifact(name, text);
        case DeleteClicked(name) =>
          fired := DeleteArtifact(name);
        case ResetClicked =>
          ResetAll();
          fired := true;
        case HistoryClicked(i) =>
          fired := PickHistory(i, w);
        case _ =>
      }
    }

    // -------------------------------------------------------------------------
    // Screens

    method EnterName(name: string)
      modifies this, disk
      ensures AppState() == Wizard.EnterName(old(Current()), old(OnDisk()), name)
    {
      if name != "" {
        userName := Upper(name);
        step := SyllabusInput;
        assert Current() == old(Current()).(userName := Upper(name), step := SyllabusInput);
        Save();
      }
    }

    /** Step 1 (app.py:514-555): the texts of this upload are collected into
        a fresh dict, then written into the store on Confirm. */
    method Confirm(files: seq<UploadedFile>, pasted: string, w: World) returns (notice: Notice)
      requires WellFormed(Current())
      modifies this, disk
      ensures Outcome(AppState(), notice) == Wizard.Confirm(old(Current()), old(OnDisk()), files, pasted, w)
    {
      CollectSyllabus(files, pasted, w);
      if syllabusFiles != [] {
        step := Dashboard;
        Save();
        notice := Quiet;
      } else {
        notice := NeedContent;
      }
    }

    /** The writes into the syllabus dict on Confirm (app.py:524-547). */
    method CollectSyllabus(files: seq<UploadedFile>, pasted: string, w: World)
      requires UniqueKeys(syllabusFiles)
      modifies this
      ensures syllabusFiles == ConfirmedStore(old(syllabusFiles), files, pasted, w)
      ensures Current() == old(Current()).(syllabusFiles := syllabusFiles)
    {
      var pdfs := OfType(files, [PdfMime]);
      var images := OfType(files, ConfirmImageMimes);
      if pdfs != [] {
        var text := ExtractText(pdfs, w.pdf);
        syllabusFiles := Put(syllabusFiles, "PDFs", text);
      }
      if images != [] {
        var text := ExtractTextFromImages(images, w.ocr);
        syllabusFiles := Put(syllabusFiles, "Images", text);
      }
      if Strip(pasted) != "" {
        syllabusFiles := Put(syllabusFiles, "Manual Entry", pasted);
      }
    }

    /** One file of the PYQ loop (app.py:676-678). */
    method AddPyqFile(f: UploadedFile, w: World) returns (added: bool)
      requires UniqueKeys(pyqFiles)
      modifies this
      ensures pyqFiles == AddUpload(old(pyqFiles), f, PyqReader(w.pdf))
      ensures added ==> |pyqFiles| == |old(pyqFiles)| + 1
      ensures !added ==> pyqFiles == old(pyqFiles)
      ensures Current() == old(Current()).(pyqFiles := pyqFiles)
    {
      added := false;
      if f.name !in Keys(pyqFiles) {
        var text := ExtractText([f], w.pdf);
        pyqFiles := Put(pyqFiles, f.name, text);
        added := true;
      }
    }

    /** The PYQ upload loop (app.py:672-680). */
    method UploadPyqs(files: seq<UploadedFile>, w: World)
      requires WellFormed(Current())
      modifies this, disk
      ensures AppState() == Wizard.UploadPyqs(old(Current()), old(OnDisk()), files, w)
    {
      var updated := false;
      for i := 0 to |files|
        invariant UniqueKeys(pyqFiles)
        invariant pyqFiles == AddUploads(old(pyqFiles), files[..i], PyqReader(w.pdf))
        invariant |pyqFiles| >= |old(pyqFiles)|
        invariant updated <==> |pyqFiles| > |old(pyqFiles)|
        invariant !updated ==> pyqFiles == old(pyqFiles)
        invariant Current() == old(Current()).(pyqFiles := pyqFiles)
        invariant OnDisk() == old(OnDisk())
      {
        assert files[..i + 1][..i] == files[..i];
        var added := AddPyqFile(files[i], w);
        updated := updated || added;
      }
      assert files[..|files|] == files;
      if updated {
        Save();
      }
    }

    /** "Start Analysis" (app.py:695-749). */
    method GenerateRoadmap(days: nat, hours: nat, w: World)
      modifies this, disk
      ensures AppState() == Wizard.Generate(old(Current()), old(OnDisk()), days, hours, w)
    {
      var prompt := RoadmapRequest(syllabusFiles, pyqFiles, days, hours);
      var reply := GetGeminiResponse(prompt, w);
      roadmap := if reply.Some? then Generated(reply.value) else Failed;
      if reply.Some? && reply.value != "" {
        var text := StripFences(reply.value);
        roadmap := Generated(text);
        disk.SaveStrategyHistory(text, days, hours, w.now);
        step := RoadmapResult;
        Save();
      }
    }

    /** The mock-exam button (app.py:754-795). */
    method StartMockExam(w: World) returns (notice: Notice)
      modifies this, disk
      ensures Outcome(AppState(), notice) == Wizard.StartMock(old(Current()), old(OnDisk()), w)
    {
      notice := Quiet;
      if pyqFiles == [] {
        notice := NeedPyqs;
        return;
      }
      var reply := GetGeminiResponse(MockExamRequest(pyqFiles), w);
      if reply.Some? && reply.value != "" {
        match ParseDeck(reply.value, w.decode) {
          case Deck(cards) =>
            CommitDeck(cards);
            notice := Glitch;
          case NoArray => notice := FormatError;
          case DecodeError => notice := Glitch;
        }
      }
    }

    /** A decoded deck is stored with the cursor at its first card (app.py:779-785). */
    method CommitDeck(cards: seq<Card>)
      modifies this, disk
      ensures AppState() == Saved(old(Current()).(mockJson := cards, qIndex := 0, step := MockRunner), old(OnDisk()))
    {
      mockJson := cards;
      qIndex := 0;
      step := MockRunner;
      assert Current() == old(Current()).(mockJson := cards, qIndex := 0, step := MockRunner);
      Save();
    }

    /** The card runner (app.py:903-961). */
    method Runner(e: Event) returns (notice: Notice)
      modifies this, disk
      ensures Outcome(AppState(), notice) == Wizard.Runner(old(Current()), old(OnDisk()), e)
    {
      notice := Quiet;
      if e == ExitClicked {
        step := Dashboard;
        Save();
      } else if mockJson == [] {
        step := Dashboard;
        notice := DeckCorrupted;
      } else if !(-|mockJson| <= qIndex < |mockJson|) {
        notice := IndexOutOfRange;
      } else if e == PreviousClicked && qIndex > 0 {
        qIndex := qIndex - 1;
      } else if e == NextClicked && qIndex < DeckSize - 1 {
        qIndex := qIndex + 1;
      } else if e == FinishClicked && qIndex >= DeckSize - 1 {
        step := MockComplete;
        Save();
      }
    }

    /** The screen of the current step. */
    method Screen(e: Event, w: World) returns (notice: Notice)
      requires WellFormed(Current())
      modifies this, disk
      ensures Outcome(AppState(), notice) == Wizard.Screen(old(Current()), old(OnDisk()), e, w)
    {
      notice := Quiet;
      match step {
        case Entry =>
          if e.NameSubmitted? {
            EnterName(e.name);
          }
        case SyllabusInput =>
          if e.ConfirmClicked? {
            notice := Confirm(e.files, e.pasted, w);
          }
        case Dashboard =>
          notice := DashboardScreen(e, w);
        case RoadmapResult =>
          if e == BackClicked {
            step := Dashboard;
            Save();
          }
        case MockRunner =>
          notice := Runner(e);
        case MockComplete =>
          if e == ReturnClicked {
            step := Dashboard;
            Save();
          }
      }
    }

    /** The dashboard (app.py:558-795). */
    method DashboardScreen(e: Event, w: World) returns (notice: Notice)
      requires WellFormed(Current()) && step == Dashboard
      modifies this, disk
      ensures Outcome(AppState(), notice) == Wizard.Screen(old(Current()), old(OnDisk()), e, w)
    {
      notice := Quiet;
      match e {
        case KeyButtonClicked => showApiModal := true;
        case PyqFilesUploaded(files) => UploadPyqs(files, w);
        case AnalysisClicked(days, hours) => GenerateRoadmap(days, hours, w);
        case MockExamClicked => notice := StartMockExam(w);
        case _ =>
      }
    }

    /** One run of the script. */
    method Handle(e: Event, w: World) returns (notice: Notice)
      requires Valid()
      modifies this, disk
      ensures Outcome(AppState(), notice) == Run(old(AppState()), e, w)
      ensures Valid()
    {
      ghost var a := AppState();
      Reload();
      notice := Quiet;
      if showApiModal {
        Modal(e);
      } else {
        var fired := Sidebar(e, w);
        if !fired {
          notice := Screen(e, w);
        }
      }
      RunPreservesInv(a, e, w);
    }
  }
}
