/** What the wizard promises, stated over single runs. */
module WizardProperties {
  import opened Wrappers
  import opened Text
  import opened Artifacts
  import opened Extraction
  import opened Gateway
  import opened Parsers
  import opened History
  import opened State
  import opened Persistence
  import opened Wizard

  /** The session as the run sees it after the `load_state` prologue. */
  function Live(a: App): (s: SessionState)
    requires Inv(a)
    ensures WellFormed(s) && s == a.session.(roadmap := s.roadmap)
  {
    ReloadOnlyRoadmap(a.session, a.stored.snapshot);
    Reload(a.session, a.stored.snapshot)
  }

  /** Every run keeps the stores dicts, the cursor in 0..19 and the snapshot restorable. */
  lemma RunPreservesInv(a: App, e: Event, w: World)
    requires Inv(a)
    ensures Inv(Run(a, e, w).app)
  {
    var s := Live(a);
    var st := a.stored;
    if s.showApiModal {
      ModalPreservesInv(s, st, e);
    } else if Sidebar(s, st, e, w).Some? {
      SidebarPreservesInv(s, st, e, w);
    } else {
      ScreenPreservesInv(s, st, e, w);
    }
  }

  /** The credential modal keeps the invariant. */
  lemma ModalPreservesInv(s: SessionState, st: Stored, e: Event)
    requires WellFormed(s) && 0 <= s.qIndex < DeckSize && SnapshotOk(st.snapshot)
    ensures Inv(Modal(s, st, e))
  {
    if e.SaveKeyClicked? {
      SaveStateWellTyped(s.(apiKey := e.key));
    }
  }

  /** Every sidebar control keeps the invariant. */
  lemma SidebarPreservesInv(s: SessionState, st: Stored, e: Event, w: World)
    requires WellFormed(s) && 0 <= s.qIndex < DeckSize && SnapshotOk(st.snapshot)
    requires Sidebar(s, st, e, w).Some?
    ensures Inv(Sidebar(s, st, e, w).value)
  {
    match e {
      case NewSessionClicked =>
        SavedOk(s.(step := SyllabusInput, syllabusFiles := [], pyqFiles := [], roadmap := Generated(""), mockJson := []), st);
      case SidebarFilesUploaded(files) =>
        SavedOk(s.(syllabusFiles := AddUploads(s.syllabusFiles, files, SidebarReader(w.pdf, w.ocr))), st);
      case SaveClicked(name, text) =>
        SavedOk(s.(syllabusFiles := Put(s.syllabusFiles, name, text)), st);
      case DeleteClicked(name) =>
        SavedOk(s.(syllabusFiles := Remove(s.syllabusFiles, name)), st);
      case ResetClicked =>
      case HistoryClicked(i) =>
        SavedOk(s.(roadmap := Generated(LoadHistory(st.history)[i].roadmap), step := RoadmapResult), st);
    }
  }

  /** The screens keep the invariant. */
  lemma ScreenPreservesInv(s: SessionState, st: Stored, e: Event, w: World)
    requires Inv(App(s, st))
    ensures Inv(Screen(s, st, e, w).app)
  {
    match s.step {
      case Entry => EntryPreservesInv(s, st, e, w);
      case SyllabusInput => SyllabusPreservesInv(s, st, e, w);
      case Dashboard => DashboardPreservesInv(s, st, e, w);
      case RoadmapResult => ResultPreservesInv(s, st, e, w);
      case MockRunner => MockScreenPreservesInv(s, st, e, w);
      case MockComplete => ResultPreservesInv(s, st, e, w);
    }
  }

  lemma EntryPreservesInv(s: SessionState, st: Stored, e: Event, w: World)
    requires Inv(App(s, st)) && s.step == Entry
    ensures Inv(Screen(s, st, e, w).app)
  {
    if e.NameSubmitted? {
      SavedOk(s.(userName := Upper(e.name), step := SyllabusInput), st);
    }
  }

  lemma SyllabusPreservesInv(s: SessionState, st: Stored, e: Event, w: World)
    requires Inv(App(s, st)) && s.step == SyllabusInput
    ensures Inv(Screen(s, st, e, w).app)
  {
    if e.ConfirmClicked? {
      ConfirmPreservesInv(s, st, e.files, e.pasted, w);
    }
  }

  /** The roadmap screen and the results screen only go back to the dashboard. */
  lemma ResultPreservesInv(s: SessionState, st: Stored, e: Event, w: World)
    requires Inv(App(s, st)) && (s.step == RoadmapResult || s.step == MockComplete)
    ensures Inv(Screen(s, st, e, w).app)
  {
    SavedOk(s.(step := Dashboard), st);
  }

  lemma MockScreenPreservesInv(s: SessionState, st: Stored, e: Event, w: World)
    requires Inv(App(s, st)) && s.step == MockRunner
    ensures Inv(Screen(s, st, e, w).app)
  {
    RunnerPreservesInv(s, st, e);
  }

  lemma ConfirmPreservesInv(s: SessionState, st: Stored, files: seq<UploadedFile>, pasted: string, w: World)
    requires Inv(App(s, st))
    ensures Inv(Confirm(s, st, files, pasted, w).app)
  {
    SavedOk(s.(syllabusFiles := ConfirmedStore(s.syllabusFiles, files, pasted, w), step := Dashboard), st);
  }

  lemma RunnerPreservesInv(s: SessionState, st: Stored, e: Event)
    requires Inv(App(s, st))
    ensures Inv(Runner(s, st, e).app)
  {
    if e == ExitClicked {
      SavedOk(s.(step := Dashboard), st);
    } else if s.mockJson != [] && PyIndexOk(|s.mockJson|, s.qIndex) && e == FinishClicked && s.qIndex >= DeckSize - 1 {
      SavedOk(s.(step := MockComplete), st);
    }
  }

  lemma DashboardPreservesInv(s: SessionState, st: Stored, e: Event, w: World)
    requires Inv(App(s, st)) && s.step == Dashboard
    ensures Inv(Screen(s, st, e, w).app)
  {
    match e {
      case PyqFilesUploaded(files) =>
        SavedOk(s.(pyqFiles := AddUploads(s.pyqFiles, files, PyqReader(w.pdf))), st);
      case AnalysisClicked(days, hours) =>
        GeneratePreservesInv(s, st, days, hours, w);
      case MockExamClicked =>
        StartMockPreservesInv(s, st, w);
      case _ =>
    }
  }

  lemma GeneratePreservesInv(s: SessionState, st: Stored, days: nat, hours: nat, w: World)
    requires Inv(App(s, st))
    ensures Inv(Generate(s, st, days, hours, w))
  {
    var reply := w.llm(EffectiveKey(None, s.apiKey, w.env), RoadmapRequest(s.syllabusFiles, s.pyqFiles, days, hours));
    if reply.Some? && reply.value != "" {
      var text := StripFences(reply.value);
      var s1 := s.(roadmap := Generated(text), step := RoadmapResult);
      SavedOk(s1, st);
      assert Generate(s, st, days, hours, w) ==
             App(s1, Stored(Saved(s1, st).stored.snapshot, SaveHistory(st.history, text, days, hours, w.now)));
    }
  }

  lemma StartMockPreservesInv(s: SessionState, st: Stored, w: World)
    requires Inv(App(s, st))
    ensures Inv(StartMock(s, st, w).app)
  {
    var reply := w.llm(EffectiveKey(None, s.apiKey, w.env), MockExamRequest(s.pyqFiles));
    if s.pyqFiles != [] && reply.Some? && reply.value != "" {
      var p := ParseDeck(reply.value, w.decode);
      if p.Deck? {
        SavedOk(s.(mockJson := p.cards, qIndex := 0, step := MockRunner), st);
      }
    }
  }

  // ---------------------------------------------------------------------------
  // The modal guard and the sidebar guard

  /** While the modal is open, nothing but Cancel and Save has any effect. */
  lemma ModalBlocksWizard(a: App, e: Event, w: World)
    requires Inv(a) && Live(a).showApiModal
    requires !e.CancelClicked? && !e.SaveKeyClicked?
    ensures Run(a, e, w).app == App(Live(a), a.stored)
  {
    RunModal(a, e, w);
  }

  /** With the modal open, the run is the modal's handler alone. */
  lemma RunModal(a: App, e: Event, w: World)
    requires Inv(a) && Live(a).showApiModal
    ensures Run(a, e, w) == Outcome(Modal(Live(a), a.stored, e), Quiet)
  {
  }

  /** Cancel closes the modal and clears the error flag, and saves nothing. */
  lemma ModalCancel(a: App, w: World)
    requires Inv(a) && Live(a).showApiModal
    ensures Run(a, CancelClicked, w).app == App(Live(a).(showApiModal := false, apiError := false), a.stored)
  {
    RunModal(a, CancelClicked, w);
  }

  /** Save with an empty key does nothing; with a key it stores and saves the
      key, so that a restarted session uses it, and closes the modal. */
  lemma ModalSaveKey(a: App, key: string, w: World)
    requires Inv(a) && Live(a).showApiModal
    ensures key == "" ==> Run(a, SaveKeyClicked(key), w).app == App(Live(a), a.stored)
    ensures key != "" ==>
              var b := Run(a, SaveKeyClicked(key), w).app;
              b.session == Live(a).(apiKey := key, showApiModal := false, apiError := false) &&
              b.stored.history == a.stored.history &&
              WellFormedFile(b.stored.snapshot) && Startup(b.stored.snapshot).apiKey == key
  {
    RunModal(a, SaveKeyClicked(key), w);
    if key != "" {
      SaveKeyRestores(Live(a), a.stored, key);
    }
  }

  /** The key saved from the modal is the key of the next session. */
  lemma SaveKeyRestores(s: SessionState, st: Stored, key: string)
    requires WellFormed(s) && key != ""
    ensures var b := Modal(s, st, SaveKeyClicked(key));
            b.session == s.(apiKey := key, showApiModal := false, apiError := false) &&
            b.stored.history == st.history &&
            WellFormedFile(b.stored.snapshot) && Startup(b.stored.snapshot).apiKey == key
  {
    RestartRestores(s.(apiKey := key));
  }

  /** On the name-entry screen the sidebar is not drawn, so its controls do nothing. */
  lemma SidebarHiddenAtEntry(a: App, e: Event, w: World)
    requires Inv(a) && !Live(a).showApiModal && Live(a).step == Entry
    requires e.NewSessionClicked? || e.SidebarFilesUploaded? || e.SaveClicked? || e.DeleteClicked? ||
             e.ResetClicked? || e.HistoryClicked?
    ensures Run(a, e, w).app == App(Live(a), a.stored)
  {
  }

  /** Reset deletes the snapshot and starts over from the defaults; the history stays. */
  lemma ResetSpec(a: App, w: World)
    requires Inv(a) && !Live(a).showApiModal && Live(a).step != Entry
    ensures Run(a, ResetClicked, w).app == App(Defaults, a.stored.(snapshot := NoSnapshot))
  {
    RunSidebar(a, ResetClicked, w);
    StartupWithoutSnapshot(NoSnapshot);
  }

  /** With the modal closed, a sidebar control that fires decides the run. */
  lemma RunSidebar(a: App, e: Event, w: World)
    requires Inv(a) && !Live(a).showApiModal && Sidebar(Live(a), a.stored, e, w).Some?
    ensures Run(a, e, w) == Outcome(Sidebar(Live(a), a.stored, e, w).value, Quiet)
  {
  }

  // ---------------------------------------------------------------------------
  // Screens

  /** A non-empty name moves on to the syllabus step with the name upper-cased
      and saved; an empty one changes nothing. */
  lemma EnterNameSpec(s: SessionState, st: Stored, name: string)
    requires WellFormed(s)
    ensures name == "" ==> EnterName(s, st, name) == App(s, st)
    ensures name != "" ==>
              var t := EnterName(s, st, name).session;
              t.step == SyllabusInput && |t.userName| == |name| &&
              (forall i :: 0 <= i < |name| ==> t.userName[i] == UpperChar(name[i])) &&
              Startup(EnterName(s, st, name).stored.snapshot).userName == t.userName
  {
    if name != "" {
      RestartRestores(s.(userName := Upper(name), step := SyllabusInput));
    }
  }

  /** `m[k] = v` when there is a value to write. */
  function UpdateIf(m: map<string, string>, k: string, v: Option<string>): map<string, string> {
    if v.Some? then m[k := v.value] else m
  }

  /** Three conditional writes to distinct keys: each written key holds its
      value, and every other key keeps its old one. */
  lemma ThreeWrites(m: map<string, string>, k1: string, v1: Option<string>, k2: string, v2: Option<string>,
                    k3: string, v3: Option<string>)
    requires k1 != k2 && k1 != k3 && k2 != k3
    ensures var r := UpdateIf(UpdateIf(UpdateIf(m, k1, v1), k2, v2), k3, v3);
            (v1.Some? ==> k1 in r && r[k1] == v1.value) &&
            (v2.Some? ==> k2 in r && r[k2] == v2.value) &&
            (v3.Some? ==> k3 in r && r[k3] == v3.value) &&
            (v1.None? ==> (k1 in r <==> k1 in m) && (k1 in m ==> r[k1] == m[k1])) &&
            (v2.None? ==> (k2 in r <==> k2 in m) && (k2 in m ==> r[k2] == m[k2])) &&
            (v3.None? ==> (k3 in r <==> k3 in m) && (k3 in m ==> r[k3] == m[k3])) &&
            (forall k :: k in m && k != k1 && k != k2 && k != k3 ==> k in r && r[k] == m[k]) &&
            (forall k :: k in r ==> k in m || k == k1 || k == k2 || k == k3)
  {
  }

  /** The texts the confirm writes under "PDFs", "Images" and "Manual Entry", if any. */
  function PdfsWrite(files: seq<UploadedFile>, w: World): Option<string> {
    if OfType(files, [PdfMime]) != [] then Some(PdfText(OfType(files, [PdfMime]), w.pdf)) else None
  }

  function ImagesWrite(files: seq<UploadedFile>, w: World): Option<string> {
    if OfType(files, ConfirmImageMimes) != [] then Some(ImageText(OfType(files, ConfirmImageMimes), w.ocr)) else None
  }

  function ManualWrite(pasted: string): Option<string> {
    if Strip(pasted) != "" then Some(pasted) else None
  }

  lemma ConfirmedStoreMap(store: Store, files: seq<UploadedFile>, pasted: string, w: World)
    requires UniqueKeys(store)
    ensures AsMap(ConfirmedStore(store, files, pasted, w)) ==
            UpdateIf(UpdateIf(UpdateIf(AsMap(store), "PDFs", PdfsWrite(files, w)), "Images", ImagesWrite(files, w)),
                     "Manual Entry", ManualWrite(pasted))
  {
    var v1, v2, v3 := PdfsWrite(files, w), ImagesWrite(files, w), ManualWrite(pasted);
    var s1 := PutIf(store, "PDFs", v1);
    var s2 := PutIf(s1, "Images", v2);
    var s3 := PutIf(s2, "Manual Entry", v3);
    PutIfMap(store, "PDFs", v1);
    PutIfMap(s1, "Images", v2);
    PutIfMap(s2, "Manual Entry", v3);
    assert ConfirmedStore(store, files, pasted, w) == s3;
  }

  /** A conditional `d[k] = v`. */
  function PutIf(s: Store, k: string, v: Option<string>): (r: Store)
    requires UniqueKeys(s)
    ensures UniqueKeys(r)
  {
    if v.Some? then Put(s, k, v.value) else s
  }

  lemma PutIfMap(s: Store, k: string, v: Option<string>)
    requires UniqueKeys(s)
    ensures AsMap(PutIf(s, k, v)) == UpdateIf(AsMap(s), k, v)
  {
    if v.Some? {
      PutSpec(s, k, v.value);
    }
  }

  /** The pasted text is stored under "Manual Entry" exactly when it is not
      blank; "PDFs" and "Images" are overwritten exactly when this upload has
      such files (otherwise each of the three keeps whatever it held before,
      or stays absent); every other artifact is untouched. */
  lemma ConfirmedStoreSpec(store: Store, files: seq<UploadedFile>, pasted: string, w: World)
    requires UniqueKeys(store)
    ensures var r := AsMap(ConfirmedStore(store, files, pasted, w));
            (Strip(pasted) != "" ==> "Manual Entry" in r && r["Manual Entry"] == pasted) &&
            (OfType(files, [PdfMime]) != [] ==> "PDFs" in r && r["PDFs"] == PdfText(OfType(files, [PdfMime]), w.pdf)) &&
            (OfType(files, ConfirmImageMimes) != [] ==>
               "Images" in r && r["Images"] == ImageText(OfType(files, ConfirmImageMimes), w.ocr)) &&
            (Strip(pasted) == "" ==>
               ("Manual Entry" in r <==> "Manual Entry" in AsMap(store)) && ("Manual Entry" in r ==> r["Manual Entry"] == AsMap(store)["Manual Entry"])) &&
            (OfType(files, [PdfMime]) == [] ==>
               ("PDFs" in r <==> "PDFs" in AsMap(store)) && ("PDFs" in r ==> r["PDFs"] == AsMap(store)["PDFs"])) &&
            (OfType(files, ConfirmImageMimes) == [] ==>
               ("Images" in r <==> "Images" in AsMap(store)) && ("Images" in r ==> r["Images"] == AsMap(store)["Images"])) &&
            (forall k :: k in AsMap(store) && k != "Manual Entry" && k != "PDFs" && k != "Images" ==>
               k in r && r[k] == AsMap(store)[k]) &&
            (forall k :: k in r ==> k in AsMap(store) || k == "Manual Entry" || k == "PDFs" || k == "Images")
  {
    ConfirmedStoreMap(store, files, pasted, w);
    assert "PDFs" != "Images" && "PDFs" != "Manual Entry" && "Images" != "Manual Entry" by {
      assert "PDFs"[0] != "Images"[0] && "PDFs"[0] != "Manual Entry"[0] && "Images"[0] != "Manual Entry"[0];
    }
    ThreeWrites(AsMap(store), "PDFs", PdfsWrite(files, w), "Images", ImagesWrite(files, w),
                "Manual Entry", ManualWrite(pasted));
  }

  /** With no file of an accepted type and a blank text, confirm changes no artifact. */
  lemma ConfirmNothingNoop(store: Store, files: seq<UploadedFile>, pasted: string, w: World)
    requires UniqueKeys(store)
    requires Strip(pasted) == "" && OfType(files, [PdfMime]) == [] && OfType(files, ConfirmImageMimes) == []
    ensures ConfirmedStore(store, files, pasted, w) == store
  {
  }

  /** Confirm moves to the dashboard, and saves, exactly when the syllabus
      store ends up non-empty; no other field of the session changes.
      Otherwise the step stays, nothing is saved and a warning is shown. */
  lemma ConfirmSpec(s: SessionState, st: Stored, files: seq<UploadedFile>, pasted: string, w: World)
    requires WellFormed(s) && s.step == SyllabusInput
    ensures var o := Confirm(s, st, files, pasted, w);
            var store := ConfirmedStore(s.syllabusFiles, files, pasted, w);
            o.app.session.syllabusFiles == store &&
            (o.app.session.step == Dashboard <==> store != []) &&
            (store != [] ==> o.app.session == s.(syllabusFiles := store, step := Dashboard) &&
                             o.app.stored == st.(snapshot := Snapshot(SaveState(o.app.session))) &&
                             o.notice == Quiet) &&
            (store == [] ==> o.app.session == s && o.app.stored == st && o.notice == NeedContent)
  {
  }

  /** A file of type "image/jpg" is read by the sidebar but dropped by the
      syllabus step, whose image filter lacks that type. */
  lemma JpgOnlyInSidebar(f: UploadedFile, w: World)
    requires f.mime == "image/jpg"
    ensures OfType([f], ConfirmImageMimes) == [] && OfType([f], [PdfMime]) == []
    ensures ConfirmedStore([], [f], "", w) == []
    ensures SidebarReader(w.pdf, w.ocr)(f) == Some(ImageText([f], w.ocr))
  {
    assert [f][..0] == [];
  }

  /** New Session empties the artifacts, the roadmap and the deck and goes to
      the syllabus step; the name, the key and the cursor stay. */
  lemma NewSessionSpec(s: SessionState, st: Stored)
    ensures var t := StartNewSession(s, st).session;
            t.step == SyllabusInput && t.syllabusFiles == [] && t.pyqFiles == [] &&
            t.roadmap == Generated("") && t.mockJson == [] &&
            t.userName == s.userName && t.apiKey == s.apiKey && t.qIndex == s.qIndex &&
            StartNewSession(s, st).stored.history == st.history
  {
  }

  /** Both "New Session" buttons have the same effect. */
  lemma NewSessionFromDashboard(a: App, w: World)
    requires Inv(a) && !Live(a).showApiModal && Live(a).step == Dashboard
    ensures Run(a, NewSessionClicked, w).app == StartNewSession(Live(a), a.stored)
  {
  }

  /** Loading a history entry shows its roadmap and saves the session; an
      index past the log does nothing. */
  lemma HistoryPickSpec(s: SessionState, st: Stored, i: nat, w: World)
    requires WellFormed(s) && s.step != Entry
    ensures i < |LoadHistory(st.history)| ==>
              var b := Sidebar(s, st, HistoryClicked(i), w);
              b.Some? && b.value.session == s.(roadmap := Generated(LoadHistory(st.history)[i].roadmap), step := RoadmapResult) &&
              b.value.stored == st.(snapshot := Snapshot(SaveState(b.value.session)))
    ensures i >= |LoadHistory(st.history)| ==> Sidebar(s, st, HistoryClicked(i), w).None?
  {
  }

  /** Sidebar uploads add only new names and never change an existing
      artifact; a new name holds the text of the first readable file of that
      name; the session is saved exactly when something was added. */
  lemma SidebarUploadSpec(s: SessionState, st: Stored, files: seq<UploadedFile>, w: World)
    requires WellFormed(s) && s.step != Entry
    ensures var b := Sidebar(s, st, SidebarFilesUploaded(files), w);
            var read := SidebarReader(w.pdf, w.ocr);
            var r := AddUploads(s.syllabusFiles, files, read);
            (b.Some? <==> |r| > |s.syllabusFiles|) &&
            (b.Some? ==> b.value.session == s.(syllabusFiles := r) &&
                         b.value.stored == st.(snapshot := Snapshot(SaveState(b.value.session)))) &&
            (forall k :: k in AsMap(s.syllabusFiles) ==> k in AsMap(r) && AsMap(r)[k] == AsMap(s.syllabusFiles)[k]) &&
            (forall k :: k in AsMap(r) <==> k in AsMap(s.syllabusFiles) || FirstRead(files, k, read).Some?) &&
            (forall k :: k in AsMap(r) && k !in AsMap(s.syllabusFiles) ==> AsMap(r)[k] == FirstRead(files, k, read).value)
  {
    var read := SidebarReader(w.pdf, w.ocr);
    var r := AddUploads(s.syllabusFiles, files, read);
    forall k ensures (k in AsMap(r) <==> k in AsMap(s.syllabusFiles) || FirstRead(files, k, read).Some?) &&
                     (k in AsMap(r) ==> AsMap(r)[k] == if k in AsMap(s.syllabusFiles) then AsMap(s.syllabusFiles)[k]
                                                       else FirstRead(files, k, read).value) {
      AddUploadsMap(s.syllabusFiles, files, read, k);
    }
  }

  /** The same for PYQ uploads on the dashboard. */
  lemma PyqUploadSpec(s: SessionState, st: Stored, files: seq<UploadedFile>, w: World)
    requires WellFormed(s)
    ensures var b := UploadPyqs(s, st, files, w);
            var r := AddUploads(s.pyqFiles, files, PyqReader(w.pdf));
            (|r| > |s.pyqFiles| ==> b.session == s.(pyqFiles := r) && b.stored.snapshot == Snapshot(SaveState(b.session))) &&
            (|r| <= |s.pyqFiles| ==> b == App(s, st)) &&
            (forall k :: k in AsMap(s.pyqFiles) ==> k in AsMap(b.session.pyqFiles) && AsMap(b.session.pyqFiles)[k] == AsMap(s.pyqFiles)[k])
  {
    forall k | k in AsMap(s.pyqFiles)
      ensures k in AsMap(AddUploads(s.pyqFiles, files, PyqReader(w.pdf)))
      ensures AsMap(AddUploads(s.pyqFiles, files, PyqReader(w.pdf)))[k] == AsMap(s.pyqFiles)[k]
    {
      AddUploadsKeepsText(s.pyqFiles, files, PyqReader(w.pdf), k);
    }
  }

  /** Save overwrites exactly the edited artifact, in place; Delete removes
      exactly that artifact; no other field changes and both save the session. */
  lemma EditDeleteSpec(s: SessionState, st: Stored, name: string, text: string, w: World)
    requires WellFormed(s) && s.step != Entry && name in Keys(s.syllabusFiles)
    ensures var b := Sidebar(s, st, SaveClicked(name, text), w);
            b.Some? && AsMap(b.value.session.syllabusFiles) == AsMap(s.syllabusFiles)[name := text] &&
            Keys(b.value.session.syllabusFiles) == Keys(s.syllabusFiles) &&
            b.value.session == s.(syllabusFiles := b.value.session.syllabusFiles) &&
            b.value.stored == st.(snapshot := Snapshot(SaveState(b.value.session)))
    ensures var b := Sidebar(s, st, DeleteClicked(name), w);
            b.Some? && AsMap(b.value.session.syllabusFiles) == AsMap(s.syllabusFiles) - {name} &&
            b.value.session == s.(syllabusFiles := b.value.session.syllabusFiles) &&
            b.value.stored == st.(snapshot := Snapshot(SaveState(b.value.session)))
  {
    PutSpec(s.syllabusFiles, name, text);
  }

  // ---------------------------------------------------------------------------
  // Roadmap and mock exam

  /** The three outcomes of "Start Analysis". */
  lemma GenerateSpec(s: SessionState, st: Stored, days: nat, hours: nat, w: World)
    ensures var reply := w.llm(EffectiveKey(None, s.apiKey, w.env), RoadmapRequest(s.syllabusFiles, s.pyqFiles, days, hours));
            var b := Generate(s, st, days, hours, w);
            (reply.None? ==> b == App(s.(roadmap := Failed, showApiModal := true, apiError := true), st)) &&
            (reply == Some("") ==> b == App(s.(roadmap := Generated("")), st)) &&
            (reply.Some? && reply.value != "" ==>
               b.session == s.(roadmap := Generated(StripFences(reply.value)), step := RoadmapResult) &&
               b.stored.snapshot == Snapshot(SaveState(b.session)) &&
               LoadHistory(b.stored.history)[0].roadmap == StripFences(reply.value) &&
               ParseSummary(LoadHistory(b.stored.history)[0].summary) == Some((days, hours)) &&
               LoadHistory(b.stored.history)[1..] == LoadHistory(st.history))
  {
  }

  /** The deck is committed, with the cursor at 0, exactly when PYQs are
      loaded and the reply holds a decodable array; otherwise the deck, the
      cursor and the step stay as they were. A decodable array still ends
      with the glitch message, as the rerun after the commit is swallowed. */
  lemma StartMockSpec(s: SessionState, st: Stored, w: World)
    ensures var reply := w.llm(EffectiveKey(None, s.apiKey, w.env), MockExamRequest(s.pyqFiles));
            var o := StartMock(s, st, w);
            var committed := s.pyqFiles != [] && reply.Some? && reply.value != "" && ParseDeck(reply.value, w.decode).Deck?;
            (committed ==> o.app.session == s.(mockJson := ParseDeck(reply.value, w.decode).cards, qIndex := 0, step := MockRunner)) &&
            (!committed ==> o.app.session.mockJson == s.mockJson && o.app.session.qIndex == s.qIndex &&
                            o.app.session.step == s.step && o.app.stored == st) &&
            (committed ==> o.notice == Glitch) &&
            (s.pyqFiles == [] ==> o.notice == NeedPyqs) &&
            (s.pyqFiles != [] && reply.Some? && reply.value != "" && BracketSlice(reply.value).None? ==> o.notice == FormatError)
  {
    var reply := w.llm(EffectiveKey(None, s.apiKey, w.env), MockExamRequest(s.pyqFiles));
    if s.pyqFiles != [] && reply.Some? && reply.value != "" {
      var p := ParseDeck(reply.value, w.decode);
    }
  }

  // ---------------------------------------------------------------------------
  // The card runner

  /** Previous acts only above 0, Next only below 19, Finish only at 19 or
      more; none of them saves except Finish. */
  lemma NavigationSpec(s: SessionState, st: Stored)
    requires s.mockJson != [] && PyIndexOk(|s.mockJson|, s.qIndex)
    ensures Runner(s, st, PreviousClicked).app ==
              if s.qIndex > 0 then App(s.(qIndex := s.qIndex - 1), st) else App(s, st)
    ensures Runner(s, st, NextClicked).app ==
              if s.qIndex < DeckSize - 1 then App(s.(qIndex := s.qIndex + 1), st) else App(s, st)
    ensures Runner(s, st, FinishClicked).app ==
              if s.qIndex >= DeckSize - 1 then Saved(s.(step := MockComplete), st) else App(s, st)
  {
  }

  /** An empty deck sends the runner back to the dashboard without saving. */
  lemma EmptyDeckReturns(s: SessionState, st: Stored, e: Event)
    requires s.mockJson == [] && e != ExitClicked
    ensures Runner(s, st, e) == Outcome(App(s.(step := Dashboard), st), DeckCorrupted)
  {
  }

  /** With a full deck of 20 or more cards the card lookup never fails. */
  lemma FullDeckNeverOverruns(a: App, e: Event, w: World)
    requires Inv(a) && !Live(a).showApiModal && Live(a).step == MockRunner && |Live(a).mockJson| >= DeckSize
    ensures Run(a, e, w).notice != IndexOutOfRange
  {
  }

  /** The deck length is never checked: with a one-card deck, Next moves the
      cursor to 1 and the following run fails on the card lookup. */
  lemma ShortDeckOverruns(c: Card, st: Stored)
    ensures var s := Defaults.(step := MockRunner, mockJson := [c]);
            var next := Runner(s, st, NextClicked).app;
            next.session.qIndex == 1 && Runner(next.session, next.stored, Idle).notice == IndexOutOfRange
  {
  }
}
