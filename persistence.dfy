/** The session snapshot `.zenflow_state.json` (app.py:91-127): what
    `save_state` writes, how `load_state` merges it into the session, and the
    defaults that fill whatever is still missing. The session is seen here as
    the Python dict it is: a map from key to JSON value. */
module Persistence {
  import opened Wrappers
  import opened Artifacts
  import opened Parsers
  import opened State

  /** The JSON values the session keys hold. */
  datatype Value =
    | IntVal(i: int)
    | StrVal(s: string)
    | BoolVal(b: bool)
    | DictVal(entries: Store)
    | DeckVal(cards: seq<Card>)
    | NullVal

  /** The session keys, each standing for the JSON key given by `Name`. */
  datatype Key =
    | StepKey | UserNameKey | SyllabusKey | PyqKey | MockKey | QIndexKey
    | RoadmapKey | ForceRoadmapKey | ApiKeyKey | ShowModalKey | ApiErrorKey

  /** The key as it is spelt in the session and in the snapshot file. */
  function Name(k: Key): string {
    match k
    case StepKey => "step"
    case UserNameKey => "user_name"
    case SyllabusKey => "syllabus_files"
    case PyqKey => "pyq_files"
    case MockKey => "mock_json"
    case QIndexKey => "q_index"
    case RoadmapKey => "roadmap"
    case ForceRoadmapKey => "force_roadmap"
    case ApiKeyKey => "api_key"
    case ShowModalKey => "show_api_modal"
    case ApiErrorKey => "api_error"
  }

  /** `st.session_state`, or the object stored in the snapshot, as a dict. */
  type Fields = map<Key, Value>

  /** The snapshot file as the application finds it. */
  datatype SnapshotFile = NoSnapshot | CorruptSnapshot | Snapshot(fields: Fields)

  /** The keys `save_state` writes (app.py:92-102). */
  const SavedKeys: set<Key> :=
    {StepKey, UserNameKey, SyllabusKey, PyqKey, MockKey, QIndexKey, RoadmapKey, ForceRoadmapKey, ApiKeyKey}

  /** The JSON type each known key must hold for the session to make sense. */
  predicate HasType(k: Key, v: Value) {
    match k
    case StepKey => v.IntVal? && StepOf(v.i).Some?
    case QIndexKey => v.IntVal?
    case UserNameKey => v.StrVal?
    case ApiKeyKey => v.StrVal?
    case SyllabusKey => v.DictVal? && UniqueKeys(v.entries)
    case PyqKey => v.DictVal? && UniqueKeys(v.entries)
    case MockKey => v.DeckVal?
    case RoadmapKey => v.StrVal? || v.NullVal?
    case ForceRoadmapKey => v.BoolVal?
    case ShowModalKey => v.BoolVal?
    case ApiErrorKey => v.BoolVal?
  }

  predicate WellTyped(f: Fields) {
    forall k :: k in f ==> HasType(k, f[k])
  }

  /** A snapshot the session can be restored from. */
  predicate WellFormedFile(file: SnapshotFile) {
    file.Snapshot? ==> WellTyped(file.fields)
  }

  /** The merge rule of `load_state`: every key the session already holds
      keeps its value, every other key of the snapshot is added. */
  function FillAbsent(state: Fields, source: Fields): (r: Fields)
  {
    map k | k in state.Keys + source.Keys :: if k in state then state[k] else source[k]
  }

  /** What the merge keeps and what it adds. */
  lemma FillAbsentSpec(state: Fields, source: Fields)
    ensures FillAbsent(state, source).Keys == state.Keys + source.Keys
    ensures forall k :: k in state ==> FillAbsent(state, source)[k] == state[k]
    ensures forall k :: k in source && k !in state ==> FillAbsent(state, source)[k] == source[k]
  {
  }

  /** Merging the same snapshot again, as every rerun does, changes nothing. */
  lemma FillAbsentIdempotent(state: Fields, source: Fields)
    ensures FillAbsent(FillAbsent(state, source), source) == FillAbsent(state, source)
  {
  }

  /** A session that already holds every key of the snapshot is left as it is. */
  lemma FillAbsentCovered(state: Fields, source: Fields)
    requires source.Keys <= state.Keys
    ensures FillAbsent(state, source) == state
  {
  }

  /** Merging well-typed dicts gives a well-typed dict. */
  lemma FillAbsentWellTyped(state: Fields, source: Fields)
    requires WellTyped(state) && WellTyped(source)
    ensures WellTyped(FillAbsent(state, source))
  {
  }

  /** `load_state` on the session dict: a missing or unreadable snapshot adds nothing. */
  function LoadInto(state: Fields, file: SnapshotFile): (r: Fields) {
    match file
    case Snapshot(fields) => FillAbsent(state, fields)
    case _ => state
  }

  /** Every key of `r` holds the value the merge gives it. */
  predicate MergedFrom(r: Fields, state: Fields, source: Fields) {
    forall k :: k in r ==> if k in state then r[k] == state[k] else k in source && r[k] == source[k]
  }

  /** One iteration of the loop keeps the merge invariant. */
  lemma MergeStep(r: Fields, state: Fields, source: Fields, k: Key)
    requires MergedFrom(r, state, source) && state.Keys <= r.Keys && k in source
    ensures var r' := if k !in r then r[k := source[k]] else r;
            MergedFrom(r', state, source) && forall j :: j in r' <==> j in r || j == k
  {
  }

  /** Once the loop has visited every key of the snapshot it has built the merge. */
  lemma MergeComplete(r: Fields, state: Fields, source: Fields)
    requires forall k :: k in r <==> k in state || k in source
    requires MergedFrom(r, state, source)
    ensures r == FillAbsent(state, source)
  {
  }

  /** `load_state`'s loop over the snapshot's items (app.py:111-113). */
  method LoadState(state: Fields, file: SnapshotFile) returns (r: Fields)
    ensures r == LoadInto(state, file)
  {
    r := state;
    if file.Snapshot? {
      var source := file.fields;
      var todo := source.Keys;
      while todo != {}
        invariant todo <= source.Keys
        invariant forall k :: k in r <==> k in state || (k in source && k !in todo)
        invariant MergedFrom(r, state, source)
        decreases |todo|
      {
        var k :| k in todo;
        MergeStep(r, state, source, k);
        if k !in r {
          r := r[k := source[k]];
        }
        todo := todo - {k};
      }
      MergeComplete(r, state, source);
    }
  }

  /** The value the session holds under `k`, or None when the key is absent
      (only an unset roadmap is). */
  function Field(s: SessionState, k: Key): Option<Value> {
    match k
    case StepKey => Some(IntVal(StepNumber(s.step)))
    case UserNameKey => Some(StrVal(s.userName))
    case SyllabusKey => Some(DictVal(s.syllabusFiles))
    case PyqKey => Some(DictVal(s.pyqFiles))
    case MockKey => Some(DeckVal(s.mockJson))
    case QIndexKey => Some(IntVal(s.qIndex))
    case RoadmapKey =>
      (match s.roadmap
       case NotSet => None
       case Failed => Some(NullVal)
       case Generated(t) => Some(StrVal(t)))
    case ForceRoadmapKey => Some(BoolVal(s.forceRoadmap))
    case ApiKeyKey => Some(StrVal(s.apiKey))
    case ShowModalKey => Some(BoolVal(s.showApiModal))
    case ApiErrorKey => Some(BoolVal(s.apiError))
  }

  /** The session as a dict. */
  function ToFields(s: SessionState): Fields {
    map k: Key | Field(s, k).Some? :: Field(s, k).value
  }

  /** The defaults block (app.py:118-127) over whatever the dict holds: a
      present key keeps its value, a missing one gets its default. */
  function FromFields(f: Fields): SessionState
    requires WellTyped(f)
  {
    SessionState(
      if StepKey in f then StepOf(f[StepKey].i).value else Entry,
      if UserNameKey in f then f[UserNameKey].s else "",
      if SyllabusKey in f then f[SyllabusKey].entries else [],
      if PyqKey in f then f[PyqKey].entries else [],
      if MockKey in f then f[MockKey].cards else [],
      if QIndexKey in f then f[QIndexKey].i else 0,
      if RoadmapKey !in f then NotSet else if f[RoadmapKey].NullVal? then Failed else Generated(f[RoadmapKey].s),
      if ForceRoadmapKey in f then f[ForceRoadmapKey].b else false,
      if ApiKeyKey in f then f[ApiKeyKey].s else "",
      if ShowModalKey in f then f[ShowModalKey].b else false,
      if ApiErrorKey in f then f[ApiErrorKey].b else false)
  }

  /** The dict view and the record agree. */
  lemma FieldsRoundTrip(s: SessionState)
    requires WellFormed(s)
    ensures WellTyped(ToFields(s))
    ensures FromFields(ToFields(s)) == s
  {
    ToFieldsWellTyped(s);
    var f := ToFields(s);
    var r := FromFields(f);
    StepNumbering(s.step, StepNumber(s.step));
    assert r.step == s.step;
    assert r.roadmap == s.roadmap;
  }

  /** Every value the session puts in its dict has the key's type. */
  lemma ToFieldsWellTyped(s: SessionState)
    requires WellFormed(s)
    ensures WellTyped(ToFields(s))
  {
    StepNumbering(s.step, StepNumber(s.step));
    forall k | k in ToFields(s)
      ensures HasType(k, ToFields(s)[k])
    {
    }
  }

  /** Restored sessions are well formed. */
  lemma FromFieldsWellFormed(f: Fields)
    requires WellTyped(f)
    ensures WellFormed(FromFields(f))
  {
  }

  /** What `save_state` writes for the roadmap: `.get("roadmap", "")`, so an
      unset roadmap is saved as "" and a failed one as null. */
  function SavedRoadmap(r: Roadmap): (v: Value) {
    match r
    case NotSet => StrVal("")
    case Failed => NullVal
    case Generated(t) => StrVal(t)
  }

  /** `save_state` (app.py:91-104): the nine saved keys; the `.get` defaults
      never apply to the others, which every session has. */
  function SaveState(s: SessionState): (f: Fields)
    ensures f.Keys == SavedKeys
  {
    map[StepKey := IntVal(StepNumber(s.step)),
        UserNameKey := StrVal(s.userName),
        SyllabusKey := DictVal(s.syllabusFiles),
        PyqKey := DictVal(s.pyqFiles),
        MockKey := DeckVal(s.mockJson),
        QIndexKey := IntVal(s.qIndex),
        RoadmapKey := SavedRoadmap(s.roadmap),
        ForceRoadmapKey := BoolVal(s.forceRoadmap),
        ApiKeyKey := StrVal(s.apiKey)]
  }

  /** Start of a fresh browser session: an empty session dict, `load_state`,
      then the defaults (app.py:117-127). */
  function Startup(file: SnapshotFile): (s: SessionState)
    requires WellFormedFile(file)
    ensures WellFormed(s)
  {
    assert WellTyped(LoadInto(map[], file));
    FromFields(LoadInto(map[], file))
  }

  /** Without a snapshot the session starts at name entry with empty stores. */
  lemma StartupWithoutSnapshot(file: SnapshotFile)
    requires !file.Snapshot?
    ensures Startup(file) == Defaults
  {
  }

  /** The rerun prologue: `load_state` into the live session, then the
      defaults, all of which are already present. */
  function Reload(s: SessionState, file: SnapshotFile): (r: SessionState)
    requires WellFormed(s) && WellFormedFile(file)
  {
    LoadIntoWellTyped(ToFields(s), file, s);
    FromFields(LoadInto(ToFields(s), file))
  }

  lemma LoadIntoWellTyped(f: Fields, file: SnapshotFile, s: SessionState)
    requires WellFormed(s) && f == ToFields(s) && WellFormedFile(file)
    ensures WellTyped(LoadInto(f, file))
  {
    FieldsRoundTrip(s);
    if file.Snapshot? {
      FillAbsentWellTyped(f, file.fields);
    }
  }

  /** A rerun can only restore the roadmap, and only while the session has none. */
  lemma ReloadOnlyRoadmap(s: SessionState, file: SnapshotFile)
    requires WellFormed(s) && WellFormedFile(file)
    ensures Reload(s, file) == s.(roadmap := Reload(s, file).roadmap)
    ensures WellFormed(Reload(s, file))
  {
    var g := LoadInto(ToFields(s), file);
    LoadIntoWellTyped(ToFields(s), file, s);
    LoadIntoKeeps(s, file);
    SessionFromFields(s, g);
  }

  /** A typed dict holding the session's own value under every key but the
      roadmap reads back as the session, up to the roadmap. */
  lemma SessionFromFields(s: SessionState, g: Fields)
    requires WellFormed(s) && WellTyped(g)
    requires forall k :: k != RoadmapKey ==> k in g && Some(g[k]) == Field(s, k)
    ensures FromFields(g) == s.(roadmap := FromFields(g).roadmap)
  {
    StepNumbering(s.step, StepNumber(s.step));
    assert g[StepKey] == IntVal(StepNumber(s.step));
    assert g[UserNameKey] == StrVal(s.userName);
    assert g[SyllabusKey] == DictVal(s.syllabusFiles);
    assert g[PyqKey] == DictVal(s.pyqFiles);
    assert g[MockKey] == DeckVal(s.mockJson);
    assert g[QIndexKey] == IntVal(s.qIndex);
    assert g[ForceRoadmapKey] == BoolVal(s.forceRoadmap);
    assert g[ApiKeyKey] == StrVal(s.apiKey);
    assert g[ShowModalKey] == BoolVal(s.showApiModal);
    assert g[ApiErrorKey] == BoolVal(s.apiError);
  }

  /** With a roadmap in the session, or none in the snapshot, the reload changes nothing. */
  lemma ReloadUnchanged(s: SessionState, file: SnapshotFile)
    requires WellFormed(s) && WellFormedFile(file)
    requires s.roadmap != NotSet || !file.Snapshot? || RoadmapKey !in file.fields
    ensures Reload(s, file) == s
  {
    LoadIntoKeepsAll(s, file);
    FieldsRoundTrip(s);
  }

  /** `load_state` never overwrites a key the session already has. */
  lemma LoadIntoKeeps(s: SessionState, file: SnapshotFile)
    ensures forall k :: k != RoadmapKey ==> k in LoadInto(ToFields(s), file) && LoadInto(ToFields(s), file)[k] == ToFields(s)[k]
    ensures forall k :: k != RoadmapKey ==> k in LoadInto(ToFields(s), file) && Some(LoadInto(ToFields(s), file)[k]) == Field(s, k)
  {
    var f := ToFields(s);
    if file.Snapshot? {
      FillAbsentSpec(f, file.fields);
    }
    forall k | k != RoadmapKey
      ensures k in f
    {
      assert Field(s, k).Some?;
    }
  }

  /** With a roadmap in the session, or none in the file, `load_state` adds nothing. */
  lemma LoadIntoKeepsAll(s: SessionState, file: SnapshotFile)
    requires s.roadmap != NotSet || !file.Snapshot? || RoadmapKey !in file.fields
    ensures LoadInto(ToFields(s), file) == ToFields(s)
  {
    var f := ToFields(s);
    if file.Snapshot? {
      FillAbsentSpec(f, file.fields);
      LoadIntoKeeps(s, file);
      assert RoadmapKey in f <==> s.roadmap != NotSet;
    }
  }

  /** A saved snapshot can be restored. */
  lemma SaveStateWellTyped(s: SessionState)
    requires WellFormed(s)
    ensures WellFormedFile(Snapshot(SaveState(s)))
  {
    StepNumbering(s.step, StepNumber(s.step));
  }

  /** Closing the browser and coming back restores every saved field; an
      unset roadmap comes back as "" and the modal flags, which are not
      saved, come back cleared. */
  lemma RestartRestores(s: SessionState)
    requires WellFormed(s)
    ensures WellFormedFile(Snapshot(SaveState(s)))
    ensures Startup(Snapshot(SaveState(s))) ==
              s.(roadmap := if s.roadmap.NotSet? then Generated("") else s.roadmap,
                 showApiModal := false, apiError := false)
  {
    SaveStateWellTyped(s);
    LoadIntoEmpty(SaveState(s));
    SavedSession(s);
  }

  /** Loading into an empty session yields the file's dict. */
  lemma LoadIntoEmpty(f: Fields)
    ensures LoadInto(map[], Snapshot(f)) == f
  {
    FillAbsentSpec(map[], f);
  }

  /** The session read back from the saved dict. */
  lemma SavedSession(s: SessionState)
    requires WellFormed(s) && WellTyped(SaveState(s))
    ensures FromFields(SaveState(s)) ==
              s.(roadmap := if s.roadmap.NotSet? then Generated("") else s.roadmap,
                 showApiModal := false, apiError := false)
  {
    StepNumbering(s.step, StepNumber(s.step));
  }
}
