/** The model gateway (`get_gemini_response`): which credential is used and
    what context each request carries. The model itself is an external
    collaborator: a function from credential and request to a reply, or None
    when the call raised. */
module Gateway {
  import opened Wrappers
  import opened Text
  import opened Artifacts

  /** Python truthiness of an optional string: present and non-empty. */
  predicate Truthy(o: Option<string>) {
    o.Some? && o.value != ""
  }

  /** The credential `api_key_override or st.session_state.get("api_key") or
      os.getenv("GEMINI_API_KEY")` (app.py:27): Python's `or` yields the first
      truthy operand, or the last operand when none is truthy. */
  function EffectiveKey(override: Option<string>, sessionKey: string, env: Option<string>): (r: Option<string>)
    ensures Truthy(r) <==> Truthy(override) || sessionKey != "" || Truthy(env)
    ensures Truthy(override) ==> r == override
    ensures !Truthy(override) && sessionKey != "" ==> r == Some(sessionKey)
    ensures !Truthy(override) && sessionKey == "" ==> r == env
  {
    if Truthy(override) then override
    else if sessionKey != "" then Some(sessionKey)
    else env
  }

  /** A chain `x0 or x1 or ... or xn` of optional strings. */
  function FirstTruthy(xs: seq<Option<string>>): (r: Option<string>)
    requires |xs| > 0
  {
    if |xs| == 1 || Truthy(xs[0]) then xs[0] else FirstTruthy(xs[1..])
  }

  /** The value of an `or` chain is its first truthy operand, or its last operand. */
  lemma {:induction false} FirstTruthyIsFirst(xs: seq<Option<string>>)
    requires |xs| > 0
    ensures (exists i :: 0 <= i < |xs| && Truthy(xs[i])) ==>
              exists i :: 0 <= i < |xs| && FirstTruthy(xs) == xs[i] && Truthy(xs[i]) &&
                          forall j :: 0 <= j < i ==> !Truthy(xs[j])
    ensures (forall i :: 0 <= i < |xs| ==> !Truthy(xs[i])) ==> FirstTruthy(xs) == xs[|xs| - 1]
  {
    if |xs| > 1 && !Truthy(xs[0]) {
      FirstTruthyIsFirst(xs[1..]);
      if exists i :: 0 <= i < |xs| && Truthy(xs[i]) {
        var i :| 0 <= i < |xs| && Truthy(xs[i]);
        assert Truthy(xs[1..][i - 1]);
        var k :| 0 <= k < |xs[1..]| && FirstTruthy(xs[1..]) == xs[1..][k] && Truthy(xs[1..][k]) &&
                 forall j :: 0 <= j < k ==> !Truthy(xs[1..][j]);
        forall j | 0 <= j < k + 1 ensures !Truthy(xs[j]) {
          if j > 0 {
            assert xs[j] == xs[1..][j - 1];
          }
        }
      }
    }
  }

  /** The credential precedence is exactly the three-operand `or` chain. */
  lemma EffectiveKeyIsOrChain(override: Option<string>, sessionKey: string, env: Option<string>)
    ensures EffectiveKey(override, sessionKey, env) == FirstTruthy([override, Some(sessionKey), env])
  {
    var xs := [override, Some(sessionKey), env];
    assert xs[1..] == [Some(sessionKey), env];
    assert xs[1..][1..] == [env];
    assert FirstTruthy(xs[1..][1..]) == env;
    assert FirstTruthy(xs[1..]) == if Truthy(Some(sessionKey)) then Some(sessionKey) else env;
  }

  /** Longest syllabus and PYQ context in a roadmap request (app.py:700-702). */
  const RoadmapContextLimit: nat := 15000
  /** Longest PYQ context in a mock-exam request (app.py:763). */
  const MockContextLimit: nat := 25000

  /** What a request carries; the instruction wording is not modelled. */
  datatype Prompt =
    | RoadmapPrompt(syllabus: string, pyqs: Option<string>, days: nat, hours: nat)
    | MockExamPrompt(data: string)

  /** The model: a reply, or None when the call raised (auth, quota, network, ...). */
  type Model = (Option<string>, Prompt) -> Option<string>

  /** The roadmap request: merged syllabus text cut to 15000 characters, and the
      merged PYQ text cut the same way only when PYQs are loaded. */
  function RoadmapRequest(syllabus: Store, pyqs: Store, days: nat, hours: nat): (p: Prompt)
    ensures p.RoadmapPrompt? && p.days == days && p.hours == hours
    ensures p.syllabus <= MergedText(syllabus)
    ensures |MergedText(syllabus)| <= RoadmapContextLimit ==> p.syllabus == MergedText(syllabus)
    ensures |p.syllabus| == if |MergedText(syllabus)| <= RoadmapContextLimit then |MergedText(syllabus)| else RoadmapContextLimit
    ensures p.pyqs.Some? <==> |pyqs| > 0
    ensures p.pyqs.Some? ==> p.pyqs.value <= MergedText(pyqs)
    ensures p.pyqs.Some? ==>
              |p.pyqs.value| == if |MergedText(pyqs)| <= RoadmapContextLimit then |MergedText(pyqs)| else RoadmapContextLimit
  {
    RoadmapPrompt(Take(MergedText(syllabus), RoadmapContextLimit),
                  if |pyqs| > 0 then Some(Take(MergedText(pyqs), RoadmapContextLimit)) else None,
                  days, hours)
  }

  /** The mock-exam request: merged PYQ text cut to 25000 characters. */
  function MockExamRequest(pyqs: Store): (p: Prompt)
    ensures p.MockExamPrompt? && p.data <= MergedText(pyqs)
    ensures |MergedText(pyqs)| <= MockContextLimit ==> p.data == MergedText(pyqs)
    ensures |p.data| == if |MergedText(pyqs)| <= MockContextLimit then |MergedText(pyqs)| else MockContextLimit
  {
    MockExamPrompt(Take(MergedText(pyqs), MockContextLimit))
  }
}
