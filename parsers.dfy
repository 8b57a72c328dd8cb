/** The two clean-up routines applied to model replies: stripping Markdown code
    fences from a roadmap (app.py:737-742) and cutting the JSON array out of a
    mock-exam reply (app.py:780-785). */
module Parsers {
  import opened Wrappers
  import opened Text

  const JsonFence: string := "```json"
  const Fence: string := "```"

  /** The roadmap clean-up, written with `split` as the application does:
      the piece after the first "```json" (or the first "```"), cut at the
      next fence, then stripped. */
  function StripFences(raw: string): (r: string) {
    if Contains(raw, JsonFence) then Strip(Split(Split(raw, JsonFence)[1], Fence)[0])
    else if Contains(raw, Fence) then Strip(Split(Split(raw, Fence)[1], Fence)[0])
    else Strip(raw)
  }

  /** The three cases of the clean-up, in terms of the text around the first
      fence. In the "```json" case the piece is first cut at a second "```json"
      (the second `split`) and only then at the next "```". */
  lemma StripFencesCases(raw: string)
    ensures Contains(raw, JsonFence) ==>
              StripFences(raw) == Strip(Before(Before(After(raw, JsonFence), JsonFence), Fence))
    ensures !Contains(raw, JsonFence) && Contains(raw, Fence) ==>
              StripFences(raw) == Strip(Before(After(raw, Fence), Fence))
    ensures !Contains(raw, JsonFence) && !Contains(raw, Fence) ==> StripFences(raw) == Strip(raw)
  {
    if Contains(raw, JsonFence) {
      SplitSpec(raw, JsonFence);
      SplitFirst(Split(raw, JsonFence)[1], Fence);
    }
    if !Contains(raw, JsonFence) && Contains(raw, Fence) {
      SplitSpec(raw, Fence);
      SplitFirst(Split(raw, Fence)[1], Fence);
      var b := Before(After(raw, Fence), Fence);
      BeforeHasNoSep(After(raw, Fence), Fence);
      assert Before(b, Fence) == b;
    }
  }

  /** Where a "```json" occurs, a "```" occurs too. */
  lemma JsonFenceHasFence(y: string, k: int)
    requires OccursAt(y, JsonFence, k)
    ensures OccursAt(y, Fence, k)
  {
    assert y[k..k + 3] == y[k..k + 7][..3];
  }

  /** Unless a second "```json" overlaps the closing "```" (as in "````json"),
      the roadmap is the stripped text between the first "```json" and the
      next "```", or the end of the reply when no fence follows. */
  lemma StripFencesJsonBody(raw: string)
    requires Contains(raw, JsonFence)
    requires var y := After(raw, JsonFence);
             !(IndexOf(y, Fence) < IndexOf(y, JsonFence) < IndexOf(y, Fence) + |Fence|)
    ensures StripFences(raw) == Strip(Before(After(raw, JsonFence), Fence))
  {
    StripFencesCases(raw);
    var y := After(raw, JsonFence);
    var k := IndexOf(y, JsonFence);
    if k != -1 {
      var j := IndexOf(y, Fence);
      JsonFenceHasFence(y, k);
      assert j != -1 && j <= k;
      var b := Before(y, JsonFence);
      assert b == y[..k];
      IndexOfPrefix(y, Fence, k);
      if j == k {
        assert Before(b, Fence) == b;
      } else {
        assert |Fence| == 3 && j + 3 <= k;
        assert Before(b, Fence) == b[..j] == y[..j];
      }
    }
  }

  /** A mock-exam card as the deck decoder yields it. */
  datatype Card = Card(question: string, marks: string, tags: seq<string>, answer: string)

  /** `json.loads` applied to the cut-out array: the deck, or None when it raised. */
  type DeckDecoder = string -> Option<seq<Card>>

  /** The array cut (app.py:780-784): from the first '[' through the last ']',
      provided both exist and the ']' comes after the '['. */
  function BracketSlice(raw: string): (r: Option<string>)
  {
    var start := IndexOf(raw, "[");
    var end := LastIndexOf(raw, "]");
    if start != -1 && end != -1 && end > start then Some(raw[start..end + 1]) else None
  }

  /** The cut exists exactly when some '[' precedes some ']'; it then starts
      with a '[' that has none before it and ends with a ']' that has none
      after it. */
  lemma BracketSliceSpec(raw: string)
    ensures BracketSlice(raw).Some? <==> exists i, j :: 0 <= i < j < |raw| && raw[i] == '[' && raw[j] == ']'
    ensures BracketSlice(raw).Some? ==>
              var r := BracketSlice(raw).value;
              |r| >= 2 && r[0] == '[' && r[|r| - 1] == ']' &&
              exists i :: 0 <= i <= |raw| - |r| && r == raw[i..i + |r|] && '[' !in raw[..i] && ']' !in raw[i + |r|..]
  {
    var start := IndexOf(raw, "[");
    var end := LastIndexOf(raw, "]");
    FindChar(raw, '[');
    RFindChar(raw, ']');
    assert "[" == ['['] && "]" == [']'];
    if start != -1 && end != -1 && end > start {
      var r := raw[start..end + 1];
      assert r == raw[start..start + |r|];
    }
  }

  /** The outcome of reading a mock-exam reply. */
  datatype DeckParse = Deck(cards: seq<Card>) | NoArray | DecodeError

  /** Cut the array out of the reply and decode it; no partial result on
      failure. There is no array exactly when no '[' precedes a ']';
      otherwise the text decoded runs from the first '[' to the last ']', and
      the reply yields a deck exactly when that text decodes. */
  function ParseDeck(raw: string, decode: DeckDecoder): (r: DeckParse)
    ensures r.NoArray? <==> !exists i, j :: 0 <= i < j < |raw| && raw[i] == '[' && raw[j] == ']'
    ensures !r.NoArray? ==>
              exists i, j :: 0 <= i < j < |raw| && raw[i] == '[' && raw[j] == ']' &&
                '[' !in raw[..i] && ']' !in raw[j + 1..] &&
                (r.Deck? <==> decode(raw[i..j + 1]).Some?) &&
                (r.Deck? ==> Some(r.cards) == decode(raw[i..j + 1]))
  {
    BracketSliceSpec(raw);
    FindChar(raw, '[');
    RFindChar(raw, ']');
    assert "[" == ['['] && "]" == [']'];
    match BracketSlice(raw)
    case None => NoArray
    case Some(text) =>
      match decode(text)
      case Some(cards) => Deck(cards)
      case None => DecodeError
  }
}
