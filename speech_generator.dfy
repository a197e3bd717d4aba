/** The SpeechGenerator component: a text field and the handle of the last
    synthesized audio, changed by typing and by the guarded `generateSpeech`
    handler. */
module SpeechGenerator {
  import opened Effects

  /** One snapshot of the component's state; `audioUrl` is null on mount. */
  datatype Speech = Speech(text: string, audioUrl: Option<Url>)

  const Initial := Speech("", None)

  /** GET /genspeech?text=... */
  datatype SpeechRequest = GenSpeech(text: string)

  /** The request `generateSpeech` sends from state s, if any. The guard is
      JavaScript truthiness, so only the empty string is refused. */
  function SpeechQuery(s: Speech): (q: Option<SpeechRequest>)
    ensures q.None? <==> s.text == ""
    ensures q.Some? ==> q.value.text == s.text
  {
    if s.text == "" then None else Some(GenSpeech(s.text))
  }

  /** Text made only of blanks, tabs or line breaks passes the guard and is
      sent as it is. */
  lemma WhitespaceIsNotRefused(s: Speech)
    requires s.text != ""
    requires forall i :: 0 <= i < |s.text| ==> s.text[i] in " \t\n\r"
    ensures SpeechQuery(s) == Some(GenSpeech(s.text))
  {
  }

  /** `generateSpeech` run to its end. `synthesized` stands for the fetch, the
      read of its body and the object URL made for it: Ok with that URL when
      all three resolve, Fail when one of them rejects. It is not consulted
      when the guard refuses the text. The text is never changed. */
  function Synthesize(s: Speech, synthesized: Outcome<Url>): (r: Speech)
    ensures r.text == s.text
    ensures s.text == "" ==> r == s
    ensures s.text != "" && synthesized.Ok? ==> r.audioUrl == Some(synthesized.value)
    ensures synthesized.Fail? ==> r == s
  {
    if s.text == "" then s
    else match synthesized
      case Ok(url) => s.(audioUrl := Some(url))
      case Fail => s
  }

  /** Typing in the input field: only `text` changes. */
  function Typed(s: Speech, t: string): (r: Speech)
    ensures r.text == t && r.audioUrl == s.audioUrl
  {
    s.(text := t)
  }

  datatype Event = TextEntered(entered: string) | GenerateClicked(synthesized: Outcome<Url>)

  function Step(s: Speech, e: Event): Speech {
    match e
    case TextEntered(t) => Typed(s, t)
    case GenerateClicked(o) => Synthesize(s, o)
  }

  function Run(s: Speech, es: seq<Event>): Speech
    decreases |es|
  {
    if es == [] then s else Step(Run(s, es[..|es| - 1]), es[|es| - 1])
  }

  /** Event i of es is a click on a non-empty text whose synthesis produced u. */
  ghost predicate SynthesizedAt(es: seq<Event>, i: int, u: Url)
    requires 0 <= i < |es|
  {
    && es[i] == GenerateClicked(Ok(u))
    && Run(Initial, es[..i]).text != ""
  }

  /** The audio handle is null until a synthesis succeeds, and the one shown
      is the one a successful synthesis produced. */
  lemma {:induction false} AudioComesFromSynthesis(es: seq<Event>)
    ensures Run(Initial, es).audioUrl.Some? ==>
      exists i :: 0 <= i < |es| && SynthesizedAt(es, i, Run(Initial, es).audioUrl.value)
    decreases |es|
  {
    if es != [] {
      var n := |es| - 1;
      var pre := es[..n];
      var s := Run(Initial, pre);
      var r := Run(Initial, es);
      assert r == Step(s, es[n]);
      if r.audioUrl.Some? {
        var u := r.audioUrl.value;
        if es[n].GenerateClicked? && es[n].synthesized.Ok? && s.text != "" {
          assert SynthesizedAt(es, n, u);
        } else {
          assert s.audioUrl == r.audioUrl;
          AudioComesFromSynthesis(pre);
          var i :| 0 <= i < |pre| && SynthesizedAt(pre, i, u);
          assert pre[..i] == es[..i];
          assert SynthesizedAt(es, i, u);
        }
      }
    }
  }

  class Component {
    var text: string
    var audioUrl: Option<Url>

    function Snapshot(): Speech
      reads this
    {
      Speech(text, audioUrl)
    }

    constructor ()
      ensures Snapshot() == Initial
    {
      text := "";
      audioUrl := None;
    }

    /** The input field's change handler. */
    method SetText(t: string)
      modifies this`text
      ensures Snapshot() == Typed(old(Snapshot()), t)
    {
      text := t;
    }

    /** `generateSpeech`; returns the request it sends, if any. Only
        `audioUrl` may change. */
    method GenerateSpeech(synthesized: Outcome<Url>) returns (request: Option<SpeechRequest>)
      modifies this`audioUrl
      ensures request == SpeechQuery(old(Snapshot()))
      ensures Snapshot() == Synthesize(old(Snapshot()), synthesized)
    {
      if text == "" {
        return None;
      }
      request := Some(GenSpeech(text));
      match synthesized
      case Ok(url) => audioUrl := Some(url);
      case Fail =>
    }
  }
}
