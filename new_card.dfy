/**
 * The new-note card: a chooser between dictating and typing, a text buffer,
 * a recording flag, and the one speech recogniser the module keeps. Each
 * event handler is a transition on that state; the speech recogniser's
 * result callback rebuilds the buffer from all results received so far.
 */
module Capture {
  import opened Wrappers

  /**
   * The browser speech recogniser as far as the card configures it: its
   * language, whether it keeps listening after a pause, how many readings it
   * returns per segment, whether it delivers interim results, and whether it
   * has been started and not yet stopped.
   */
  datatype Recognizer = Recognizer(
    lang: string, continuous: bool, maxAlternatives: nat, interimResults: bool, listening: bool)

  /**
   * `option`: the mode chooser is shown (instead of the text area);
   * `content`: the buffer; `isRecording`: dictation is on;
   * `speech`: the module-level recogniser, None until the first recording.
   */
  datatype CardState = CardState(
    option: bool, content: string, isRecording: bool, speech: Option<Recognizer>)

  /** What saving does: the next state, and the content handed to `onNoteCreated`, if any. */
  datatype SaveOutcome = SaveOutcome(state: CardState, created: Option<string>)

  /** A freshly mounted card: chooser shown, empty buffer, not recording. */
  function Initial(speech: Option<Recognizer>): (s: CardState)
    ensures s.option && s.content == "" && !s.isRecording && s.speech == speech
  {
    CardState(true, "", false, speech)
  }

  /** Choosing to type hides the chooser and changes nothing else. */
  function StartEditor(s: CardState): (t: CardState)
    ensures !t.option
    ensures t.content == s.content && t.isRecording == s.isRecording && t.speech == s.speech
  {
    s.(option := false)
  }

  /** Editing sets the buffer; emptying it brings the chooser back. */
  function ContentChange(s: CardState, value: string): (t: CardState)
    ensures t.content == value
    ensures t.option == (value == "" || s.option)
    ensures t.isRecording == s.isRecording && t.speech == s.speech
  {
    if value == "" then s.(content := value, option := true) else s.(content := value)
  }

  /**
   * Saving an empty buffer does nothing. Otherwise the buffer is handed on
   * once, then cleared, and the chooser comes back; recording is untouched.
   */
  function SaveNote(s: CardState): (o: SaveOutcome)
    ensures s.content == "" ==> o.state == s && o.created == None
    ensures s.content != "" ==> o.created == Some(s.content)
    ensures s.content != "" ==> o.state.content == "" && o.state.option
    ensures o.state.isRecording == s.isRecording && o.state.speech == s.speech
  {
    if s.content == "" then SaveOutcome(s, None)
    else SaveOutcome(s.(content := "", option := true), Some(s.content))
  }

  /** A newly constructed recogniser, before the card configures and starts it (the browser's defaults). */
  function FreshRecognizer(): Recognizer
  {
    Recognizer("", false, 1, false, false)
  }

  /** The recogniser the card creates and starts: Brazilian Portuguese, continuous, one reading, interim results. */
  function NewRecognizer(): (r: Recognizer)
    ensures r.lang == "pt-BR" && r.continuous && r.maxAlternatives == 1 && r.interimResults
    ensures r.listening
  {
    Recognizer("pt-BR", true, 1, true, true)
  }

  /**
   * Starting dictation without a speech API changes nothing. With one, a new
   * recogniser replaces the module-level one (which is not stopped first),
   * recording is on and the chooser is hidden; the buffer is kept.
   */
  function StartRecording(s: CardState, available: bool): (t: CardState)
    ensures !available ==> t == s
    ensures available ==> t.isRecording && !t.option && t.speech == Some(NewRecognizer())
    ensures t.content == s.content
  {
    if !available then s
    else s.(isRecording := true, option := false, speech := Some(NewRecognizer()))
  }

  /** Stopping turns recording off and stops the recogniser if there is one. */
  function StopRecording(s: CardState): (t: CardState)
    ensures !t.isRecording
    ensures t.speech.None? <==> s.speech.None?
    ensures s.speech.Some? ==> t.speech == Some(s.speech.value.(listening := false))
    ensures t.content == s.content && t.option == s.option
  {
    var speech := if s.speech.Some? then Some(s.speech.value.(listening := false)) else None;
    s.(isRecording := false, speech := speech)
  }

  // ---------------------------------------------------------------- transcripts

  /** Every result carries at least one reading, so `result[0]` exists. */
  predicate HasReadings(results: seq<seq<string>>)
  {
    forall i :: 0 <= i < |results| ==> |results[i]| > 0
  }

  /**
   * The transcript of a result list: `reduce` from the left, appending the
   * first reading of each result to the text so far, starting from ''.
   */
  function Transcript(results: seq<seq<string>>): (text: string)
    requires HasReadings(results)
    decreases |results|
  {
    if results == [] then ""
    else Transcript(results[..|results| - 1]) + results[|results| - 1][0]
  }

  /** The transcript of two result lists one after the other is the two transcripts joined. */
  lemma {:induction false} TranscriptAppend(a: seq<seq<string>>, b: seq<seq<string>>)
    requires HasReadings(a) && HasReadings(b)
    ensures HasReadings(a + b)
    ensures Transcript(a + b) == Transcript(a) + Transcript(b)
    decreases |b|
  {
    var ab := a + b;
    assert HasReadings(ab) by {
      forall i | 0 <= i < |ab| ensures |ab[i]| > 0 {
        if i >= |a| { assert ab[i] == b[i - |a|]; }
      }
    }
    if b == [] {
      assert ab == a;
    } else {
      var init := b[..|b| - 1];
      TranscriptAppend(a, init);
      assert ab[..|ab| - 1] == a + init;
    }
  }

  /** One result contributes its first reading. */
  lemma TranscriptSingle(r: seq<string>)
    requires |r| > 0
    ensures HasReadings([r]) && Transcript([r]) == r[0]
  {
    assert [r][..0] == [];
  }

  /**
   * Read from the front: the first result's reading, then the transcript of
   * the rest (the in-order concatenation of every first reading).
   */
  lemma TranscriptFront(results: seq<seq<string>>)
    requires HasReadings(results) && results != []
    ensures HasReadings(results[1..])
    ensures Transcript(results) == results[0][0] + Transcript(results[1..])
  {
    assert results == [results[0]] + results[1..];
    TranscriptSingle(results[0]);
    TranscriptAppend([results[0]], results[1..]);
  }

  /** Each result event replaces the buffer with the transcript of all results so far. */
  function ResultEvent(s: CardState, results: seq<seq<string>>): (t: CardState)
    requires HasReadings(results)
    ensures t.content == Transcript(results)
    ensures t.option == s.option && t.isRecording == s.isRecording && t.speech == s.speech
  {
    s.(content := Transcript(results))
  }

  /** Replace, not append: after two events the buffer is the second event's transcript. */
  lemma ResultEventsReplace(s: CardState, first: seq<seq<string>>, second: seq<seq<string>>)
    requires HasReadings(first) && HasReadings(second)
    ensures ResultEvent(ResultEvent(s, first), second).content == Transcript(second)
  {
  }

  /** The interim reading "hello" superseded by "hello world" leaves "hello world", not "hellohello world". */
  lemma HelloWorldScenario(s: CardState)
    ensures ResultEvent(ResultEvent(s, [["hello"]]), [["hello world"]]).content == "hello world"
    ensures ResultEvent(ResultEvent(s, [["hello"]]), [["hello"], [" world"]]).content == "hello world"
  {
    TranscriptSingle(["hello world"]);
    TranscriptFront([["hello"], [" world"]]);
    TranscriptSingle([" world"]);
  }

  /** Stopping twice is stopping once. */
  lemma StopRecordingIdempotent(s: CardState)
    ensures StopRecording(StopRecording(s)) == StopRecording(s)
  {
  }

  /** Dictate "call mo", then "call mom", stop, save: the note created is "call mom". */
  lemma CallMomScenario(s: CardState)
    ensures var recording := StartRecording(s, true);
      var heard := ResultEvent(ResultEvent(recording, [["call mo"]]), [["call mom"]]);
      SaveNote(StopRecording(heard)).created == Some("call mom")
  {
    TranscriptSingle(["call mom"]);
  }

  // ---------------------------------------------------------------- the card

  /** The card component, its three state variables and the module-level recogniser. */
  class NewCard {
    var option: bool
    var content: string
    var isRecording: bool
    var speechRecognition: Option<Recognizer>

    function State(): (s: CardState)
      reads this
      ensures s.option == option && s.content == content
      ensures s.isRecording == isRecording && s.speech == speechRecognition
    {
      CardState(option, content, isRecording, speechRecognition)
    }

    /** Mounting the card; the module-level recogniser keeps whatever it held. */
    constructor (speech: Option<Recognizer>)
      ensures State() == Initial(speech)
    {
      option := true;
      content := "";
      isRecording := false;
      speechRecognition := speech;
    }

    method HandleStartEditor()
      modifies this
      ensures State() == StartEditor(old(State()))
    {
      option := false;
    }

    method HandleContentChange(value: string)
      modifies this
      ensures State() == ContentChange(old(State()), value)
    {
      content := value;
      if value == "" {
        option := true;
      }
    }

    /** Returns the content passed to `onNoteCreated`, or None when nothing is saved. */
    method HandleSaveNote() returns (created: Option<string>)
      modifies this
      ensures SaveOutcome(State(), created) == SaveNote(old(State()))
    {
      if content == "" {
        return None;
      }
      created := Some(content);
      content := "";
      option := true;
    }

    /** `available`: the browser offers a speech recognition API. */
    method HandleStartRecording(available: bool)
      modifies this
      ensures State() == StartRecording(old(State()), available)
    {
      if !available {
        return;
      }
      isRecording := true;
      option := false;
      var recognizer := FreshRecognizer();
      recognizer := recognizer.(lang := "pt-BR");
      recognizer := recognizer.(continuous := true);
      recognizer := recognizer.(maxAlternatives := 1);
      recognizer := recognizer.(interimResults := true);
      recognizer := recognizer.(listening := true);
      speechRecognition := Some(recognizer);
    }

    /** The recogniser's result callback, given every result of the session so far. */
    method OnResult(results: seq<seq<string>>)
      requires HasReadings(results)
      modifies this
      ensures State() == ResultEvent(old(State()), results)
    {
      content := Transcript(results);
    }

    method HandleStopRecording()
      modifies this
      ensures State() == StopRecording(old(State()))
    {
      isRecording := false;
      if speechRecognition.Some? {
        speechRecognition := Some(speechRecognition.value.(listening := false));
      }
    }
  }
}
