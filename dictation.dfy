/**
 * Dictation into a text area (components/TextAreaGroup.tsx): how the
 * recognised phrases of one result event are joined into a transcript,
 * how that transcript is merged into the text, and the listen button's
 * flag. The speech engine itself is outside the model; its events come
 * in as values.
 */
module Dictation {

  /** One recognition result: its alternatives, best first. The engine always gives at least one. */
  type SpeechResult = alternatives: seq<string> | |alternatives| > 0 witness [""]

  /** A result event: every result of the session so far, and the index of the first new one. */
  datatype ResultEvent = ResultEvent(results: seq<SpeechResult>, resultIndex: nat)

  /** The best alternatives of `results`, one after the other. */
  function Joined(results: seq<SpeechResult>): string {
    if results == [] then "" else results[0][0] + Joined(results[1..])
  }

  lemma {:induction false} JoinedAppend(a: seq<SpeechResult>, b: seq<SpeechResult>)
    ensures Joined(a + b) == Joined(a) + Joined(b)
  {
    if a != [] {
      assert (a + b)[1..] == a[1..] + b;
      JoinedAppend(a[1..], b);
    } else {
      assert a + b == b;
    }
  }

  /** The text an event contributes: its new results, from `resultIndex` to the end. */
  function TranscriptOf(e: ResultEvent): string {
    if e.resultIndex < |e.results| then Joined(e.results[e.resultIndex..]) else ""
  }

  /** The loop in `onresult` that collects the new results' best alternatives. */
  method Transcript(e: ResultEvent) returns (transcript: string)
    ensures transcript == TranscriptOf(e)
  {
    transcript := "";
    var i := e.resultIndex;
    while i < |e.results|
      invariant e.resultIndex <= i
      invariant i < |e.results| ==> transcript == Joined(e.results[e.resultIndex..i])
      invariant i >= |e.results| ==> transcript == TranscriptOf(e)
      decreases |e.results| - i
    {
      JoinedAppend(e.results[e.resultIndex..i], [e.results[i]]);
      assert e.results[e.resultIndex..i] + [e.results[i]] == e.results[e.resultIndex..i + 1];
      transcript := transcript + e.results[i][0];
      i := i + 1;
      if i == |e.results| {
        assert e.results[e.resultIndex..i] == e.results[e.resultIndex..];
      }
    }
  }

  /** Whether the text ends with a plain space (`endsWith(' ')`). */
  predicate EndsWithSpace(value: string) {
    value != "" && value[|value| - 1] == ' '
  }

  /** The text after dictating `transcript` into `value`. */
  function Merge(value: string, transcript: string): string {
    value + (if value != "" && !EndsWithSpace(value) then " " else "") + transcript
  }

  /**
   * The merge keeps the old text in front and the new phrase at the end,
   * with one space between them exactly when the old text is non-empty and
   * does not already end in a space.
   */
  lemma MergeLaw(value: string, transcript: string)
    ensures var r := Merge(value, transcript);
      && value <= r
      && r[|r| - |transcript|..] == transcript
      && (value == "" ==> r == transcript)
      && (EndsWithSpace(value) ==> r == value + transcript)
      && (value != "" && !EndsWithSpace(value) ==>
            |r| == |value| + 1 + |transcript| && r[|value|] == ' ')
  {
    var r := Merge(value, transcript);
    assert r[..|value|] == value;
  }

  /** The text a result event leaves, merged into the text it was given. */
  function OnResult(value: string, e: ResultEvent): string {
    Merge(value, TranscriptOf(e))
  }

  /**
   * The text after a run of events as the handler is written: the handler
   * keeps the text of the moment listening started, so every event merges
   * into that, and only the last one shows.
   */
  function TextAfterAsWritten(start: string, events: seq<ResultEvent>): string {
    if events == [] then start else OnResult(start, events[|events| - 1])
  }

  /** The text after a run of events when each merges into the text the previous one left. */
  function TextAfter(current: string, events: seq<ResultEvent>): string
    decreases |events|
  {
    if events == [] then current else TextAfter(OnResult(current, events[0]), events[1..])
  }

  /** Dictating one more event merges it into the text so far. */
  lemma {:induction false} TextAfterAppend(current: string, events: seq<ResultEvent>, e: ResultEvent)
    ensures TextAfter(current, events + [e]) == OnResult(TextAfter(current, events), e)
    decreases |events|
  {
    if events == [] {
      assert TextAfter(current, [e]) == TextAfter(OnResult(current, e), []);
    } else {
      assert (events + [e])[1..] == events[1..] + [e];
      TextAfterAppend(OnResult(current, events[0]), events[1..], e);
    }
  }

  /** Dictation only adds: the text before it is kept in front of the text after it. */
  lemma {:induction false} TextOnlyExtends(current: string, events: seq<ResultEvent>)
    ensures current <= TextAfter(current, events)
    decreases |events|
  {
    if events != [] {
      var next := OnResult(current, events[0]);
      MergeLaw(current, TranscriptOf(events[0]));
      TextOnlyExtends(next, events[1..]);
      assert TextAfter(next, events[1..])[..|current|] == next[..|current|];
    }
  }

  /** Two phrases, "가" and then "나", dictated into an empty text area in one session. */
  function TwoPhrases(): seq<ResultEvent> {
    [ResultEvent([["가"]], 0), ResultEvent([["가"], ["나"]], 1)]
  }

  /** As written, the first phrase is lost; merged step by step, both phrases are kept. */
  lemma StaleTextLosesPhrases()
    ensures TextAfterAsWritten("", TwoPhrases()) == "나"
    ensures TextAfter("", TwoPhrases()) == "가 나"
  {
    var es := TwoPhrases();
    var r0: SpeechResult := ["가"];
    var r1: SpeechResult := ["나"];
    assert es[1].results[1..] == [r1];
    assert TranscriptOf(es[1]) == "나" + Joined([]);
    assert TranscriptOf(es[0]) == "가" + Joined([]);
    assert OnResult("", es[0]) == "가";
    assert OnResult("가", es[1]) == "가" + " " + "나";
    assert TextAfter("", es) == TextAfter("가", es[1..]);
    assert TextAfter("가", es[1..]) == TextAfter("가 나", []);
  }

  /** What pressing the microphone button did. */
  datatype Action = Refused | StopRequested | StartRequested

  /**
   * One text area's dictation state: whether the browser supports speech
   * recognition, whether it is listening, whether a session was ever
   * created, and the area's text.
   */
  class Recognizer {
    const supported: bool
    var listening: bool
    var hasSession: bool
    var text: string

    /** Listening implies there is a session to stop. */
    ghost predicate Valid()
      reads this
    {
      listening ==> hasSession
    }

    constructor (supported: bool, text: string)
      ensures Valid() && this.supported == supported && !listening && !hasSession && this.text == text
    {
      this.supported := supported;
      listening := false;
      hasSession := false;
      this.text := text;
    }

    /**
     * `toggleListening`. Unsupported: nothing changes. Listening: the
     * session is stopped and the flag cleared. Idle: a session is started;
     * the flag is set only when the engine reports the start.
     */
    method Toggle() returns (action: Action)
      requires Valid()
      modifies this
      ensures Valid() && text == old(text)
      ensures !supported ==> action == Refused && listening == old(listening) && hasSession == old(hasSession)
      ensures supported && old(listening) ==> action == StopRequested && !listening && hasSession
      ensures supported && !old(listening) ==> action == StartRequested && !listening && hasSession
    {
      if !supported {
        return Refused;
      }
      if listening {
        if hasSession {
          listening := false;
        }
        action := StopRequested;
      } else {
        hasSession := true;
        action := StartRequested;
      }
    }

    /** `onstart`. */
    method Started()
      requires Valid() && hasSession
      modifies this
      ensures Valid() && listening && hasSession && text == old(text)
    {
      listening := true;
    }

    /** `onend`, `onerror`, or a failure to start. */
    method Ended()
      requires Valid()
      modifies this
      ensures Valid() && !listening && hasSession == old(hasSession) && text == old(text)
    {
      listening := false;
    }

    /** `onresult`, merging the new phrases into the current text. */
    method Heard(e: ResultEvent)
      modifies this
      ensures text == OnResult(old(text), e)
      ensures old(text) <= text
      ensures listening == old(listening) && hasSession == old(hasSession)
    {
      var transcript := Transcript(e);
      MergeLaw(text, transcript);
      text := Merge(text, transcript);
    }
  }
}
