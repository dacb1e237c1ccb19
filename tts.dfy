/**
 * The speech adapter of src/utils/tts.ts: three commands over the
 * platform's speech-synthesis engine.  The engine itself is abstract: an
 * append-only log of the commands it has received, and a function that
 * says which utterances those commands leave queued.
 */
module Tts {
  import opened Wrappers

  /** A platform voice; the player only ever reads its name and language tag. */
  datatype Voice = Voice(name: string, lang: string)

  /**
   * The attributes of a speech-synthesis utterance that the adapter sets.
   * `voice == None` means the engine picks its default voice for `lang`.
   */
  datatype Utterance = Utterance(text: string, lang: string, rate: real, voice: Option<Voice>)

  /** The engine operations the player issues (`speak`, `pause`, `resume`, `cancel`). */
  datatype Command = Enqueue(utterance: Utterance) | Pause | Resume | Cancel

  /** The language every utterance is pinned to. */
  const PinnedLang: string := "en-US"

  /** The language-tag prefix a voice needs to be listed or attached. */
  const EnglishPrefix: string := "en-"

  predicate IsEnglishVoice(v: Voice)
  {
    EnglishPrefix <= v.lang
  }

  /** The platform's global speech engine, seen through the commands sent to it. */
  class SpeechEngine {
    var log: seq<Command>

    constructor ()
      ensures log == []
    {
      log := [];
    }

    /** `speechSynthesis.speak(u)`: queue an utterance. */
    method Speak(u: Utterance)
      modifies this
      ensures log == old(log) + [Enqueue(u)]
    {
      log := log + [Enqueue(u)];
    }

    /** `speechSynthesis.cancel()`. */
    method Cancel()
      modifies this
      ensures log == old(log) + [Command.Cancel]
    {
      log := log + [Command.Cancel];
    }

    /** `speechSynthesis.pause()`. */
    method Pause()
      modifies this
      ensures log == old(log) + [Command.Pause]
    {
      log := log + [Command.Pause];
    }

    /** `speechSynthesis.resume()`. */
    method Resume()
      modifies this
      ensures log == old(log) + [Command.Resume]
    {
      log := log + [Command.Resume];
    }
  }

  /**
   * The utterances a command log leaves in the engine's queue: `cancel`
   * empties it, `speak` appends to it, pause and resume leave it as it is.
   * Utterances that finish on their own are not modelled.
   */
  function Pending(log: seq<Command>): (q: seq<Utterance>)
    ensures forall u | u in q :: Enqueue(u) in log
  {
    if log == [] then []
    else
      var front := log[..|log| - 1];
      var rest := Pending(front);
      assert forall c | c in front :: c in log;
      match log[|log| - 1]
      case Enqueue(u) => rest + [u]
      case Cancel => []
      case _ => rest
  }

  /** A cancel forgets everything before it. */
  lemma {:induction false} CancelForgets(before: seq<Command>, after: seq<Command>)
    ensures Pending(before + [Cancel] + after) == Pending(after)
  {
    var log := before + [Cancel] + after;
    if after == [] {
      assert log[..|log| - 1] == before;
    } else {
      var front := after[..|after| - 1];
      assert log[..|log| - 1] == before + [Cancel] + front;
      assert log[|log| - 1] == after[|after| - 1];
      CancelForgets(before, front);
    }
  }

  /** The utterance `speak` builds for its arguments. */
  function NewUtterance(text: string, rate: real, voice: Option<Voice>): (u: Utterance)
    ensures u.text == text && u.rate == rate
    ensures u.lang == PinnedLang
    ensures u.voice.Some? <==> voice.Some? && IsEnglishVoice(voice.value)
    ensures u.voice.Some? ==> u.voice == voice
  {
    Utterance(text, PinnedLang, rate, if voice.Some? && IsEnglishVoice(voice.value) then voice else None)
  }

  /**
   * `speak(text, rate = 1, voice?)`: cancel whatever is speaking, then queue
   * one fresh utterance of `text`, pinned to US English, at `rate`, with
   * `voice` attached only when it is an English voice.
   */
  method Speak(engine: SpeechEngine, text: string, rate: real := 1.0, voice: Option<Voice> := None)
    modifies engine
    ensures engine.log == old(engine.log) + [Cancel, Enqueue(NewUtterance(text, rate, voice))]
  {
    Stop(engine);
    // new SpeechSynthesisUtterance(text): the platform defaults for the rest
    var utterance := Utterance(text, "", 1.0, None);
    utterance := utterance.(lang := PinnedLang);
    utterance := utterance.(rate := rate);
    if voice.Some? && IsEnglishVoice(voice.value) {
      utterance := utterance.(voice := voice);
    }
    engine.Speak(utterance);
  }

  /** `stop()`: one cancel and nothing else. */
  method Stop(engine: SpeechEngine)
    modifies engine
    ensures engine.log == old(engine.log) + [Cancel]
  {
    engine.Cancel();
  }

  /** After `speak`, exactly the new utterance is queued, whatever came before. */
  lemma SpeakLeavesOnlyItsUtterance(log: seq<Command>, u: Utterance)
    ensures Pending(log + [Cancel, Enqueue(u)]) == [u]
  {
    CancelForgets(log, [Enqueue(u)]);
  }

  /** After `stop`, nothing is queued; a second `stop` changes nothing more. */
  lemma StopIsIdempotent(log: seq<Command>)
    ensures Pending(log + [Cancel]) == []
    ensures Pending(log + [Cancel] + [Cancel]) == Pending(log + [Cancel])
  {
  }

  /** Two `speak`s in a row: only the second utterance is left. */
  lemma SecondSpeakReplacesFirst(log: seq<Command>, u1: Utterance, u2: Utterance)
    ensures Pending(log + [Cancel, Enqueue(u1)] + [Cancel, Enqueue(u2)]) == [u2]
  {
    SpeakLeavesOnlyItsUtterance(log + [Cancel, Enqueue(u1)], u2);
  }

  /** Pause and resume leave the queue as it is. */
  lemma PauseResumeKeepQueue(log: seq<Command>)
    ensures Pending(log + [Pause]) == Pending(log)
    ensures Pending(log + [Resume]) == Pending(log)
  {
  }

  /** `s` is `t` with some elements left out, order kept. */
  predicate IsSubsequence<T(==)>(s: seq<T>, t: seq<T>)
  {
    if s == [] then true
    else if t == [] then false
    else if s[0] == t[0] then IsSubsequence(s[1..], t[1..])
    else IsSubsequence(s, t[1..])
  }

  /**
   * `getVoices()`: the platform voices whose language tag starts with
   * "en-", in platform order, each as often as the platform lists it.
   */
  function GetVoices(platform: seq<Voice>): (r: seq<Voice>)
    ensures IsSubsequence(r, platform)
    ensures forall v | v in r :: IsEnglishVoice(v)
  {
    if platform == [] then []
    else
      var rest := GetVoices(platform[1..]);
      if IsEnglishVoice(platform[0]) then [platform[0]] + rest else rest
  }

  /**
   * `getVoices` drops no English voice: each voice occurs in the result as
   * often as in the platform list when it is English, and never otherwise.
   * With the subsequence property this determines the result.
   */
  lemma {:induction false} GetVoicesCounts(platform: seq<Voice>, v: Voice)
    ensures multiset(GetVoices(platform))[v] == if IsEnglishVoice(v) then multiset(platform)[v] else 0
  {
    if platform != [] {
      GetVoicesCounts(platform[1..], v);
      assert platform == [platform[0]] + platform[1..];
    }
  }
}
