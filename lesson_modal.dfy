/**
 * The lesson player of src/components/LessonModal.tsx: the text it reads
 * aloud, the quiz feedback, the voice choices, and the modal's session
 * state (class Session) with its handlers and effects.
 */
module LessonModal {
  import opened Wrappers
  import Js
  import Tts

  datatype Quiz = Quiz(question: string, options: seq<string>, correctAnswerIndex: int)

  /** `Lesson` from src/data/modules (not part of this model): the fields the player reads. */
  datatype Lesson = Lesson(
    id: string,
    title: string,
    content: string,
    keyTakeaways: Option<seq<string>>,
    quiz: Option<Quiz>)

  /**
   * The play button's state: `Start` shows "Play", `Pause` means speech is
   * under way (the button offers "Pause"), `Resume` means it is paused.
   */
  datatype PlayState = Start | Pause | Resume

  // ---------------------------------------------------------------------
  // Text composition
  // ---------------------------------------------------------------------

  /** `keyTakeaways.map((point, i) => `${i + 1}. ${point}`)`. */
  function NumberedTakeaways(points: seq<string>): (entries: seq<string>)
    ensures |entries| == |points|
  {
    seq(|points|, i requires 0 <= i < |points| => Js.NatToString(i + 1) + ". " + points[i])
  }

  const TakeawaysHeading: string := "Key takeaways: "

  /** True when `lesson.keyTakeaways?.length` is truthy. */
  predicate HasTakeaways(lesson: Lesson)
  {
    lesson.keyTakeaways.Some? && |lesson.keyTakeaways.value| > 0
  }

  /**
   * The text read aloud for a lesson: its content with markup stripped
   * (`stripTags` is the foreign `striptags` library), followed, when there
   * are key takeaways, by ". Key takeaways: " and the numbered takeaways
   * joined by ". ".
   */
  function ComposeText(stripTags: string -> string, lesson: Lesson): (text: string)
    ensures stripTags(lesson.content) <= text
    ensures text == stripTags(lesson.content) <==> !HasTakeaways(lesson)
  {
    var plainText := stripTags(lesson.content);
    if HasTakeaways(lesson) then
      plainText + ". " + (TakeawaysHeading + Js.Join(NumberedTakeaways(lesson.keyTakeaways.value), ". "))
    else
      plainText
  }

  /** With a single takeaway the text ends in ". Key takeaways: 1. " and that takeaway. */
  lemma ComposeOneTakeaway(stripTags: string -> string, lesson: Lesson, point: string)
    requires lesson.keyTakeaways == Some([point])
    ensures ComposeText(stripTags, lesson)
         == stripTags(lesson.content) + ". Key takeaways: 1. " + point
  {
  }

  /**
   * One more takeaway at the end adds ". ", its 1-based ordinal, ". " and
   * the takeaway to the end of the text: the entries appear in their
   * original order, each numbered by its position.
   */
  lemma ComposeAppendTakeaway(stripTags: string -> string, lesson: Lesson, point: string)
    requires HasTakeaways(lesson)
    ensures
      var points := lesson.keyTakeaways.value;
      ComposeText(stripTags, lesson.(keyTakeaways := Some(points + [point])))
      == ComposeText(stripTags, lesson) + ". " + Js.NatToString(|points| + 1) + ". " + point
  {
    var points := lesson.keyTakeaways.value;
    var entry := Js.NatToString(|points| + 1) + ". " + point;
    assert NumberedTakeaways(points + [point]) == NumberedTakeaways(points) + [entry];
    Js.JoinSnoc(NumberedTakeaways(points), entry, ". ");
  }

  // ---------------------------------------------------------------------
  // Quiz
  // ---------------------------------------------------------------------

  /** `handleSelectAnswer`'s effect on the recorded answer: the first answer wins. */
  function SelectAnswer(current: Option<int>, index: int): Option<int>
  {
    if current.None? then Some(index) else current
  }

  /** The recorded answer after a sequence of selections, oldest first. */
  function AfterSelections(current: Option<int>, indices: seq<int>): Option<int>
    decreases indices
  {
    if indices == [] then current
    else AfterSelections(SelectAnswer(current, indices[0]), indices[1..])
  }

  /** From a fresh quiz, the first selection is recorded and every later one is ignored. */
  lemma {:induction false} FirstAnswerWins(current: Option<int>, indices: seq<int>)
    ensures current.Some? ==> AfterSelections(current, indices) == current
    ensures current.None? ==>
      AfterSelections(current, indices) == if indices == [] then None else Some(indices[0])
    decreases indices
  {
    if indices != [] {
      FirstAnswerWins(SelectAnswer(current, indices[0]), indices[1..]);
    }
  }

  const CorrectText: string := "Correct!"
  const IncorrectPrefix: string := "Incorrect. Correct answer: "

  /** `options[i]` inside a template literal: "undefined" when `i` is out of range. */
  function OptionText(options: seq<string>, i: int): string
  {
    if 0 <= i < |options| then options[i] else "undefined"
  }

  /**
   * The feedback line under the quiz: nothing until an answer is chosen,
   * then "Correct!" exactly when it is the correct index, and otherwise
   * "Incorrect. Correct answer: " and the text of the correct option.
   */
  function Feedback(quiz: Quiz, selectedAnswer: Option<int>): (r: Option<string>)
    ensures r.None? <==> selectedAnswer.None?
    ensures r == Some(CorrectText) <==> selectedAnswer == Some(quiz.correctAnswerIndex)
    ensures r.Some? && selectedAnswer != Some(quiz.correctAnswerIndex) ==>
      IncorrectPrefix <= r.value &&
      r.value[|IncorrectPrefix|..] == OptionText(quiz.options, quiz.correctAnswerIndex)
    ensures (r.Some? && selectedAnswer != Some(quiz.correctAnswerIndex) &&
             0 <= quiz.correctAnswerIndex < |quiz.options|) ==>
      r.value == IncorrectPrefix + quiz.options[quiz.correctAnswerIndex]
  {
    if selectedAnswer.None? then None
    else if selectedAnswer.value == quiz.correctAnswerIndex then Some(CorrectText)
    else
      var s := IncorrectPrefix + OptionText(quiz.options, quiz.correctAnswerIndex);
      assert s[..|CorrectText|] != CorrectText by { assert s[0] == 'I'; }
      Some(s)
  }

  /** Choosing the wrong option first locks the quiz: a later right answer changes nothing. */
  lemma FeedbackAfterWrongFirst()
    ensures
      var quiz := Quiz("q", ["A", "B", "C"], 1);
      Feedback(quiz, AfterSelections(None, [1])) == Some("Correct!") &&
      Feedback(quiz, AfterSelections(None, [0, 1])) == Some("Incorrect. Correct answer: B")
  {
    var quiz := Quiz("q", ["A", "B", "C"], 1);
    FirstAnswerWins(None, [1]);
    FirstAnswerWins(None, [0, 1]);
    assert OptionText(quiz.options, 1) == "B";
    assert IncorrectPrefix + "B" == "Incorrect. Correct answer: B";
  }

  // ---------------------------------------------------------------------
  // Voices
  // ---------------------------------------------------------------------

  /** The broader prefix of the default-voice choice. */
  const DefaultLangPrefix: string := "en"

  predicate SpeaksEn(v: Tts.Voice)
  {
    DefaultLangPrefix <= v.lang
  }

  /** `allVoices.find((v) => v.lang.startsWith("en")) || allVoices[0]`. */
  function DefaultVoice(allVoices: seq<Tts.Voice>): (v: Tts.Voice)
    requires |allVoices| > 0
    ensures v in allVoices
    ensures (exists i | 0 <= i < |allVoices| :: SpeaksEn(allVoices[i])) ==>
      exists i | 0 <= i < |allVoices| :: allVoices[i] == v && SpeaksEn(v) &&
        forall j | 0 <= j < i :: !SpeaksEn(allVoices[j])
    ensures (forall i | 0 <= i < |allVoices| :: !SpeaksEn(allVoices[i])) ==> v == allVoices[0]
  {
    match Js.Find(allVoices, SpeaksEn)
    case Some(v) => v
    case None => allVoices[0]
  }

  /**
   * Over the list `getVoices` returns, the "en" default is always the first
   * voice: every listed tag starts with "en-", so the fallback never fires.
   */
  lemma DefaultOfListedVoicesIsFirst(platform: seq<Tts.Voice>)
    requires |Tts.GetVoices(platform)| > 0
    ensures DefaultVoice(Tts.GetVoices(platform)) == Tts.GetVoices(platform)[0]
  {
  }

  /** The dropdown's `voices.find((v) => v.name === name) || null`. */
  function VoiceByName(voices: seq<Tts.Voice>, name: string): (r: Option<Tts.Voice>)
    ensures r.None? <==> forall j | 0 <= j < |voices| :: voices[j].name != name
    ensures r.Some? ==>
      exists i | 0 <= i < |voices| :: voices[i] == r.value && r.value.name == name &&
        forall j | 0 <= j < i :: voices[j].name != name
  {
    Js.Find(voices, (v: Tts.Voice) => v.name == name)
  }

  // ---------------------------------------------------------------------
  // Play button
  // ---------------------------------------------------------------------

  /** The play button's next state: start -> pause -> resume -> pause -> ... */
  function Toggled(p: PlayState): PlayState
  {
    match p
    case Start => Pause
    case Pause => Resume
    case Resume => Pause
  }

  function ToggleTimes(p: PlayState, n: nat): PlayState
    decreases n
  {
    if n == 0 then p else ToggleTimes(Toggled(p), n - 1)
  }

  /**
   * Pressing the play button repeatedly never returns to `Start`: from
   * `Start`, odd presses leave speech playing and even ones leave it paused.
   */
  lemma {:induction false} TogglingAlternates(n: nat)
    ensures ToggleTimes(Start, n) == if n == 0 then Start else if n % 2 == 1 then Pause else Resume
  {
    if n > 0 {
      ToggleFromPlaying(n - 1);
    }
  }

  lemma {:induction false} ToggleFromPlaying(n: nat)
    ensures ToggleTimes(Pause, n) == if n % 2 == 0 then Pause else Resume
  {
    if n >= 2 {
      ToggleFromPlaying(n - 2);
    }
  }

  // ---------------------------------------------------------------------
  // The modal's session
  // ---------------------------------------------------------------------

  /**
   * One mounted lesson modal: its props (`show`, `lesson`), its React state,
   * and the speech engine its handlers drive.  Each handler and effect is a
   * method; the engine log records the speech commands they issue.
   */
  class Session {
    /** The platform's global speech engine. */
    const engine: Tts.SpeechEngine
    /** The foreign `striptags` library, an uninterpreted function. */
    const stripTags: string -> string
    /**
     * The `selectedVoice` that `loadVoices` sees: the closure is created by
     * an effect that runs only at mount, so it keeps the value of that
     * render (null) rather than reading the current selection.
     */
    const selectedVoiceAtMount: Option<Tts.Voice>

    // props
    var show: bool
    var lesson: Option<Lesson>

    // state
    var rate: real
    var voices: seq<Tts.Voice>
    var selectedVoice: Option<Tts.Voice>
    var selectedAnswer: Option<int>
    var playState: PlayState

    /** How many times the parent's `onHide` callback has been called. */
    var hideRequests: nat

    /**
     * Voices only ever come from `getVoices`, so every listed and every
     * selected voice is an "en-" voice; while speech is playing or paused,
     * the engine holds exactly one queued utterance, in US English.
     */
    ghost predicate Valid()
      reads this, engine
    {
      selectedVoiceAtMount == None &&
      (forall v | v in voices :: Tts.IsEnglishVoice(v)) &&
      (selectedVoice.Some? ==> Tts.IsEnglishVoice(selectedVoice.value)) &&
      (playState != Start ==>
        |Tts.Pending(engine.log)| == 1 && Tts.Pending(engine.log)[0].lang == Tts.PinnedLang)
    }

    /**
     * Mounting the modal: the initial state, then the mount effect (one
     * `loadVoices` with the platform's current list), then the `[show]`
     * effect, which resets everything when the modal starts hidden.
     */
    constructor (engine: Tts.SpeechEngine, stripTags: string -> string, show: bool,
                 lesson: Option<Lesson>, platform: seq<Tts.Voice>)
      modifies engine
      ensures Valid()
      ensures this.engine == engine && this.stripTags == stripTags
      ensures this.show == show && this.lesson == lesson
      ensures rate == 1.0 && voices == Tts.GetVoices(platform)
      ensures selectedAnswer == None && playState == Start && hideRequests == 0
      ensures selectedVoice == if show && |voices| > 0 then Some(voices[0]) else None
      ensures engine.log == old(engine.log) + if show then [] else [Tts.Cancel]
    {
      this.engine := engine;
      this.stripTags := stripTags;
      this.selectedVoiceAtMount := None;
      this.show := show;
      this.lesson := lesson;
      rate := 1.0;
      voices := [];
      selectedVoice := None;
      selectedAnswer := None;
      playState := Start;
      hideRequests := 0;
      new;
      LoadVoices(platform);
      assert selectedVoice == if |voices| > 0 then Some(voices[0]) else None;
      ghost var loaded := engine.log;
      ShowEffect();
      assert show ==> engine.log == loaded;
    }

    /** `handleSelectAnswer(index)`: only the first answer is recorded. */
    method HandleSelectAnswer(index: int)
      requires Valid()
      modifies this`selectedAnswer
      ensures Valid()
      ensures selectedAnswer == SelectAnswer(old(selectedAnswer), index)
    {
      if selectedAnswer.None? {
        selectedAnswer := Some(index);
      }
    }

    /**
     * `loadVoices` with the platform's list at the time of the call (at
     * mount and on each `voiceschanged`): the listed voices are always
     * replaced; a default voice is chosen when the list is non-empty and the
     * guard's `selectedVoice` (the mount-time one) is null.  Because that is
     * always null, a non-empty list replaces the current selection, even one
     * the user made, by its first voice.
     */
    method LoadVoices(platform: seq<Tts.Voice>)
      requires Valid()
      modifies this`voices, this`selectedVoice
      ensures Valid()
      ensures voices == Tts.GetVoices(platform)
      ensures selectedVoice ==
        if |voices| > 0 && selectedVoiceAtMount.None? then Some(DefaultVoice(voices)) else old(selectedVoice)
      ensures |voices| > 0 ==> selectedVoice == Some(voices[0])
    {
      var allVoices := Tts.GetVoices(platform);
      voices := allVoices;
      if |allVoices| > 0 && selectedVoiceAtMount.None? {
        selectedVoice := Some(DefaultVoice(allVoices));
        DefaultOfListedVoicesIsFirst(platform);
      }
    }

    /** The effect on `[show]`: once hidden, the session is reset and speech stopped. */
    method ShowEffect()
      requires Valid()
      modifies this`selectedAnswer, this`playState, this`rate, this`selectedVoice, engine
      ensures Valid()
      ensures !show ==>
        selectedAnswer == None && playState == Start && rate == 1.0 && selectedVoice == None &&
        engine.log == old(engine.log) + [Tts.Cancel]
      ensures show ==> unchanged(this) && unchanged(engine)
    {
      if !show {
        selectedAnswer := None;
        Tts.Stop(engine);
        playState := Start;
        rate := 1.0;
        selectedVoice := None;
      }
    }

    /**
     * The parent renders the modal with new props; the `[show]` effect runs
     * when `show` has changed.
     */
    method SetProps(newShow: bool, newLesson: Option<Lesson>)
      requires Valid()
      modifies this`show, this`lesson, this`selectedAnswer, this`playState, this`rate,
               this`selectedVoice, engine
      ensures Valid()
      ensures show == newShow && lesson == newLesson
      ensures old(show) && !newShow ==>
        selectedAnswer == None && playState == Start && rate == 1.0 && selectedVoice == None &&
        engine.log == old(engine.log) + [Tts.Cancel]
      ensures !(old(show) && !newShow) ==>
        selectedAnswer == old(selectedAnswer) && playState == old(playState) && rate == old(rate) &&
        selectedVoice == old(selectedVoice) && unchanged(engine)
    {
      var changed := newShow != show;
      show, lesson := newShow, newLesson;
      if changed {
        ShowEffect();
      }
    }

    /**
     * `handleTogglePlay`: nothing without a lesson; otherwise from `Start`
     * speak the composed text at the current rate with the selected voice,
     * from `Pause` pause the engine, from `Resume` resume it.
     */
    method HandleTogglePlay()
      requires Valid()
      modifies this`playState, engine
      ensures Valid()
      ensures lesson.None? ==> playState == old(playState) && engine.log == old(engine.log)
      ensures lesson.Some? ==> playState == Toggled(old(playState))
      ensures lesson.Some? && old(playState) == Start ==>
        var u := Tts.NewUtterance(ComposeText(stripTags, lesson.value), rate, selectedVoice);
        engine.log == old(engine.log) + [Tts.Cancel, Tts.Enqueue(u)] &&
        Tts.Pending(engine.log) == [u] && u.voice == selectedVoice
      ensures lesson.Some? && old(playState) == Pause ==> engine.log == old(engine.log) + [Tts.Pause]
      ensures lesson.Some? && old(playState) == Resume ==> engine.log == old(engine.log) + [Tts.Resume]
    {
      if lesson.None? {
        return;
      }
      match playState
      case Start =>
        var textToRead := ComposeText(stripTags, lesson.value);
        Tts.Speak(engine, textToRead, rate, selectedVoice);
        Tts.SpeakLeavesOnlyItsUtterance(old(engine.log), Tts.NewUtterance(textToRead, rate, selectedVoice));
        playState := Pause;
      case Pause =>
        engine.Pause();
        Tts.PauseResumeKeepQueue(old(engine.log));
        playState := Resume;
      case Resume =>
        engine.Resume();
        Tts.PauseResumeKeepQueue(old(engine.log));
        playState := Pause;
    }

    /** `handleStop`: cancel speech and go back to `Start`, from any state. */
    method HandleStop()
      requires Valid()
      modifies this`playState, engine
      ensures Valid()
      ensures playState == Start
      ensures engine.log == old(engine.log) + [Tts.Cancel] && Tts.Pending(engine.log) == []
    {
      Tts.Stop(engine);
      Tts.StopIsIdempotent(old(engine.log));
      playState := Start;
    }

    /** The footer's Close button: stop, go back to `Start`, then tell the parent. */
    method Close()
      requires Valid()
      modifies this`playState, this`hideRequests, engine
      ensures Valid()
      ensures playState == Start && hideRequests == old(hideRequests) + 1
      ensures engine.log == old(engine.log) + [Tts.Cancel]
    {
      Tts.Stop(engine);
      playState := Start;
      hideRequests := hideRequests + 1;
    }

    /** The modal's `onHide` (backdrop or Escape): the same steps as Close. */
    method OnHide()
      requires Valid()
      modifies this`playState, this`hideRequests, engine
      ensures Valid()
      ensures playState == Start && hideRequests == old(hideRequests) + 1
      ensures engine.log == old(engine.log) + [Tts.Cancel]
    {
      Tts.Stop(engine);
      playState := Start;
      hideRequests := hideRequests + 1;
    }

    /** The speed slider: the new rate is stored as given. */
    method SetRate(newRate: real)
      requires Valid()
      modifies this`rate
      ensures Valid()
      ensures rate == newRate
    {
      rate := newRate;
    }

    /** The voice dropdown: select the first listed voice with that name, or none. */
    method SelectVoiceByName(name: string)
      requires Valid()
      modifies this`selectedVoice
      ensures Valid()
      ensures selectedVoice == VoiceByName(voices, name)
    {
      selectedVoice := VoiceByName(voices, name);
    }
  }
}
