# Lesson player: a Dafny model

This project models the lesson player of a training-content web app. The player is a modal dialog that shows a lesson and reads it aloud through the browser's speech-synthesis engine. The model has two parts:

- **The speech adapter** (`src/utils/tts.ts`, module `Tts`). `speak` cancels whatever is speaking. It then queues one utterance pinned to `"en-US"`, at the given rate, and attaches the given voice only when that voice's language tag starts with `"en-"`. `stop` cancels. `getVoices` keeps the platform voices with an `"en-"` tag, in platform order.
  - The engine is a class, `SpeechEngine`, whose only state is an append-only log of the commands it has received (`Enqueue`, `Pause`, `Resume`, `Cancel`).
  - `Pending(log)` gives the engine's queue: a cancel empties it, a speak adds to it. From this the model proves that each `speak` leaves exactly its own utterance queued, and that a second `stop` changes nothing more.
- **The lesson session** (`src/components/LessonModal.tsx`, module `LessonModal`). The class `Session` has the component's props (`show`, `lesson`) and its React state (`rate`, `voices`, `selectedVoice`, `selectedAnswer`, `playState`). Each handler and effect is a method.
  - Its invariant `Valid()` says that every listed and every selected voice is an `"en-"` voice.
  - It also says that while speech is playing or paused, the engine holds exactly one queued, US-English utterance.
  - The pure parts are functions, with lemmas about them: the text read aloud, the quiz feedback, the default-voice choice, the dropdown lookup and the play button's state machine.
- The JavaScript built-ins these rely on are modelled in module `Js`: `Array.prototype.find`, `Array.prototype.join` and the decimal rendering of an ordinal inside a template literal. `Js` also proves that this rendering reads back to the same number.

Modelling choices:

- `striptags` is a foreign library. It is a parameter of type `string -> string`, held by the session as `stripTags`.
- The platform's voice list is the argument of `LoadVoices`. That method can be called any number of times: once at mount, and once for each `voiceschanged` notification.
- A rate is a `real` and is passed through unchanged. The component has no clamping. The only range on the rate is the slider's `min={0.5} max={2} step={0.1}` markup (src/components/LessonModal.tsx:167-169), and no code clamps a value, so no clamping is modelled.
- The guard of `loadVoices` (`!selectedVoice`, src/components/LessonModal.tsx:40) sits in a closure created by a mount-only effect. It therefore reads the selection as it was at mount, which is always null.
  - The model keeps that value in the constant field `selectedVoiceAtMount`, and `Valid()` fixes it to `None`. So, as written, every non-empty voice list makes `LoadVoices` select its first voice, replacing a voice the user picked. `LoadVoices` states this in its contract.
  - The guard is evidently meant to keep an existing selection, but the stale closure defeats it. The model follows the code as written.
- When `correctAnswerIndex` is out of range, the feedback template reads `options[i]`, which is `undefined`. The model renders the word `"undefined"` (`OptionText`) rather than requiring an in-range index.
- The parent's `onHide` callback is a call into code outside the session. Close and `onHide` count their calls to it in `hideRequests`. The parent's reaction arrives as a later `SetProps` with `show == false`.
- React's batching of state updates within one handler is modelled as running the updates in order. For every handler here, the result is the same.

## Model

| member | source | states |
|---|---|---|
| Js.Find | src/components/LessonModal.tsx:42 | the result is absent exactly when no element satisfies the predicate; otherwise it is the element at the first index that satisfies it |
| Js.JoinSnoc | src/components/LessonModal.tsx:77-79 | joining one more item appends the separator and that item to the joined string |
| Js.NatToString | src/components/LessonModal.tsx:78 | an ordinal renders as a non-empty string of decimal digits with no leading zero |
| Js.ParseNatToString | src/components/LessonModal.tsx:78 | reading the rendered digits back gives the number (round trip) |
| Js.NatToStringInjective | src/components/LessonModal.tsx:78 | distinct ordinals render as distinct strings |
| Tts.SpeechEngine.Speak | src/utils/tts.ts:9 | `speechSynthesis.speak` appends exactly one Enqueue of the utterance to the engine log |
| Tts.SpeechEngine.Cancel | src/utils/tts.ts:13 | `speechSynthesis.cancel` appends exactly one Cancel |
| Tts.SpeechEngine.Pause | src/components/LessonModal.tsx:86 | `speechSynthesis.pause` appends exactly one Pause |
| Tts.SpeechEngine.Resume | src/components/LessonModal.tsx:89 | `speechSynthesis.resume` appends exactly one Resume |
| Tts.Pending | src/utils/tts.ts:2 | every utterance still queued was enqueued by some command of the log |
| Tts.CancelForgets | src/utils/tts.ts:2 | after a cancel, the queue depends only on the commands that follow it |
| Tts.NewUtterance | src/utils/tts.ts:3-8 | the utterance has the given text and rate and lang "en-US"; it carries a voice iff one was passed whose lang starts with "en-", and then it is that voice |
| Tts.Speak | src/utils/tts.ts:1-10 | the log grows by exactly a Cancel followed by one Enqueue of NewUtterance(text, rate, voice); rate defaults to 1 and voice to none |
| Tts.Stop | src/utils/tts.ts:12-14 | the log grows by exactly one Cancel |
| Tts.SpeakLeavesOnlyItsUtterance | src/utils/tts.ts:2-9 | after speak, the engine queue is exactly the new utterance, whatever came before |
| Tts.StopIsIdempotent | src/utils/tts.ts:12-14 | after stop the queue is empty; a second stop leaves the same queue |
| Tts.SecondSpeakReplacesFirst | src/utils/tts.ts:1-10 | two speaks without a stop between them leave only the second utterance queued |
| Tts.PauseResumeKeepQueue | src/components/LessonModal.tsx:85-90 | pausing or resuming the engine leaves its queue unchanged |
| Tts.GetVoices | src/utils/tts.ts:16-20 | the result is a subsequence of the platform list, in its order, and every voice in it has a lang starting with "en-" |
| Tts.GetVoicesCounts | src/utils/tts.ts:16-20 | every "en-" voice occurs in the result as often as in the platform list, and no other voice occurs |
| LessonModal.ComposeText | src/components/LessonModal.tsx:71-81 | the text starts with the stripped content, and equals it exactly when the lesson has no takeaways or an empty list |
| LessonModal.ComposeOneTakeaway | src/components/LessonModal.tsx:74-81 | with one takeaway p the text is stripped content + ". Key takeaways: " + "1. " + p |
| LessonModal.ComposeAppendTakeaway | src/components/LessonModal.tsx:74-81 | one more takeaway p at the end appends ". " + its 1-based ordinal + ". " + p, so the entries appear in order and each is numbered by its position |
| LessonModal.FirstAnswerWins | src/components/LessonModal.tsx:30-34 | over any sequence of selections, a fresh quiz records the first index; once an answer is recorded it never changes |
| LessonModal.Feedback | src/components/LessonModal.tsx:146-158 | there is no feedback until an answer is chosen; it is "Correct!" iff the answer is the correct index; otherwise it is "Incorrect. Correct answer: " followed by the correct option's text when the index is in range, and by "undefined" when it is not |
| LessonModal.FeedbackAfterWrongFirst | src/components/LessonModal.tsx:146-158 | with options A, B, C and correct index 1: selecting 1 gives "Correct!"; selecting 0 and then 1 gives "Incorrect. Correct answer: B" |
| LessonModal.DefaultVoice | src/components/LessonModal.tsx:41-43 | the default is a listed voice: the first whose lang starts with "en" if there is one, and the first voice otherwise |
| LessonModal.DefaultOfListedVoicesIsFirst | src/components/LessonModal.tsx:38-43 | over a list returned by getVoices, the default is always its first voice |
| LessonModal.VoiceByName | src/components/LessonModal.tsx:180-183 | the result is none iff no listed voice has the name; otherwise it is the first listed voice with that name |
| LessonModal.TogglingAlternates | src/components/LessonModal.tsx:70-91 | pressing play n > 0 times from start never returns to start: odd counts leave the state at pause, even counts at resume |
| LessonModal.ToggleFromPlaying | src/components/LessonModal.tsx:85-91 | from pause, toggling alternates resume and pause |
| LessonModal.Session.constructor | src/components/LessonModal.tsx:22-65 | mounting: rate 1, no answer, state start, voices = getVoices(platform); if shown, the first listed voice is selected and no command is issued; if hidden, the selection is cleared and one cancel is issued |
| LessonModal.Session.HandleSelectAnswer | src/components/LessonModal.tsx:30-34 | the answer is recorded only when none is recorded yet; no other field changes |
| LessonModal.Session.LoadVoices | src/components/LessonModal.tsx:37-45 | voices are replaced by getVoices(platform); the default is chosen only when the list is non-empty and the guard's (mount-time) selection is null, else the selection is unchanged; as written, a non-empty list selects its first voice |
| LessonModal.Session.ShowEffect | src/components/LessonModal.tsx:57-65 | when hidden: answer cleared, state start, rate 1, voice cleared, exactly one cancel issued; when shown: nothing changes |
| LessonModal.Session.SetProps | src/components/LessonModal.tsx:65 | the reset of ShowEffect happens exactly when show changes from true to false; otherwise state and engine log are unchanged |
| LessonModal.Session.HandleTogglePlay | src/components/LessonModal.tsx:67-92 | without a lesson, no state change and no command; from start: cancel, then one Enqueue of the composed text at the current rate with the selected voice, which then is the only queued utterance, then state pause; from pause: one engine pause, then resume; from resume: one engine resume, then pause |
| LessonModal.Session.HandleStop | src/components/LessonModal.tsx:94-97 | from any state: one cancel, state start, empty engine queue |
| LessonModal.Session.Close | src/components/LessonModal.tsx:212-216 | one cancel and state start, then one notification of the parent |
| LessonModal.Session.OnHide | src/components/LessonModal.tsx:105-109 | one cancel and state start, then one notification of the parent |
| LessonModal.Session.SetRate | src/components/LessonModal.tsx:171 | the slider's value is stored as the rate, unclamped |
| LessonModal.Session.SelectVoiceByName | src/components/LessonModal.tsx:180-184 | the selection becomes VoiceByName(voices, name) and stays an "en-" voice |

## Left out

- Rendering: the JSX, react-bootstrap and FontAwesome components, CSS, the button labels and icons, and the `dangerouslySetInnerHTML` body. All of this is user interface.
- `striptags` internals: a foreign library, so it is an uninterpreted parameter. The model therefore proves nothing about tags being removed.
- Audio, timing and the natural end of an utterance. The engine's queue only loses utterances on cancel, so an utterance that finishes on its own is still counted as queued.
- The engine's own paused flag: pause and resume are logged, but what the engine does with them beyond the queue is not modelled.
- Registering `loadVoices` as `onvoiceschanged` (src/components/LessonModal.tsx:47-52) and the `typeof window` check: platform wiring. Instead, `LoadVoices` can be called any number of times with the platform's list of the moment.
- `parseFloat`, `toFixed` and the slider's `min`/`max`/`step`: floating-point and markup. The rate is a `real` passed through unchanged.
- Utterance attributes the adapter never sets (pitch, volume) and the platform's default lang of a fresh utterance (modelled as the empty string and immediately overwritten).
- `Session.Valid`: it assumes the session is the only user of the engine. In the browser the engine is global, and other code could also queue speech on it.
- src/pages/Modules.tsx (lesson list and modal-open flag), src/components/MainBrandLogo.tsx and src/App.tsx: page state and presentational components with no logic for this model. src/data/modules is not part of this model; only the `Lesson` fields the player reads are modelled.
