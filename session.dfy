/**
 * The dictation session controller of `PollyApp` (GroqDictate/Main.swift):
 * the "FnKeyDown"/"FnKeyUp" receivers, `startRecording`, `stopRecording` and
 * the transcription task they launch.
 *
 * The pure functions below describe one reaction of the controller to one
 * event: the next state and the side effects it issues, in order (overlay,
 * recorder, upload, paste).  `Run` folds them over a trace of events, and the
 * class `PollyApp` performs the same reactions by updating its fields in place
 * and appending to a ghost log of effects.
 *
 * There is no "transcribing" state: `stopRecording` clears `isRecording` before
 * it launches the transcription task, so an upload in flight is only an entry
 * in `pending` and its completion is an event of its own.
 */
module Session {
  import opened Wrappers
  import opened Text
  import HallucinationFilter
  import GroqApi
  import Utf8

  /** Wall-clock time in whole milliseconds. */
  type Millis = int

  /** A hold shorter than half a second is discarded. */
  const MinimumRecordingMillis: int := 500

  /** The three persisted settings the session reads. */
  datatype Settings = Settings(apiKey: string, model: string, language: string)

  /** The stored defaults: no key, `whisper-large-v3`, English. */
  const DefaultSettings := Settings("", "whisper-large-v3", "en")

  /** What the controller does to the world outside its own fields. */
  datatype Effect =
    | ShowOverlay
    | HideOverlay
    | StartRecorder
    | StopRecorder
      /** A transcription task is launched with the settings of that moment. */
    | Upload(id: nat, settings: Settings)
      /** The pasteboard manager is asked to paste this text. */
    | Paste(text: string)

  /**
   * The controller's fields.  `pending` holds the transcription tasks that
   * have been launched and have not finished, each with the settings it
   * was launched with; `nextUpload` names the next one.
   */
  datatype State = State(
    isRecording: bool,
    recordingStartTime: Option<Millis>,
    transcription: string,
    settings: Settings,
    pending: map<nat, Settings>,
    nextUpload: nat)

  /** What arrives at the controller. */
  datatype Event =
    | FnKeyDown(now: Millis)
      /** `audioFileExists` is whether the recorder reports an audio file URL. */
    | FnKeyUp(now: Millis, audioFileExists: bool)
    | TranscriptionFinished(id: nat, result: Result<string, GroqApi.ApiError>)
    | SettingsEdited(settings: Settings)

  /** One reaction: the next state and the effects issued, in order. */
  datatype Reaction = Reaction(next: State, effects: seq<Effect>)

  /** The state at launch, with whatever settings were persisted. */
  function Launch(settings: Settings): State {
    State(false, None, "", settings, map[], 0)
  }

  /** What holds in every reachable state. */
  ghost predicate Inv(s: State) {
    (s.isRecording ==> s.recordingStartTime.Some?) &&
    forall id :: id in s.pending ==> id < s.nextUpload
  }

  /**
   * `startRecording`: a blank API key stops it with no effect at all;
   * otherwise recording begins now, the overlay is shown and the recorder started.
   */
  function Start(s: State, now: Millis): (r: Reaction)
    ensures r.next.isRecording <==> s.isRecording || !IsBlank(s.settings.apiKey)
    ensures IsBlank(s.settings.apiKey) ==> r == Reaction(s, [])
    ensures !IsBlank(s.settings.apiKey) ==>
              r.next.recordingStartTime == Some(now) && r.effects == [ShowOverlay, StartRecorder]
    ensures r.next == s.(isRecording := r.next.isRecording, recordingStartTime := r.next.recordingStartTime)
  {
    if IsBlank(s.settings.apiKey) then
      Reaction(s, [])
    else
      Reaction(s.(isRecording := true, recordingStartTime := Some(now)), [ShowOverlay, StartRecorder])
  }

  /** The measured length of the hold; a missing start time measures zero. */
  function Elapsed(s: State, now: Millis): int {
    now - s.recordingStartTime.GetOr(now)
  }

  /**
   * `stopRecording`: when recording, it always stops, hides the overlay and
   * stops the recorder; it then launches a transcription task only for a hold of
   * at least half a second whose audio file exists.
   */
  function Stop(s: State, now: Millis, audioFileExists: bool): (r: Reaction)
    ensures !s.isRecording ==> r == Reaction(s, [])
    ensures s.isRecording ==>
              !r.next.isRecording && 2 <= |r.effects| <= 3 && r.effects[..2] == [HideOverlay, StopRecorder]
    ensures |r.effects| == 3 <==>
              s.isRecording && Elapsed(s, now) >= MinimumRecordingMillis && audioFileExists
    ensures |r.effects| == 3 ==>
              r.effects[2] == Upload(s.nextUpload, s.settings) &&
              r.next.pending == s.pending[s.nextUpload := s.settings] &&
              r.next.nextUpload == s.nextUpload + 1
    ensures |r.effects| < 3 ==> r.next.pending == s.pending && r.next.nextUpload == s.nextUpload
    ensures r.next.recordingStartTime == s.recordingStartTime
    ensures r.next.transcription == s.transcription && r.next.settings == s.settings
  {
    if !s.isRecording then
      Reaction(s, [])
    else
      var stopped := s.(isRecording := false);
      if Elapsed(s, now) < MinimumRecordingMillis || !audioFileExists then
        Reaction(stopped, [HideOverlay, StopRecorder])
      else
        Reaction(stopped.(pending := s.pending[s.nextUpload := s.settings], nextUpload := s.nextUpload + 1),
                 [HideOverlay, StopRecorder, Upload(s.nextUpload, s.settings)])
  }

  /** The "FnKeyDown" receiver: acted on only while idle. */
  function KeyDown(s: State, now: Millis): (r: Reaction)
    ensures s.isRecording ==> r == Reaction(s, [])
    ensures !s.isRecording ==> r == Start(s, now)
    ensures r.effects == [] || r.effects == [ShowOverlay, StartRecorder]
    ensures r.effects == [] <==> s.isRecording || IsBlank(s.settings.apiKey)
  {
    if !s.isRecording then Start(s, now) else Reaction(s, [])
  }

  /** The "FnKeyUp" receiver: acted on only while recording. */
  function KeyUp(s: State, now: Millis, audioFileExists: bool): (r: Reaction)
    ensures !s.isRecording ==> r == Reaction(s, [])
    ensures s.isRecording ==> r == Stop(s, now, audioFileExists)
    ensures !r.next.isRecording
  {
    if s.isRecording then Stop(s, now, audioFileExists) else Reaction(s, [])
  }

  /**
   * The end of a transcription task: a failure is dropped, a hallucination is
   * dropped, and any other text becomes the latest transcription and is pasted
   * exactly as returned.
   */
  function Finish(s: State, id: nat, result: Result<string, GroqApi.ApiError>): (r: Reaction)
    ensures r.next.pending == s.pending - {id}
    ensures r.effects != [] <==>
              id in s.pending && result.Success? && !HallucinationFilter.IsHallucination(result.value)
    ensures r.effects != [] ==> r.effects == [Paste(result.value)] && r.next.transcription == result.value
    ensures r.effects == [] ==> r.next.transcription == s.transcription
    ensures r.next == s.(pending := r.next.pending, transcription := r.next.transcription)
  {
    if id !in s.pending then
      Reaction(s, [])
    else
      var done := s.(pending := s.pending - {id});
      match result
      case Failure(_) => Reaction(done, [])
      case Success(text) =>
        if HallucinationFilter.IsHallucination(text) then Reaction(done, [])
        else Reaction(done.(transcription := text), [Paste(text)])
  }

  /** The settings window writes new values; the controller reads them at its next reaction. */
  function Edit(s: State, settings: Settings): Reaction {
    Reaction(s.(settings := settings), [])
  }

  /** One event. */
  function Step(s: State, e: Event): Reaction {
    match e
    case FnKeyDown(now) => KeyDown(s, now)
    case FnKeyUp(now, audioFileExists) => KeyUp(s, now, audioFileExists)
    case TranscriptionFinished(id, result) => Finish(s, id, result)
    case SettingsEdited(settings) => Edit(s, settings)
  }

  /** A trace of events, in order; the effects are concatenated. */
  function Run(s: State, events: seq<Event>): Reaction
    decreases |events|
  {
    if events == [] then
      Reaction(s, [])
    else
      var first := Step(s, events[0]);
      var rest := Run(first.next, events[1..]);
      Reaction(rest.next, first.effects + rest.effects)
  }

  /**
   * The five shapes a reaction can take: nothing; start; stop; stop and launch a
   * transcription task; paste.  Only the last changes `transcription`, to the
   * text it pastes.
   */
  predicate Shaped(s: State, r: Reaction) {
    (r.effects == [] && r.next.isRecording == s.isRecording && r.next.transcription == s.transcription) ||
    (r.effects == [ShowOverlay, StartRecorder] && !s.isRecording && r.next.isRecording &&
     r.next.transcription == s.transcription) ||
    (r.effects == [HideOverlay, StopRecorder] && s.isRecording && !r.next.isRecording &&
     r.next.transcription == s.transcription) ||
    (r.effects == [HideOverlay, StopRecorder, Upload(s.nextUpload, s.settings)] && s.isRecording &&
     !r.next.isRecording && r.next.transcription == s.transcription) ||
    (r.effects == [Paste(r.next.transcription)] && r.next.isRecording == s.isRecording)
  }

  lemma StepShape(s: State, e: Event)
    ensures Shaped(s, Step(s, e))
  {
    var r := Step(s, e);
    if e.FnKeyUp? && s.isRecording {
      if |r.effects| == 3 {
        assert r.effects == r.effects[..2] + [r.effects[2]];
      } else {
        assert r.effects == r.effects[..2];
      }
    }
  }

  // ---------------------------------------------------------------- invariant

  lemma LaunchSatisfiesInv(settings: Settings)
    ensures Inv(Launch(settings))
  {
  }

  /** Every event keeps the invariant. */
  lemma StepPreservesInv(s: State, e: Event)
    requires Inv(s)
    ensures Inv(Step(s, e).next)
  {
  }

  lemma {:induction false} RunPreservesInv(s: State, events: seq<Event>)
    requires Inv(s)
    ensures Inv(Run(s, events).next)
    decreases |events|
  {
    if events != [] {
      StepPreservesInv(s, events[0]);
      RunPreservesInv(Step(s, events[0]).next, events[1..]);
    }
  }

  // ------------------------------------------------------- pastes vs uploads

  datatype Kind = PasteKind | UploadKind

  predicate OfKind(e: Effect, k: Kind) {
    match k
    case PasteKind => e.Paste?
    case UploadKind => e.Upload?
  }

  /** How many of `effects` are of kind `k`. */
  function Count(effects: seq<Effect>, k: Kind): nat {
    if effects == [] then 0 else (if OfKind(effects[0], k) then 1 else 0) + Count(effects[1..], k)
  }

  lemma {:induction false} CountAppend(a: seq<Effect>, b: seq<Effect>, k: Kind)
    ensures Count(a + b, k) == Count(a, k) + Count(b, k)
  {
    if a == [] {
      assert a + b == b;
    } else {
      assert (a + b)[1..] == a[1..] + b;
      CountAppend(a[1..], b, k);
    }
  }

  lemma CountOne(e: Effect, k: Kind)
    ensures Count([e], k) == if OfKind(e, k) then 1 else 0
  {
    assert [e][1..] == [];
  }

  /**
   * Stopping launches at most one task, and that task is new; so it adds at
   * most one pending task for the one upload it issues, and pastes nothing.
   */
  lemma StopPastesBoundedByUploads(s: State, now: Millis, audioFileExists: bool)
    requires Inv(s)
    ensures Count(Stop(s, now, audioFileExists).effects, UploadKind) <= 1
    ensures |Stop(s, now, audioFileExists).effects| == 3 ==> s.nextUpload !in s.pending
    ensures Count(Stop(s, now, audioFileExists).effects, PasteKind) + |Stop(s, now, audioFileExists).next.pending|
            <= Count(Stop(s, now, audioFileExists).effects, UploadKind) + |s.pending|
  {
    var r := Stop(s, now, audioFileExists);
    var es := r.effects;
    if es != [] {
      assert es == [HideOverlay] + [StopRecorder] + es[2..];
      CountAppend([HideOverlay] + [StopRecorder], es[2..], PasteKind);
      CountAppend([HideOverlay] + [StopRecorder], es[2..], UploadKind);
      CountAppend([HideOverlay], [StopRecorder], PasteKind);
      CountAppend([HideOverlay], [StopRecorder], UploadKind);
      CountOne(HideOverlay, PasteKind);
      CountOne(HideOverlay, UploadKind);
      CountOne(StopRecorder, PasteKind);
      CountOne(StopRecorder, UploadKind);
      if |es| == 3 {
        assert s.nextUpload !in s.pending;
        assert r.next.pending.Keys == s.pending.Keys + {s.nextUpload};
        assert es[2..] == [es[2]];
        CountOne(es[2], PasteKind);
        CountOne(es[2], UploadKind);
      } else {
        assert es[2..] == [];
      }
    }
  }

  /** A completion pastes at most once, and only for a task that was pending. */
  lemma FinishPastesBoundedByUploads(s: State, id: nat, result: Result<string, GroqApi.ApiError>)
    ensures Count(Finish(s, id, result).effects, PasteKind) + |Finish(s, id, result).next.pending|
            <= Count(Finish(s, id, result).effects, UploadKind) + |s.pending|
  {
    var r := Finish(s, id, result);
    assert r.next.pending.Keys == s.pending.Keys - {id};
    if r.effects != [] {
      assert |r.next.pending.Keys| == |s.pending.Keys| - 1;
      assert r.effects[1..] == [];
    } else {
      assert |r.next.pending.Keys| <= |s.pending.Keys|;
    }
  }

  /**
   * Within one event, every paste uses up a pending task and every launched
   * task adds one: pastes plus tasks still pending never outgrow the tasks
   * launched plus those pending before.
   */
  lemma StepPastesBoundedByUploads(s: State, e: Event)
    requires Inv(s)
    ensures Count(Step(s, e).effects, PasteKind) + |Step(s, e).next.pending|
            <= Count(Step(s, e).effects, UploadKind) + |s.pending|
  {
    match e
    case FnKeyDown(now) =>
      var es := KeyDown(s, now).effects;
      if es != [] {
        assert es[1..][1..] == [];
      }
    case FnKeyUp(now, audioFileExists) =>
      if s.isRecording {
        StopPastesBoundedByUploads(s, now, audioFileExists);
      }
    case TranscriptionFinished(id, result) =>
      FinishPastesBoundedByUploads(s, id, result);
    case SettingsEdited(settings) =>
  }

  lemma {:induction false} RunPastesBoundedByUploads(s: State, events: seq<Event>)
    requires Inv(s)
    ensures Count(Run(s, events).effects, PasteKind) + |Run(s, events).next.pending|
            <= Count(Run(s, events).effects, UploadKind) + |s.pending|
    decreases |events|
  {
    if events != [] {
      var first := Step(s, events[0]);
      var rest := Run(first.next, events[1..]);
      StepPastesBoundedByUploads(s, events[0]);
      StepPreservesInv(s, events[0]);
      RunPastesBoundedByUploads(first.next, events[1..]);
      CountAppend(first.effects, rest.effects, PasteKind);
      CountAppend(first.effects, rest.effects, UploadKind);
    }
  }

  /** From launch, there are never more pastes than launched transcription tasks. */
  lemma PastesNeverExceedUploads(settings: Settings, events: seq<Event>)
    ensures Count(Run(Launch(settings), events).effects, PasteKind)
            <= Count(Run(Launch(settings), events).effects, UploadKind)
  {
    RunPastesBoundedByUploads(Launch(settings), events);
  }

  // ----------------------------------------------- recorder and overlay toggles

  /** The switch-on (`true`) and switch-off (`false`) effects of one device, in order. */
  function Toggles(effects: seq<Effect>, on: Effect, off: Effect): seq<bool> {
    if effects == [] then [] else Toggle(effects[0], on, off) + Toggles(effects[1..], on, off)
  }

  function Toggle(e: Effect, on: Effect, off: Effect): seq<bool> {
    if e == on then [true] else if e == off then [false] else []
  }

  lemma TogglesOfPair(a: Effect, b: Effect, on: Effect, off: Effect)
    ensures Toggles([a, b], on, off) == Toggle(a, on, off) + Toggle(b, on, off)
  {
    assert [a, b][1..] == [b];
    assert [b][1..] == [];
    assert Toggles([b], on, off) == Toggle(b, on, off) + [];
  }

  lemma {:induction false} TogglesAppend(a: seq<Effect>, b: seq<Effect>, on: Effect, off: Effect)
    ensures Toggles(a + b, on, off) == Toggles(a, on, off) + Toggles(b, on, off)
  {
    if a == [] {
      assert a + b == b;
    } else {
      assert (a + b)[1..] == a[1..] + b;
      TogglesAppend(a[1..], b, on, off);
    }
  }

  /** A device that is `from` is switched strictly on, off, on, … and ends `to`. */
  predicate Alternates(ts: seq<bool>, from: bool, to: bool) {
    if ts == [] then from == to else ts[0] == !from && Alternates(ts[1..], ts[0], to)
  }

  lemma {:induction false} AlternatesAppend(a: seq<bool>, b: seq<bool>, x: bool, y: bool, z: bool)
    requires Alternates(a, x, y) && Alternates(b, y, z)
    ensures Alternates(a + b, x, z)
  {
    if a == [] {
      assert a + b == b;
    } else {
      assert (a + b)[1..] == a[1..] + b;
      AlternatesAppend(a[1..], b, a[0], y, z);
    }
  }

  /** The two devices the controller switches: the overlay and the recorder. */
  predicate IsDevice(on: Effect, off: Effect) {
    (on == ShowOverlay && off == HideOverlay) || (on == StartRecorder && off == StopRecorder)
  }

  lemma SwitchOn(on: Effect, off: Effect)
    requires IsDevice(on, off)
    ensures Toggles([ShowOverlay, StartRecorder], on, off) == [true]
    ensures Alternates(Toggles([ShowOverlay, StartRecorder], on, off), false, true)
  {
    TogglesOfPair(ShowOverlay, StartRecorder, on, off);
    assert Toggles([ShowOverlay, StartRecorder], on, off) == [true];
  }

  lemma SwitchOff(tail: seq<Effect>, on: Effect, off: Effect)
    requires IsDevice(on, off)
    requires tail == [] || (|tail| == 1 && tail[0].Upload?)
    ensures Toggles([HideOverlay, StopRecorder] + tail, on, off) == [false]
    ensures Alternates(Toggles([HideOverlay, StopRecorder] + tail, on, off), true, false)
  {
    TogglesOfPair(HideOverlay, StopRecorder, on, off);
    TogglesAppend([HideOverlay, StopRecorder], tail, on, off);
    if tail != [] {
      assert tail[1..] == [];
    }
    assert Toggles(tail, on, off) == [];
    assert Toggles([HideOverlay, StopRecorder] + tail, on, off) == [false];
  }

  lemma NoSwitch(es: seq<Effect>, x: bool, on: Effect, off: Effect)
    requires IsDevice(on, off)
    requires es == [] || (|es| == 1 && es[0].Paste?)
    ensures Toggles(es, on, off) == []
    ensures Alternates(Toggles(es, on, off), x, x)
  {
    if es != [] {
      assert es[1..] == [];
    }
  }

  /**
   * Each shape switches a device once when `isRecording` changes and not at all
   * otherwise, and in the direction `isRecording` moves.
   */
  lemma ShapedAlternates(s: State, r: Reaction, on: Effect, off: Effect)
    requires IsDevice(on, off) && Shaped(s, r)
    ensures |Toggles(r.effects, on, off)| == if s.isRecording == r.next.isRecording then 0 else 1
    ensures Alternates(Toggles(r.effects, on, off), s.isRecording, r.next.isRecording)
  {
    var es := r.effects;
    if es == [ShowOverlay, StartRecorder] {
      SwitchOn(on, off);
    } else if |es| >= 2 {
      SwitchOff(es[2..], on, off);
      assert es == [HideOverlay, StopRecorder] + es[2..];
    } else {
      NoSwitch(es, s.isRecording, on, off);
    }
  }

  /**
   * Over any trace, the overlay is shown and hidden strictly in turn, and so is
   * the recorder started and stopped; each ends in the state `isRecording` says.
   */
  lemma {:induction false} RunAlternates(s: State, events: seq<Event>, on: Effect, off: Effect)
    requires IsDevice(on, off)
    ensures Alternates(Toggles(Run(s, events).effects, on, off), s.isRecording, Run(s, events).next.isRecording)
    decreases |events|
  {
    if events != [] {
      var first := Step(s, events[0]);
      var rest := Run(first.next, events[1..]);
      StepShape(s, events[0]);
      ShapedAlternates(s, first, on, off);
      RunAlternates(first.next, events[1..], on, off);
      TogglesAppend(first.effects, rest.effects, on, off);
      AlternatesAppend(Toggles(first.effects, on, off), Toggles(rest.effects, on, off),
                       s.isRecording, first.next.isRecording, rest.next.isRecording);
    }
  }

  // ------------------------------------------------------------------- pastes

  /** The text of the last paste in `effects`, or `default` when there is none. */
  function LastPaste(effects: seq<Effect>, default: string): string {
    if effects == [] then default
    else if effects[|effects| - 1].Paste? then effects[|effects| - 1].text
    else LastPaste(effects[..|effects| - 1], default)
  }

  lemma {:induction false} LastPasteAppend(a: seq<Effect>, b: seq<Effect>, default: string)
    ensures LastPaste(a + b, default) == LastPaste(b, LastPaste(a, default))
    decreases |b|
  {
    if b == [] {
      assert a + b == a;
    } else {
      assert (a + b)[..|a + b| - 1] == a + b[..|b| - 1];
      LastPasteAppend(a, b[..|b| - 1], default);
    }
  }

  lemma {:induction false} LastPasteWithoutPastes(effects: seq<Effect>, default: string)
    requires forall i :: 0 <= i < |effects| ==> !effects[i].Paste?
    ensures LastPaste(effects, default) == default
    decreases |effects|
  {
    if effects != [] {
      LastPasteWithoutPastes(effects[..|effects| - 1], default);
    }
  }

  /** A reaction's own effects leave `transcription` at the text of its last paste. */
  lemma ShapedLastPaste(s: State, r: Reaction)
    requires Shaped(s, r)
    ensures LastPaste(r.effects, s.transcription) == r.next.transcription
  {
    if |r.effects| == 1 {
      assert r.effects[..0] == [];
    } else {
      LastPasteWithoutPastes(r.effects, s.transcription);
    }
  }

  /** `transcription` always holds the text of the last paste. */
  lemma {:induction false} TranscriptionIsLastPaste(s: State, events: seq<Event>)
    ensures Run(s, events).next.transcription == LastPaste(Run(s, events).effects, s.transcription)
    decreases |events|
  {
    if events != [] {
      var first := Step(s, events[0]);
      var rest := Run(first.next, events[1..]);
      TranscriptionIsLastPaste(first.next, events[1..]);
      LastPasteAppend(first.effects, rest.effects, s.transcription);
      StepShape(s, events[0]);
      ShapedLastPaste(s, first);
    }
  }

  /** Nothing the hallucination filter rejects is ever pasted. */
  predicate PastesAreClean(effects: seq<Effect>) {
    forall i :: 0 <= i < |effects| && effects[i].Paste? ==> !HallucinationFilter.IsHallucination(effects[i].text)
  }

  lemma StepPastesAreClean(s: State, e: Event)
    ensures PastesAreClean(Step(s, e).effects)
  {
    if e.TranscriptionFinished? {
      var r := Finish(s, e.id, e.result);
      if r.effects != [] {
        assert r.effects == [Paste(e.result.value)];
      }
    } else {
      StepShape(s, e);
    }
  }

  lemma PastesAreCleanAppend(a: seq<Effect>, b: seq<Effect>)
    requires PastesAreClean(a) && PastesAreClean(b)
    ensures PastesAreClean(a + b)
  {
    forall i | 0 <= i < |a + b| && (a + b)[i].Paste?
      ensures !HallucinationFilter.IsHallucination((a + b)[i].text)
    {
      if i >= |a| {
        assert (a + b)[i] == b[i - |a|];
      } else {
        assert (a + b)[i] == a[i];
      }
    }
  }

  lemma {:induction false} RunPastesAreClean(s: State, events: seq<Event>)
    ensures PastesAreClean(Run(s, events).effects)
    decreases |events|
  {
    if events != [] {
      var first := Step(s, events[0]);
      var rest := Run(first.next, events[1..]);
      RunPastesAreClean(first.next, events[1..]);
      StepPastesAreClean(s, events[0]);
      PastesAreCleanAppend(first.effects, rest.effects);
    }
  }

  // ---------------------------------------------------------------- scenarios

  /** A held `fn` key repeats "down"; the repeats change nothing. */
  lemma RepeatedKeyDownIsAbsorbed(s: State, t1: Millis, t2: Millis)
    ensures KeyDown(KeyDown(s, t1).next, t2).next == KeyDown(s, t1).next
    ensures KeyDown(KeyDown(s, t1).next, t2).effects == [] || KeyDown(s, t1).effects == []
  {
  }

  /** A trace is its first reaction followed by the rest. */
  lemma RunCons(s: State, e: Event, events: seq<Event>)
    ensures Run(s, [e] + events) ==
            Reaction(Run(Step(s, e).next, events).next, Step(s, e).effects + Run(Step(s, e).next, events).effects)
  {
    assert ([e] + events)[0] == e;
    assert ([e] + events)[1..] == events;
  }

  /** A trace of one event is that event's reaction. */
  lemma RunOne(s: State, e: Event)
    ensures Run(s, [e]) == Step(s, e)
  {
    assert [e] == [e] + [];
    RunCons(s, e, []);
  }

  /** The effects of a handled key-up, spelled out. */
  lemma StopEffects(s: State, now: Millis, audioFileExists: bool)
    requires s.isRecording
    ensures Stop(s, now, audioFileExists).effects ==
            [HideOverlay, StopRecorder] +
            (if Elapsed(s, now) >= MinimumRecordingMillis && audioFileExists then [Upload(s.nextUpload, s.settings)] else [])
  {
  }

  /**
   * A press and release: the overlay and the recorder go on and off, and a
   * transcription task is launched with the settings of that moment exactly when
   * the hold lasted half a second and the audio file exists.
   */
  lemma PressAndRelease(settings: Settings, t: Millis, hold: int, audioFileExists: bool)
    requires !IsBlank(settings.apiKey)
    ensures Run(Launch(settings), [FnKeyDown(t), FnKeyUp(t + hold, audioFileExists)]).effects ==
            [ShowOverlay, StartRecorder, HideOverlay, StopRecorder] +
            (if hold >= MinimumRecordingMillis && audioFileExists then [Upload(0, settings)] else [])
  {
    var down, up := FnKeyDown(t), FnKeyUp(t + hold, audioFileExists);
    var s0 := Launch(settings);
    var s1 := s0.(isRecording := true, recordingStartTime := Some(t));
    assert Step(s0, down) == Reaction(s1, [ShowOverlay, StartRecorder]);
    assert Elapsed(s1, t + hold) == hold;
    StopEffects(s1, t + hold, audioFileExists);
    RunOne(s1, up);
    assert [down, up] == [down] + [up];
    RunCons(s0, down, [up]);
  }

  /** With no API key set, pressing and releasing `fn` does nothing at all. */
  lemma BlankKeyDoesNothing(settings: Settings, t: Millis, hold: int, audioFileExists: bool)
    requires IsBlank(settings.apiKey)
    ensures Run(Launch(settings), [FnKeyDown(t), FnKeyUp(t + hold, audioFileExists)]) ==
            Reaction(Launch(settings), [])
  {
    var down, up := FnKeyDown(t), FnKeyUp(t + hold, audioFileExists);
    var s0 := Launch(settings);
    assert Step(s0, down) == Reaction(s0, []);
    RunOne(s0, up);
    assert [down, up] == [down] + [up];
    RunCons(s0, down, [up]);
  }

  /** With the stored defaults there is no API key, so until one is entered `fn` does nothing. */
  lemma DefaultsIgnoreFn(t: Millis, hold: int, audioFileExists: bool)
    ensures Run(Launch(DefaultSettings), [FnKeyDown(t), FnKeyUp(t + hold, audioFileExists)]) ==
            Reaction(Launch(DefaultSettings), [])
  {
    assert IsBlank(DefaultSettings.apiKey);
    BlankKeyDoesNothing(DefaultSettings, t, hold, audioFileExists);
  }

  /** While a transcription task is outstanding, a new press starts a new recording. */
  lemma PressDuringUploadRecords(s: State, now: Millis)
    requires !s.isRecording && s.pending != map[] && !IsBlank(s.settings.apiKey)
    ensures KeyDown(s, now).next.isRecording
    ensures KeyDown(s, now).next.pending == s.pending
  {
  }

  /**
   * The key is checked only when recording starts: clearing it during the hold
   * still launches a transcription task, with the blank key.
   */
  lemma KeyClearedWhileRecordingStillUploads(settings: Settings, t: Millis, hold: int)
    requires !IsBlank(settings.apiKey) && hold >= MinimumRecordingMillis
    ensures Run(Launch(settings),
                [FnKeyDown(t), SettingsEdited(settings.(apiKey := "")), FnKeyUp(t + hold, true)]).effects
            == [ShowOverlay, StartRecorder, HideOverlay, StopRecorder, Upload(0, settings.(apiKey := ""))]
  {
    var cleared := settings.(apiKey := "");
    var down, edit, up := FnKeyDown(t), SettingsEdited(cleared), FnKeyUp(t + hold, true);
    var s0 := Launch(settings);
    var s1 := s0.(isRecording := true, recordingStartTime := Some(t));
    var s2 := s1.(settings := cleared);
    assert Step(s0, down) == Reaction(s1, [ShowOverlay, StartRecorder]);
    assert Step(s1, edit) == Reaction(s2, []);
    assert Elapsed(s2, t + hold) == hold;
    StopEffects(s2, t + hold, true);
    RunOne(s2, up);
    assert [edit, up] == [edit] + [up];
    RunCons(s1, edit, [up]);
    assert [down, edit, up] == [down] + [edit, up];
    RunCons(s0, down, [edit, up]);
  }

  // -------------------------------------------------------------- the app

  /**
   * The app itself: the fields `PollyApp` keeps, updated in place by the
   * receivers, and a ghost log of the effects issued so far.
   */
  class PollyApp {
    var isRecording: bool
    var recordingStartTime: Option<Millis>
    var transcription: string
    var apiKey: string
    var model: string
    var language: string
    var pending: map<nat, Settings>
    var nextUpload: nat
    ghost var log: seq<Effect>

    /** The fields as a `State`. */
    function Snapshot(): State
      reads this
    {
      State(isRecording, recordingStartTime, transcription, Settings(apiKey, model, language), pending, nextUpload)
    }

    ghost predicate Valid()
      reads this
    {
      Inv(Snapshot())
    }

    constructor(settings: Settings)
      ensures Snapshot() == Launch(settings) && log == [] && Valid()
    {
      isRecording := false;
      recordingStartTime := None;
      transcription := "";
      apiKey, model, language := settings.apiKey, settings.model, settings.language;
      pending := map[];
      nextUpload := 0;
      log := [];
    }

    method StartRecording(now: Millis)
      requires Valid()
      modifies this
      ensures Valid()
      ensures Snapshot() == Start(old(Snapshot()), now).next
      ensures log == old(log) + Start(old(Snapshot()), now).effects
    {
      ghost var r := Start(Snapshot(), now);
      if IsBlank(apiKey) {
        return;
      }
      assert r.next == Snapshot().(isRecording := true, recordingStartTime := Some(now));
      isRecording := true;
      recordingStartTime := Some(now);
      log := log + [ShowOverlay];
      log := log + [StartRecorder];
    }

    method StopRecording(now: Millis, audioFileExists: bool)
      requires Valid()
      modifies this
      ensures Valid()
      ensures Snapshot() == Stop(old(Snapshot()), now, audioFileExists).next
      ensures log == old(log) + Stop(old(Snapshot()), now, audioFileExists).effects
    {
      if !isRecording {
        return;
      }
      isRecording := false;
      log := log + [HideOverlay];
      log := log + [StopRecorder];
      var duration := now - recordingStartTime.GetOr(now);
      if duration < MinimumRecordingMillis {
        return;
      }
      if audioFileExists {
        var settings := Settings(apiKey, model, language);
        pending := pending[nextUpload := settings];
        log := log + [Upload(nextUpload, settings)];
        nextUpload := nextUpload + 1;
      }
    }

    method OnFnKeyDown(now: Millis)
      requires Valid()
      modifies this
      ensures Valid()
      ensures Snapshot() == KeyDown(old(Snapshot()), now).next
      ensures log == old(log) + KeyDown(old(Snapshot()), now).effects
    {
      if !isRecording {
        StartRecording(now);
      }
    }

    method OnFnKeyUp(now: Millis, audioFileExists: bool)
      requires Valid()
      modifies this
      ensures Valid()
      ensures Snapshot() == KeyUp(old(Snapshot()), now, audioFileExists).next
      ensures log == old(log) + KeyUp(old(Snapshot()), now, audioFileExists).effects
    {
      if isRecording {
        StopRecording(now, audioFileExists);
      }
    }

    /** The end of the transcription task `id`. */
    method OnTranscriptionFinished(id: nat, result: Result<string, GroqApi.ApiError>)
      requires Valid()
      modifies this
      ensures Valid()
      ensures Snapshot() == Finish(old(Snapshot()), id, result).next
      ensures log == old(log) + Finish(old(Snapshot()), id, result).effects
    {
      ghost var before := Snapshot();
      if id !in pending {
        return;
      }
      pending := pending - {id};
      if result.Failure? {
        return;
      }
      var text := result.value;
      if HallucinationFilter.IsHallucination(text) {
        return;
      }
      transcription := text;
      log := log + [Paste(text)];
      assert Snapshot() == before.(pending := before.pending - {id}, transcription := text);
    }

    /**
     * The whole transcription task `id`: the upload with the settings it was
     * launched with, then its completion.
     */
    method Transcribe(
      id: nat, audioFilePath: string, boundary: string, fileContents: Option<seq<Utf8.byte>>,
      upload: (GroqApi.Request, seq<Utf8.byte>) -> GroqApi.Exchange,
      decodeText: seq<Utf8.byte> -> Option<string>)
      requires id in pending
      requires Valid()
      modifies this
      ensures Valid()
      ensures Snapshot() == Finish(old(Snapshot()), id,
                GroqApi.TranscriptionOutcome(audioFilePath, old(pending)[id].apiKey, old(pending)[id].model,
                  old(pending)[id].language, boundary, fileContents, upload, decodeText)).next
      ensures log == old(log) + Finish(old(Snapshot()), id,
                GroqApi.TranscriptionOutcome(audioFilePath, old(pending)[id].apiKey, old(pending)[id].model,
                  old(pending)[id].language, boundary, fileContents, upload, decodeText)).effects
    {
      var settings := pending[id];
      var result := GroqApi.Transcribe(audioFilePath, settings.apiKey, settings.model, settings.language,
                                       boundary, fileContents, upload, decodeText);
      OnTranscriptionFinished(id, result);
    }

    method EditSettings(settings: Settings)
      requires Valid()
      modifies this
      ensures Valid()
      ensures Snapshot() == Edit(old(Snapshot()), settings).next
      ensures log == old(log) + Edit(old(Snapshot()), settings).effects
    {
      apiKey, model, language := settings.apiKey, settings.model, settings.language;
    }

    /** Any event, dispatched to its receiver. */
    method Handle(e: Event)
      requires Valid()
      modifies this
      ensures Valid()
      ensures Snapshot() == Step(old(Snapshot()), e).next
      ensures log == old(log) + Step(old(Snapshot()), e).effects
    {
      StepPreservesInv(Snapshot(), e);
      match e {
        case FnKeyDown(now) => OnFnKeyDown(now);
        case FnKeyUp(now, audioFileExists) => OnFnKeyUp(now, audioFileExists);
        case TranscriptionFinished(id, result) => OnTranscriptionFinished(id, result);
        case SettingsEdited(settings) => EditSettings(settings);
      }
    }
  }
}
