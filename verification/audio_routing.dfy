/**
 * Playback routing as the page component does it: once every precondition
 * holds, play the doctor leg's buffer when the spoken language is the
 * doctor's, else the patient leg's when it is the patient's, else nothing,
 * and then clear both buffers.
 */
module AppRouting {
  import opened Wrappers
  import opened TextCase
  import opened Languages
  import opened AudioBuffers
  import opened ParallelSessions

  const PageBlobType: string := "audio/webm"

  /** Case-insensitive match of the spoken language against a party's language. */
  predicate SpokenBy(spoken: string, l: Language) {
    Lower(spoken) == Lower(Value(l))
  }

  /** Routing does nothing without a detected language, both party languages and the flag. */
  predicate RouteAborts(spoken: string, doctor: Option<Language>, patient: Option<Language>, parallel: bool) {
    spoken == "" || spoken == "unknown" || doctor.None? || patient.None? || !parallel
  }

  datatype Routed = Routed(played: Option<Blob>, state: ParallelState)

  /**
   * `routeAudioBuffer`. Any missing precondition, or no audio element,
   * returns before touching either buffer. Otherwise the doctor match is
   * checked first, the patient match second, a language matching neither
   * party plays nothing, and both buffers are cleared in every case.
   */
  function AppRoute(st: ParallelState, spoken: string, doctor: Option<Language>, patient: Option<Language>,
                    parallel: bool, audioElement: bool): (r: Routed)
    ensures RouteAborts(spoken, doctor, patient, parallel) || !audioElement ==> r == Routed(None, st)
    ensures !(RouteAborts(spoken, doctor, patient, parallel) || !audioElement) ==>
              && r.state == ClearBoth(st)
              && (SpokenBy(spoken, doctor.value) ==>
                    r.played == Some(Materialize(st.doctorToPatient.buffer, PageBlobType)))
              && (!SpokenBy(spoken, doctor.value) && SpokenBy(spoken, patient.value) ==>
                    r.played == Some(Materialize(st.patientToDoctor.buffer, PageBlobType)))
              && (!SpokenBy(spoken, doctor.value) && !SpokenBy(spoken, patient.value) ==> r.played.None?)
  {
    if RouteAborts(spoken, doctor, patient, parallel) || !audioElement then Routed(None, st)
    else
      var played :=
        if SpokenBy(spoken, doctor.value) then Some(Materialize(st.doctorToPatient.buffer, PageBlobType))
        else if SpokenBy(spoken, patient.value) then Some(Materialize(st.patientToDoctor.buffer, PageBlobType))
        else None;
      Routed(played, ClearBoth(st))
  }

  /** What the routing effect and its callback read in one render. */
  datatype RoutingInputs = RoutingInputs(spoken: string, doctor: Option<Language>, patient: Option<Language>, parallel: bool)

  /**
   * The routing callback is recreated on the first render and whenever the
   * spoken language or either party's language changes; the flag is not
   * among its dependencies in either variant.
   */
  predicate CallbackRecreated(prev: Option<RoutingInputs>, cur: RoutingInputs) {
    prev.None? || prev.value.spoken != cur.spoken || prev.value.doctor != cur.doctor || prev.value.patient != cur.patient
  }

  /**
   * The page's routing effect for one render, given the inputs of the
   * previous render (`None` on mount). It depends on the spoken language and
   * the callback, so it runs exactly when the callback was recreated, and
   * then only on a detected language other than "unknown". A callback
   * recreated in this render reads the current flag.
   */
  function AppRoutingEffect(st: ParallelState, prev: Option<RoutingInputs>, cur: RoutingInputs, audioElement: bool): (r: Routed)
    ensures !CallbackRecreated(prev, cur) ==> r == Routed(None, st)
    ensures cur.spoken == "" || cur.spoken == "unknown" ==> r == Routed(None, st)
    ensures CallbackRecreated(prev, cur) && cur.spoken != "" && cur.spoken != "unknown" ==>
              r == AppRoute(st, cur.spoken, cur.doctor, cur.patient, cur.parallel, audioElement)
  {
    if CallbackRecreated(prev, cur) && cur.spoken != "" && cur.spoken != "unknown" then
      AppRoute(st, cur.spoken, cur.doctor, cur.patient, cur.parallel, audioElement)
    else Routed(None, st)
  }

  /**
   * A second utterance in the language just routed does not change the
   * spoken language, so nothing routes it: its audio stays buffered until
   * the other party speaks, and that routing discards it unplayed.
   */
  lemma {:induction false} RepeatedLanguageStrandsAudio(st: ParallelState, i: RoutingInputs, cs: seq<Chunk>, spoken2: string)
    requires !RouteAborts(i.spoken, i.doctor, i.patient, i.parallel) && SpokenBy(i.spoken, i.doctor.value)
    requires spoken2 != i.spoken && !RouteAborts(spoken2, i.doctor, i.patient, i.parallel)
    requires !SpokenBy(spoken2, i.doctor.value)
    ensures var first := AppRoutingEffect(st, None, i, true);
      var buffered := ReceiveAll(first.state, DoctorToPatient, cs);
      var repeat := AppRoutingEffect(buffered, Some(i), i, true);
      var next := AppRoutingEffect(repeat.state, Some(i), i.(spoken := spoken2), true);
      && repeat == Routed(None, buffered)
      && Flatten(repeat.state.doctorToPatient.buffer.chunks) == Flatten(cs)
      && (next.played.None? || next.played.value.bytes == [])
      && next.state.doctorToPatient.buffer.chunks == []
  {
    var first := AppRoutingEffect(st, None, i, true);
    assert first.state == ClearBoth(st);
    var buffered := ReceiveAll(first.state, DoctorToPatient, cs);
    assert buffered.doctorToPatient.buffer == RecordAll(Empty, cs);
    RecordAllContents(Empty, cs);
    assert buffered.patientToDoctor.buffer == Empty;
    var next := AppRoutingEffect(buffered, Some(i), i.(spoken := spoken2), true);
    assert CallbackRecreated(Some(i), i.(spoken := spoken2));
    assert next == AppRoute(buffered, spoken2, i.doctor, i.patient, i.parallel, true);
  }

  /**
   * English doctor, Arabic patient, English detected: exactly the doctor
   * leg's audio plays, and both buffers are empty afterwards.
   */
  lemma DoctorSpeakingExample(st: ParallelState)
    ensures var r := AppRoute(st, "english", Some(English), Some(Arabic), true, true);
      && r.played == Some(Blob(Flatten(st.doctorToPatient.buffer.chunks), PageBlobType))
      && r.state.doctorToPatient.buffer.chunks == [] && r.state.patientToDoctor.buffer.chunks == []
  {
    ValuesAreLowerCase(English);
    assert Lower("english") == "english";
  }

  /** Hindi detected with an English doctor and an Urdu patient: nothing plays and both buffers are discarded. */
  lemma MismatchDiscards(st: ParallelState)
    ensures var r := AppRoute(st, "hindi", Some(English), Some(Urdu), true, true);
      r.played.None? && r.state == ClearBoth(st)
  {
    ValuesAreLowerCase(English);
    ValuesAreLowerCase(Urdu);
    assert Lower("hindi") == "hindi";
  }

  /**
   * No audio bleeds across routings: after a routing that went through,
   * the next doctor-side routing plays exactly the chunks recorded since.
   */
  lemma {:induction false} NoCrossUtteranceBleed(st: ParallelState, spoken: string, d: Language, p: Language,
                                                 cs: seq<Chunk>)
    requires !RouteAborts(spoken, Some(d), Some(p), true)
    requires SpokenBy(spoken, d)
    ensures var after := AppRoute(st, spoken, Some(d), Some(p), true, true).state;
      var next := AppRoute(ReceiveAll(after, DoctorToPatient, cs), spoken, Some(d), Some(p), true, true);
      next.played == Some(Blob(Flatten(cs), PageBlobType))
  {
    var after := AppRoute(st, spoken, Some(d), Some(p), true, true).state;
    assert after.doctorToPatient.buffer == Empty;
    var recorded := ReceiveAll(after, DoctorToPatient, cs);
    assert recorded.doctorToPatient.buffer == RecordAll(Empty, cs);
    RecordAllContents(Empty, cs);
    assert Flatten(recorded.doctorToPatient.buffer.chunks) == Flatten(cs);
  }
}

/**
 * Playback routing as the routing hook does it: a binary choice between the
 * doctor leg's buffer (doctor match) and the patient leg's buffer (anything
 * else), with both buffers cleared only when playback ends.
 */
module HookRouting {
  import opened Wrappers
  import opened Languages
  import opened AudioBuffers
  import opened ParallelSessions
  import opened AppRouting

  /** The hook's blob carries no MIME type. */
  const HookBlobType: string := ""

  /** What routing did, and whether the audio element's end handler is now set. */
  datatype HookRouted = HookRouted(played: Option<Blob>, endHandlerSet: bool, state: ParallelState)

  /**
   * The hook's `routeAudioBuffer`. Missing preconditions and a missing
   * buffer reference return without playing, and so does a missing audio
   * element, on which setting the source throws. Otherwise the selected
   * buffer plays and the end handler is set. Neither buffer changes here.
   */
  function HookRoute(st: ParallelState, endHandlerSet: bool, spoken: string, doctor: Option<Language>,
                     patient: Option<Language>, parallel: bool, doctorLegRef: bool, patientLegRef: bool,
                     audioElement: bool): (r: HookRouted)
    ensures r.state == st
    ensures RouteAborts(spoken, doctor, patient, parallel) ==> r == HookRouted(None, endHandlerSet, st)
    ensures !RouteAborts(spoken, doctor, patient, parallel) ==>
              var role := if SpokenBy(spoken, doctor.value) then DoctorToPatient else PatientToDoctor;
              var present := if role == DoctorToPatient then doctorLegRef else patientLegRef;
              && (!present || !audioElement ==> r == HookRouted(None, endHandlerSet, st))
              && (present && audioElement ==> r.played == Some(Materialize(LegOf(st, role).buffer, HookBlobType)) && r.endHandlerSet)
  {
    if RouteAborts(spoken, doctor, patient, parallel) then HookRouted(None, endHandlerSet, st)
    else
      var role := if SpokenBy(spoken, doctor.value) then DoctorToPatient else PatientToDoctor;
      var present := if role == DoctorToPatient then doctorLegRef else patientLegRef;
      if !present || !audioElement then HookRouted(None, endHandlerSet, st)
      else HookRouted(Some(Materialize(LegOf(st, role).buffer, HookBlobType)), true, st)
  }

  /**
   * The audio element's end handler: clear the doctor leg's buffer, then
   * the patient leg's. A missing reference throws at that point, so a
   * missing doctor-leg reference clears nothing and a missing patient-leg
   * reference clears only the doctor leg's buffer.
   */
  function HookPlaybackEnded(st: ParallelState, endHandlerSet: bool, doctorLegRef: bool, patientLegRef: bool): (r: ParallelState)
    ensures !endHandlerSet || !doctorLegRef ==> r == st
    ensures endHandlerSet && doctorLegRef && patientLegRef ==> r == ClearBoth(st)
    ensures endHandlerSet && doctorLegRef && !patientLegRef ==>
              r.doctorToPatient.buffer.chunks == [] && r.patientToDoctor == st.patientToDoctor
  {
    if !endHandlerSet || !doctorLegRef then st
    else if !patientLegRef then st.(doctorToPatient := st.doctorToPatient.(buffer := Clear(st.doctorToPatient.buffer)))
    else ClearBoth(st)
  }

  /** What the hook's routing effect did, and the flag value its callback now holds. */
  datatype HookEffect = HookEffect(routed: HookRouted, captured: bool)

  /**
   * The hook's routing effect for one render. It depends on the spoken
   * language, the flag and the callback, and runs on a non-empty spoken
   * language while the flag is set. The callback keeps the flag value of
   * the render that last recreated it (`captured`), so after a change of
   * the flag alone it routes with the old value.
   */
  function HookRoutingEffect(st: ParallelState, endHandlerSet: bool, captured: bool, prev: Option<RoutingInputs>,
                             cur: RoutingInputs, doctorLegRef: bool, patientLegRef: bool, audioElement: bool): (r: HookEffect)
    ensures r.routed.state == st
    ensures CallbackRecreated(prev, cur) ==> r.captured == cur.parallel
    ensures !CallbackRecreated(prev, cur) ==> r.captured == captured
    ensures prev == Some(cur) || cur.spoken == "" || !cur.parallel ==> r.routed == HookRouted(None, endHandlerSet, st)
    ensures CallbackRecreated(prev, cur) && cur.spoken != "" && cur.parallel ==>
              r.routed == HookRoute(st, endHandlerSet, cur.spoken, cur.doctor, cur.patient, true,
                                    doctorLegRef, patientLegRef, audioElement)
    ensures !CallbackRecreated(prev, cur) && prev.value.parallel != cur.parallel && cur.spoken != "" && cur.parallel ==>
              r.routed == HookRoute(st, endHandlerSet, cur.spoken, cur.doctor, cur.patient, captured,
                                    doctorLegRef, patientLegRef, audioElement)
  {
    var recreated := CallbackRecreated(prev, cur);
    var callbackFlag := if recreated then cur.parallel else captured;
    var fires := (recreated || prev.value.parallel != cur.parallel) && cur.spoken != "" && cur.parallel;
    var routed := if fires then HookRoute(st, endHandlerSet, cur.spoken, cur.doctor, cur.patient, callbackFlag,
                                          doctorLegRef, patientLegRef, audioElement)
                  else HookRouted(None, endHandlerSet, st);
    HookEffect(routed, callbackFlag)
  }

  /**
   * A language detected before the flag is set is never routed: the mount
   * render aborts on the flag, and the render that sets it runs the effect
   * with a callback still holding the unset flag.
   */
  lemma FlagSetAfterDetectionPlaysNothing(st: ParallelState, e: bool, captured: bool, i: RoutingInputs,
                                          doctorLegRef: bool, patientLegRef: bool, audio: bool)
    requires i.spoken != "" && !i.parallel
    ensures var mount := HookRoutingEffect(st, e, captured, None, i, doctorLegRef, patientLegRef, audio);
      var on := HookRoutingEffect(st, e, mount.captured, Some(i), i.(parallel := true), doctorLegRef, patientLegRef, audio);
      && mount.routed == HookRouted(None, e, st)
      && !on.captured && on.routed == HookRouted(None, e, st)
  {
  }

  /**
   * Without a playback end in between, audio accumulates: the next routing
   * to the same leg plays the earlier utterance's bytes followed by the new
   * ones.
   */
  lemma {:induction false} StaleAudioWithoutPlaybackEnd(st: ParallelState, spoken: string, d: Language, p: Language,
                                                        cs: seq<Chunk>)
    requires !RouteAborts(spoken, Some(d), Some(p), true) && SpokenBy(spoken, d)
    requires NoEmptyChunk(st.doctorToPatient.buffer)
    ensures var first := HookRoute(st, false, spoken, Some(d), Some(p), true, true, true, true);
      var second := HookRoute(ReceiveAll(first.state, DoctorToPatient, cs), first.endHandlerSet,
                              spoken, Some(d), Some(p), true, true, true, true);
      && first.played == Some(Blob(Flatten(st.doctorToPatient.buffer.chunks), HookBlobType))
      && second.played == Some(Blob(Flatten(st.doctorToPatient.buffer.chunks) + Flatten(cs), HookBlobType))
  {
    RecordAllContents(st.doctorToPatient.buffer, cs);
  }
}

/** The two routing variants side by side. */
module RoutingVariants {
  import opened Wrappers
  import opened TextCase
  import opened Languages
  import opened AudioBuffers
  import opened ParallelSessions
  import opened AppRouting
  import opened HookRouting

  /**
   * A language matching neither party: the page discards both buffers and
   * plays nothing, while the hook plays the patient leg's buffer and keeps
   * both buffers.
   */
  lemma VariantsDifferOnMismatch(st: ParallelState, spoken: string, d: Language, p: Language)
    requires !RouteAborts(spoken, Some(d), Some(p), true)
    requires !SpokenBy(spoken, d) && !SpokenBy(spoken, p)
    ensures var page := AppRoute(st, spoken, Some(d), Some(p), true, true);
      var hook := HookRoute(st, false, spoken, Some(d), Some(p), true, true, true, true);
      && page.played.None? && page.state == ClearBoth(st)
      && hook.played == Some(Materialize(st.patientToDoctor.buffer, HookBlobType))
      && hook.state == st
  {
  }

  /** On a doctor match both variants play the doctor leg's bytes. */
  lemma VariantsAgreeOnDoctorMatch(st: ParallelState, spoken: string, d: Language, p: Language)
    requires !RouteAborts(spoken, Some(d), Some(p), true) && SpokenBy(spoken, d)
    ensures AppRoute(st, spoken, Some(d), Some(p), true, true).played.value.bytes
              == HookRoute(st, false, spoken, Some(d), Some(p), true, true, true, true).played.value.bytes
  {
  }
}

/**
 * The page component reads the doctor's and patient's languages from the
 * language context, which carries only the detected language, so both read
 * as `undefined`.
 */
module PageLanguageWiring {
  import opened Wrappers
  import opened TextCase
  import opened Languages
  import opened AudioBuffers
  import opened ParallelSessions
  import opened AppRouting

  /** The party languages as read from the context: neither field exists. */
  function ContextPartyLanguages(c: LanguageContextState): (r: (Option<Language>, Option<Language>))
    ensures r.0.None? && r.1.None?
  {
    (None, None)
  }

  /** As wired, the page's routing never plays anything and never clears a buffer. */
  lemma PageRoutingNeverRuns(c: LanguageContextState, st: ParallelState, spoken: string, parallel: bool, audio: bool)
    ensures var langs := ContextPartyLanguages(c);
      AppRoute(st, spoken, langs.0, langs.1, parallel, audio) == Routed(None, st)
  {
  }

  /** A language state that does carry both parties' languages, as the routing expects. */
  datatype InterpreterLanguages = InterpreterLanguages(detected: Language, doctor: Option<Language>, patient: Option<Language>)

  /**
   * With both parties' languages available and distinct, routing the
   * doctor's language plays the doctor leg and routing the patient's plays
   * the patient leg.
   */
  lemma RoutingWithPartyLanguages(c: InterpreterLanguages, st: ParallelState)
    requires c.doctor.Some? && c.patient.Some? && c.doctor.value != c.patient.value
    requires c.doctor.value != Unknown && c.patient.value != Unknown
    ensures && AppRoute(st, Value(c.doctor.value), c.doctor, c.patient, true, true).played
           == Some(Materialize(st.doctorToPatient.buffer, PageBlobType))
      && AppRoute(st, Value(c.patient.value), c.doctor, c.patient, true, true).played
           == Some(Materialize(st.patientToDoctor.buffer, PageBlobType))
  {
    var d := c.doctor.value;
    var p := c.patient.value;
    ValuesAreLowerCase(d);
    ValuesAreLowerCase(p);
    AllLanguagesComplete();
    assert FromValue(Value(d)) == Some(d) && FromValue(Value(p)) == Some(p);
    assert Value(d) != "" && Value(p) != "";
  }
}
