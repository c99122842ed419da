/**
 * The interpretation-leg lifecycle as the audio-connection hook implements
 * it: a connect with no handle guard that never announces CONNECTING, a
 * start that connects the DISCONNECTED legs and tears everything down on an
 * escaping exception, and the cleanup run whenever the flag is false.
 */
module HookConnections {
  import opened Wrappers
  import opened Statuses
  import opened ParallelSessions
  import opened Languages

  /**
   * `connectAgentSession`. A missing microphone, a failed or empty key fetch
   * and a failed exchange all throw inside the try and end DISCONNECTED,
   * with the handles as they were; success stores both handles and ends
   * CONNECTED, whatever the leg held before.
   */
  function HookConnect(st: ParallelState, role: Role, mic: bool, o: ConnectOutcome): (r: ParallelState)
    ensures LegOf(r, Other(role)) == LegOf(st, Other(role))
    ensures r.primaryStatus == st.primaryStatus
    ensures LegOf(r, role).buffer == LegOf(st, role).buffer
    ensures LegOf(r, role).status != Connecting
    ensures LegOf(r, role).status == Connected <==> (mic && o.key == GotKey && o.link == LinkUp)
    ensures LegOf(r, role).status == Connected ==> LegOf(r, role).pc && LegOf(r, role).dc
    ensures LegOf(r, role).status == Disconnected ==>
              LegOf(r, role) == LegOf(st, role).(status := Disconnected)
  {
    var l := LegOf(st, role);
    if !mic || !o.key.GotKey? || !o.link.LinkUp? then WithLeg(st, role, l.(status := Disconnected))
    else WithLeg(st, role, l.(pc := true, dc := true, status := Connected))
  }

  /**
   * `startParallelConnections`. Without a microphone nothing happens;
   * otherwise each DISCONNECTED leg is connected, doctor leg first, and
   * `fault` (an exception escaping a connect) runs the full cleanup.
   */
  function HookStart(st: ParallelState, mic: bool, toPatient: ConnectOutcome, toDoctor: ConnectOutcome,
                     fault: bool): (r: ParallelState)
    ensures !mic ==> r == st
    ensures mic && fault ==> TornDown(r)
    ensures mic && !fault && st.doctorToPatient.status != Disconnected ==> r.doctorToPatient == st.doctorToPatient
    ensures mic && !fault && st.patientToDoctor.status != Disconnected ==> r.patientToDoctor == st.patientToDoctor
    ensures mic && !fault && st.doctorToPatient.status == Disconnected ==>
              r.doctorToPatient == HookConnect(st, DoctorToPatient, mic, toPatient).doctorToPatient
    ensures mic && !fault && st.patientToDoctor.status == Disconnected ==>
              r.patientToDoctor == HookConnect(st, PatientToDoctor, mic, toDoctor).patientToDoctor
    ensures r.doctorToPatient.buffer == st.doctorToPatient.buffer
    ensures r.patientToDoctor.buffer == st.patientToDoctor.buffer
  {
    if !mic then st
    else
      var s1 := if st.doctorToPatient.status == Disconnected
                then HookConnect(st, DoctorToPatient, mic, toPatient) else st;
      var s2 := if st.patientToDoctor.status == Disconnected
                then HookConnect(s1, PatientToDoctor, mic, toDoctor) else s1;
      if fault then Teardown(s2) else s2
  }

  /** The start effect fires only with the flag and both party languages; cleanup fires whenever the flag is false. */
  function HookStartFires(parallel: bool, doctor: Option<Language>, patient: Option<Language>): (b: bool)
    ensures b ==> parallel
    ensures b <==> parallel && doctor.Some? && patient.Some?
  {
    parallel && doctor.Some? && patient.Some?
  }

  function HookLifecycle(st: ParallelState, parallel: bool, doctor: Option<Language>, patient: Option<Language>,
                         mic: bool, toPatient: ConnectOutcome, toDoctor: ConnectOutcome, fault: bool): (r: ParallelState)
    ensures !parallel ==> TornDown(r)
    ensures parallel && (doctor.None? || patient.None?) ==> r == st
    ensures parallel && doctor.Some? && patient.Some? ==> r == HookStart(st, mic, toPatient, toDoctor, fault)
  {
    if !parallel then Teardown(st)
    else if HookStartFires(parallel, doctor, patient) then HookStart(st, mic, toPatient, toDoctor, fault)
    else st
  }

  predicate NeverConnecting(st: ParallelState) {
    st.doctorToPatient.status != Connecting && st.patientToDoctor.status != Connecting
  }

  /** No step of the hook ever puts a leg in CONNECTING. */
  lemma HookNeverConnecting(st: ParallelState, mic: bool, a: ConnectOutcome, b: ConnectOutcome,
                                               fault: bool, role: Role)
    requires NeverConnecting(st)
    ensures NeverConnecting(HookStart(st, mic, a, b, fault))
    ensures NeverConnecting(HookConnect(st, role, mic, a))
    ensures NeverConnecting(ChannelClosed(st, role))
    ensures NeverConnecting(Teardown(st))
  {
    if mic {
      var s1 := if st.doctorToPatient.status == Disconnected then HookConnect(st, DoctorToPatient, mic, a) else st;
      assert NeverConnecting(s1);
    }
    match role
    case DoctorToPatient =>
    case PatientToDoctor =>
  }

  /**
   * The hook's start effect depends on the legs' statuses too: after a
   * channel close, with the flag and both party languages set and the
   * microphone and both exchanges succeeding, the closed leg comes back
   * CONNECTED and a leg that was not DISCONNECTED is left alone.
   */
  lemma HookClosedLegReconnects(st: ParallelState, role: Role, d: Language, p: Language)
    ensures var ok := ConnectOutcome(GotKey, LinkUp);
      var r := HookLifecycle(ChannelClosed(st, role), true, Some(d), Some(p), true, ok, ok, false);
      && LegOf(r, role).status == Connected && LegOf(r, role).pc && LegOf(r, role).dc
      && (LegOf(st, Other(role)).status != Disconnected ==> LegOf(r, Other(role)) == LegOf(st, Other(role)))
  {
  }
}

/** Where the two lifecycle variants part ways. */
module ConnectionVariants {
  import opened Wrappers
  import opened Statuses
  import opened ParallelSessions
  import opened AppConnections
  import opened HookConnections

  /**
   * On a CONNECTED leg the page's connect is a no-op, while the hook's
   * connect runs again: a success replaces the handles and a failure marks
   * the leg DISCONNECTED while it still holds them.
   */
  lemma GuardDiffers(st: ParallelState, role: Role)
    requires AppWellFormed(st) && LegOf(st, role).status == Connected
    ensures AppConnect(st, role, true, ConnectOutcome(KeyFetchFailed, LinkUp)) == st
    ensures var r := HookConnect(st, role, true, ConnectOutcome(KeyFetchFailed, LinkUp));
      LegOf(r, role).status == Disconnected && LegOf(r, role).pc && LegOf(r, role).dc
  {
  }

  /**
   * A missing key strands the page's leg in CONNECTING; the hook's leg ends
   * DISCONNECTED, and the hook leaves the primary session alone.
   */
  lemma NullKeyDiffers(st: ParallelState, role: Role, link: LinkOutcome)
    requires LegOf(st, role).status == Disconnected && !LegOf(st, role).pc
    ensures LegOf(AppConnect(st, role, true, ConnectOutcome(NoKey, link)), role).status == Connecting
    ensures LegOf(HookConnect(st, role, true, ConnectOutcome(NoKey, link)), role).status == Disconnected
    ensures HookConnect(st, role, true, ConnectOutcome(NoKey, link)).primaryStatus == st.primaryStatus
  {
  }

  /** With the flag set but no party languages, the page still starts both legs; the hook does not. */
  lemma StartWithoutLanguagesDiffers(st: ParallelState)
    requires TornDown(st)
    ensures var ok := ConnectOutcome(GotKey, LinkUp);
      && AppLifecycle(st, true, None, None, true, ok, ok, false).doctorToPatient.status == Connected
      && AppLifecycle(st, true, None, None, true, ok, ok, false).patientToDoctor.status == Connected
      && HookLifecycle(st, true, None, None, true, ok, ok, false) == st
  {
  }
}

/**
 * The connection hook's only caller reads the party languages from the
 * language context, which carries only the detected language.
 */
module HandlerLanguageWiring {
  import opened Wrappers
  import opened Statuses
  import opened Languages
  import opened ParallelSessions
  import opened HookConnections
  import opened PageLanguageWiring

  /** As wired, setting the flag never starts a leg through the hook. */
  lemma HandlerNeverStarts(c: LanguageContextState, st: ParallelState, mic: bool, a: ConnectOutcome,
                           b: ConnectOutcome, fault: bool)
    ensures var langs := ContextPartyLanguages(c);
      HookLifecycle(st, true, langs.0, langs.1, mic, a, b, fault) == st
  {
  }

  /**
   * Given both parties' languages, setting the flag from a torn-down pair
   * connects both legs when the microphone and both exchanges succeed.
   */
  lemma HandlerStartsWithPartyLanguages(c: InterpreterLanguages, st: ParallelState)
    requires c.doctor.Some? && c.patient.Some? && TornDown(st)
    ensures var ok := ConnectOutcome(GotKey, LinkUp);
      var r := HookLifecycle(st, true, c.doctor, c.patient, true, ok, ok, false);
      r.doctorToPatient.status == Connected && r.patientToDoctor.status == Connected
  {
  }
}
