/**
 * The interpretation-leg lifecycle as the page component implements it: a
 * connect guarded by the peer-connection handle that announces CONNECTING
 * first, a start that connects the DISCONNECTED legs, and the cleanup
 * effect.
 */
module AppConnections {
  import opened Wrappers
  import opened Statuses
  import opened ParallelSessions
  import opened Languages

  /**
   * `connectAgentSession`. A leg that already holds a peer connection is left
   * alone. Otherwise it goes CONNECTING; then a key fetch that throws ends
   * DISCONNECTED, a missing key returns at once (the leg stays CONNECTING and
   * the primary session is marked DISCONNECTED), a missing microphone or a
   * failed exchange ends DISCONNECTED, and success stores both handles and
   * ends CONNECTED. The key is fetched before the microphone is checked.
   */
  function AppConnect(st: ParallelState, role: Role, mic: bool, o: ConnectOutcome): (r: ParallelState)
    ensures LegOf(st, role).pc ==> r == st
    ensures LegOf(r, Other(role)) == LegOf(st, Other(role))
    ensures LegOf(r, role).buffer == LegOf(st, role).buffer
    ensures !LegOf(st, role).pc ==>
              && (o.key == NoKey <==> LegOf(r, role).status == Connecting)
              && (LegOf(r, role).status == Connected <==> (o.key == GotKey && mic && o.link == LinkUp))
              && (LegOf(r, role).pc <==> LegOf(r, role).status == Connected)
              && (o.key == NoKey ==> r.primaryStatus == Disconnected)
              && (o.key != NoKey ==> r.primaryStatus == st.primaryStatus)
  {
    var l := LegOf(st, role);
    if l.pc then st
    else
      var connecting := l.(status := Connecting);
      match o.key
      case KeyFetchFailed => WithLeg(st, role, connecting.(status := Disconnected))
      case NoKey => WithLeg(st, role, connecting).(primaryStatus := Disconnected)
      case GotKey =>
        if !mic then WithLeg(st, role, connecting.(status := Disconnected))
        else
          match o.link
          case LinkFailed => WithLeg(st, role, connecting.(status := Disconnected))
          case LinkUp => WithLeg(st, role, connecting.(pc := true, dc := true, status := Connected))
  }

  /**
   * `startParallelConnections`. Without a microphone nothing happens.
   * Otherwise each leg that is DISCONNECTED is connected, doctor leg first.
   * `fault` stands for an exception escaping a connect: the catch drops both
   * peer-connection handles and sets both legs DISCONNECTED, leaving the
   * data-channel handles as they were.
   */
  function AppStart(st: ParallelState, mic: bool, toPatient: ConnectOutcome, toDoctor: ConnectOutcome,
                    fault: bool): (r: ParallelState)
    ensures !mic ==> r == st
    ensures mic && !fault && st.doctorToPatient.status != Disconnected ==> r.doctorToPatient == st.doctorToPatient
    ensures mic && !fault && st.patientToDoctor.status != Disconnected ==> r.patientToDoctor == st.patientToDoctor
    ensures mic && fault ==>
              && r.doctorToPatient.status == Disconnected && !r.doctorToPatient.pc
              && r.patientToDoctor.status == Disconnected && !r.patientToDoctor.pc
    ensures mic && !fault && st.doctorToPatient.status == Disconnected ==>
              r.doctorToPatient == AppConnect(st, DoctorToPatient, mic, toPatient).doctorToPatient
    ensures mic && !fault && st.patientToDoctor.status == Disconnected ==>
              r.patientToDoctor == AppConnect(st, PatientToDoctor, mic, toDoctor).patientToDoctor
    ensures r.doctorToPatient.buffer == st.doctorToPatient.buffer
    ensures r.patientToDoctor.buffer == st.patientToDoctor.buffer
  {
    if !mic then st
    else
      var s1 := if st.doctorToPatient.status == Disconnected
                then AppConnect(st, DoctorToPatient, mic, toPatient) else st;
      var s2 := if st.patientToDoctor.status == Disconnected
                then AppConnect(s1, PatientToDoctor, mic, toDoctor) else s1;
      if fault then
        s2.(doctorToPatient := s2.doctorToPatient.(pc := false, status := Disconnected),
            patientToDoctor := s2.patientToDoctor.(pc := false, status := Disconnected))
      else s2
  }

  /**
   * Whether the page's start effects fire. One fires on the flag and both
   * party languages, a second on the flag alone, so together they fire on
   * the flag alone.
   */
  function AppStartFires(parallel: bool, doctor: Option<Language>, patient: Option<Language>): (b: bool)
    ensures b <==> parallel
  {
    (parallel && doctor.Some? && patient.Some?) || parallel
  }

  /** The page's lifecycle effects for one value of the flag: cleanup when it is false, start when it is true. */
  function AppLifecycle(st: ParallelState, parallel: bool, doctor: Option<Language>, patient: Option<Language>,
                        mic: bool, toPatient: ConnectOutcome, toDoctor: ConnectOutcome, fault: bool): (r: ParallelState)
    ensures !parallel ==> TornDown(r)
    ensures parallel ==> r == AppStart(st, mic, toPatient, toDoctor, fault)
  {
    if !parallel then Teardown(st)
    else if AppStartFires(parallel, doctor, patient) then AppStart(st, mic, toPatient, toDoctor, fault)
    else st
  }

  /**
   * The invariant the page's steps keep for each leg: a leg is CONNECTED
   * exactly when it holds a peer connection, and it never holds a peer
   * connection without a data channel.
   */
  predicate LegWellFormed(l: Leg) {
    (l.status == Connected <==> l.pc) && (l.pc ==> l.dc)
  }

  predicate AppWellFormed(st: ParallelState) {
    LegWellFormed(st.doctorToPatient) && LegWellFormed(st.patientToDoctor)
  }

  lemma AppConnectPreserves(st: ParallelState, role: Role, mic: bool, o: ConnectOutcome)
    requires AppWellFormed(st)
    ensures AppWellFormed(AppConnect(st, role, mic, o))
  {
  }

  lemma AppStartPreserves(st: ParallelState, mic: bool, a: ConnectOutcome, b: ConnectOutcome, fault: bool)
    requires AppWellFormed(st)
    ensures AppWellFormed(AppStart(st, mic, a, b, fault))
  {
    if mic {
      var s1 := if st.doctorToPatient.status == Disconnected then AppConnect(st, DoctorToPatient, mic, a) else st;
      AppConnectPreserves(st, DoctorToPatient, mic, a);
      AppConnectPreserves(s1, PatientToDoctor, mic, b);
    }
  }

  /** Closing a channel and tearing down keep the invariant. */
  lemma AppClosePreserves(st: ParallelState, role: Role)
    requires AppWellFormed(st)
    ensures AppWellFormed(ChannelClosed(st, role))
    ensures AppWellFormed(Teardown(st))
  {
  }

  /**
   * No duplicate connection: a leg that is CONNECTING or CONNECTED is never
   * connected again by a start, and a direct connect on a leg that holds a
   * peer connection changes nothing.
   */
  lemma NoDuplicateConnect(st: ParallelState, role: Role, mic: bool, o: ConnectOutcome,
                           a: ConnectOutcome, b: ConnectOutcome)
    requires AppWellFormed(st)
    ensures LegOf(st, role).status == Connected ==> AppConnect(st, role, mic, o) == st
    ensures st.doctorToPatient.status != Disconnected ==> AppStart(st, mic, a, b, false).doctorToPatient == st.doctorToPatient
    ensures st.patientToDoctor.status != Disconnected ==> AppStart(st, mic, a, b, false).patientToDoctor == st.patientToDoctor
  {
  }

  /**
   * A missing key leaves the leg CONNECTING with no handles; later starts
   * skip it, and the close listener was never attached, so only a teardown
   * brings it back to DISCONNECTED.
   */
  lemma NullKeyLeavesLegConnecting(st: ParallelState, role: Role, mic: bool, link: LinkOutcome,
                                                      a: ConnectOutcome, b: ConnectOutcome)
    requires AppWellFormed(st) && LegOf(st, role).status == Disconnected
    ensures var s1 := AppConnect(st, role, mic, ConnectOutcome(NoKey, link));
      && LegOf(s1, role).status == Connecting && !LegOf(s1, role).pc
      && s1.primaryStatus == Disconnected
      && LegOf(AppStart(s1, true, a, b, false), role) == LegOf(s1, role)
      && LegOf(Teardown(s1), role).status == Disconnected
  {
    var s1 := AppConnect(st, role, mic, ConnectOutcome(NoKey, link));
    assert !LegOf(st, role).pc;
    match role
    case DoctorToPatient =>
      assert s1.doctorToPatient.status == Connecting;
    case PatientToDoctor =>
      assert s1.patientToDoctor.status == Connecting;
  }

  /** When both exchanges succeed from a torn-down pair, both legs end CONNECTED with their handles. */
  lemma StartFromTornDownConnectsBoth(st: ParallelState)
    requires TornDown(st)
    ensures var r := AppStart(st, true, ConnectOutcome(GotKey, LinkUp), ConnectOutcome(GotKey, LinkUp), false);
      && r.doctorToPatient.status == Connected && r.doctorToPatient.pc && r.doctorToPatient.dc
      && r.patientToDoctor.status == Connected && r.patientToDoctor.pc && r.patientToDoctor.dc
      && TornDown(Teardown(r))
  {
  }

  /**
   * The start effect that re-runs on a leg-status change. Its callback
   * depends on both statuses, but the effect only starts the legs while the
   * flag and both party languages are set; the other start effect depends
   * on the flag and the microphone alone and does not re-run.
   */
  function AppStatusRestart(st: ParallelState, parallel: bool, doctor: Option<Language>, patient: Option<Language>,
                            mic: bool, toPatient: ConnectOutcome, toDoctor: ConnectOutcome, fault: bool): (r: ParallelState)
    ensures !(parallel && doctor.Some? && patient.Some?) ==> r == st
    ensures parallel && doctor.Some? && patient.Some? ==> r == AppStart(st, mic, toPatient, toDoctor, fault)
  {
    if parallel && doctor.Some? && patient.Some? then AppStart(st, mic, toPatient, toDoctor, fault) else st
  }

  /**
   * A channel close sets its leg DISCONNECTED and so re-runs the gated start
   * effect: with both party languages, the microphone and both exchanges
   * succeeding, the closed leg comes back CONNECTED and a leg that was not
   * DISCONNECTED is left alone.
   */
  lemma AppClosedLegReconnects(st: ParallelState, role: Role, d: Language, p: Language)
    requires AppWellFormed(st)
    ensures var ok := ConnectOutcome(GotKey, LinkUp);
      var r := AppStatusRestart(ChannelClosed(st, role), true, Some(d), Some(p), true, ok, ok, false);
      && LegOf(r, role).status == Connected && LegOf(r, role).pc && LegOf(r, role).dc
      && (LegOf(st, Other(role)).status != Disconnected ==> LegOf(r, Other(role)) == LegOf(st, Other(role)))
  {
  }

  /**
   * Without both party languages the re-run starts nothing: a closed leg
   * stays DISCONNECTED without handles, whatever the outcomes would be.
   */
  lemma AppClosedLegStaysDown(st: ParallelState, role: Role, d: Option<Language>, p: Option<Language>, mic: bool,
                              a: ConnectOutcome, b: ConnectOutcome, fault: bool)
    requires d.None? || p.None?
    ensures var r := AppStatusRestart(ChannelClosed(st, role), true, d, p, mic, a, b, fault);
      LegOf(r, role).status == Disconnected && !LegOf(r, role).pc && !LegOf(r, role).dc
  {
  }
}
