/**
 * The two interpretation legs (doctor to patient, patient to doctor): for
 * each, the session status, whether its peer-connection and data-channel
 * handles are held, and its audio buffer. Both hook variants share these
 * steps; connecting and starting differ and live in their own modules.
 */
module ParallelSessions {
  import opened Statuses
  import opened AudioBuffers

  datatype Role = DoctorToPatient | PatientToDoctor

  datatype Leg = Leg(status: SessionStatus, pc: bool, dc: bool, buffer: AudioBuffer)

  /**
   * Both legs, plus the primary session's status, which a failed key fetch
   * in the page component also writes.
   */
  datatype ParallelState = ParallelState(doctorToPatient: Leg, patientToDoctor: Leg, primaryStatus: SessionStatus)

  /** How the credential fetch ended: it threw, it returned no key, or it returned one. */
  datatype KeyOutcome = KeyFetchFailed | NoKey | GotKey

  /** How the offer/answer exchange ended. */
  datatype LinkOutcome = LinkFailed | LinkUp

  datatype ConnectOutcome = ConnectOutcome(key: KeyOutcome, link: LinkOutcome)

  const IdleLeg: Leg := Leg(Disconnected, false, false, Empty)

  function InitialParallel(primary: SessionStatus): (st: ParallelState)
    ensures st.doctorToPatient == IdleLeg && st.patientToDoctor == IdleLeg
  {
    ParallelState(IdleLeg, IdleLeg, primary)
  }

  function LegOf(st: ParallelState, role: Role): Leg {
    match role
    case DoctorToPatient => st.doctorToPatient
    case PatientToDoctor => st.patientToDoctor
  }

  function Other(role: Role): Role {
    match role
    case DoctorToPatient => PatientToDoctor
    case PatientToDoctor => DoctorToPatient
  }

  /** The state with one leg replaced. */
  function WithLeg(st: ParallelState, role: Role, l: Leg): (r: ParallelState)
    ensures LegOf(r, role) == l
    ensures LegOf(r, Other(role)) == LegOf(st, Other(role))
    ensures r.primaryStatus == st.primaryStatus
  {
    match role
    case DoctorToPatient => st.(doctorToPatient := l)
    case PatientToDoctor => st.(patientToDoctor := l)
  }

  /** The leg after its handles are dropped and its status forced to DISCONNECTED. */
  function Dropped(l: Leg): (r: Leg)
    ensures r.status == Disconnected && !r.pc && !r.dc && r.buffer == l.buffer
  {
    l.(status := Disconnected, pc := false, dc := false)
  }

  /**
   * The data channel's close listener: that leg becomes DISCONNECTED and
   * loses both handles; the other leg is untouched.
   */
  function ChannelClosed(st: ParallelState, role: Role): (r: ParallelState)
    ensures LegOf(r, role) == Dropped(LegOf(st, role))
    ensures LegOf(r, Other(role)) == LegOf(st, Other(role))
    ensures r.primaryStatus == st.primaryStatus
  {
    WithLeg(st, role, Dropped(LegOf(st, role)))
  }

  predicate TornDown(st: ParallelState) {
    && st.doctorToPatient.status == Disconnected && !st.doctorToPatient.pc && !st.doctorToPatient.dc
    && st.patientToDoctor.status == Disconnected && !st.patientToDoctor.pc && !st.patientToDoctor.dc
  }

  /**
   * Tearing both legs down (the cleanup run whenever the parallel flag is
   * false): both DISCONNECTED with no handles. Buffers are not touched.
   */
  function Teardown(st: ParallelState): (r: ParallelState)
    ensures TornDown(r)
    ensures r.doctorToPatient.buffer == st.doctorToPatient.buffer
    ensures r.patientToDoctor.buffer == st.patientToDoctor.buffer
    ensures r.primaryStatus == st.primaryStatus
  {
    st.(doctorToPatient := Dropped(st.doctorToPatient), patientToDoctor := Dropped(st.patientToDoctor))
  }

  /** Tearing down twice is tearing down once, and tearing down a torn-down pair changes nothing. */
  lemma TeardownIdempotent(st: ParallelState)
    ensures Teardown(Teardown(st)) == Teardown(st)
    ensures TornDown(st) ==> Teardown(st) == st
  {
  }

  /** Inbound audio for a leg, through the recorder's positive-size guard. */
  function ReceiveChunk(st: ParallelState, role: Role, c: Chunk): (r: ParallelState)
    ensures LegOf(r, role).buffer == RecordChunk(LegOf(st, role).buffer, c)
    ensures LegOf(r, role).(buffer := LegOf(st, role).buffer) == LegOf(st, role)
    ensures LegOf(r, Other(role)) == LegOf(st, Other(role))
  {
    var l := LegOf(st, role);
    WithLeg(st, role, l.(buffer := RecordChunk(l.buffer, c)))
  }

  /** Both buffers emptied, everything else kept. */
  function ClearBoth(st: ParallelState): (r: ParallelState)
    ensures r.doctorToPatient.buffer.chunks == [] && r.patientToDoctor.buffer.chunks == []
    ensures r.doctorToPatient.(buffer := st.doctorToPatient.buffer) == st.doctorToPatient
    ensures r.patientToDoctor.(buffer := st.patientToDoctor.buffer) == st.patientToDoctor
    ensures r.primaryStatus == st.primaryStatus
  {
    st.(doctorToPatient := st.doctorToPatient.(buffer := Clear(st.doctorToPatient.buffer)),
        patientToDoctor := st.patientToDoctor.(buffer := Clear(st.patientToDoctor.buffer)))
  }

  /** A stream of inbound chunks for one leg, in arrival order. */
  function ReceiveAll(st: ParallelState, role: Role, cs: seq<Chunk>): (r: ParallelState)
    ensures LegOf(r, role).buffer == RecordAll(LegOf(st, role).buffer, cs)
    ensures LegOf(r, role).(buffer := LegOf(st, role).buffer) == LegOf(st, role)
    ensures LegOf(r, Other(role)) == LegOf(st, Other(role))
    ensures r.primaryStatus == st.primaryStatus
    decreases |cs|
  {
    if |cs| == 0 then st else ReceiveAll(ReceiveChunk(st, role, cs[0]), role, cs[1..])
  }
}
