/**
 * The global flag context: the active-link flag, the message-display flag,
 * whether a microphone stream has been captured, the parallel-interpretation
 * flag and the spoken-language string.
 */
module GlobalFlags {

  datatype FlagState = FlagState(
    activeWebRtc: bool,
    displayMessages: bool,
    micStream: bool,       // a captured microphone stream is present
    parallelConnection: bool,
    spokenLanguage: string)

  function InitialFlags(): (f: FlagState)
    ensures f.activeWebRtc && !f.displayMessages && !f.micStream && !f.parallelConnection
    ensures f.spokenLanguage == "unknown"
  {
    FlagState(true, false, false, false, "unknown")
  }

  /** `toggleGlobalFlag`: negates the active-link flag and nothing else. */
  function ToggleGlobalFlag(f: FlagState): (r: FlagState)
    ensures r.activeWebRtc == !f.activeWebRtc
    ensures r.(activeWebRtc := f.activeWebRtc) == f
  {
    f.(activeWebRtc := !f.activeWebRtc)
  }

  lemma ToggleTwiceRestores(f: FlagState)
    ensures ToggleGlobalFlag(ToggleGlobalFlag(f)) == f
  {
  }

  function SetDisplayMessages(f: FlagState, v: bool): (r: FlagState)
    ensures r.displayMessages == v && r.(displayMessages := f.displayMessages) == f
  {
    f.(displayMessages := v)
  }

  function SetParallelConnection(f: FlagState, v: bool): (r: FlagState)
    ensures r.parallelConnection == v && r.(parallelConnection := f.parallelConnection) == f
  {
    f.(parallelConnection := v)
  }

  function SetSpokenLanguage(f: FlagState, lang: string): (r: FlagState)
    ensures r.spokenLanguage == lang && r.(spokenLanguage := f.spokenLanguage) == f
  {
    f.(spokenLanguage := lang)
  }

  /**
   * The mount-time microphone capture: a granted request stores the stream;
   * a refused one is only logged, so the stream stays as it was.
   */
  function CaptureMic(f: FlagState, granted: bool): (r: FlagState)
    ensures r.micStream == (granted || f.micStream)
    ensures r.(micStream := f.micStream) == f
  {
    if granted then f.(micStream := true) else f
  }

  /** Right after mounting, the microphone stream is present exactly when the capture was granted. */
  lemma CaptureAtMount(granted: bool)
    ensures CaptureMic(InitialFlags(), granted).micStream == granted
  {
  }
}
