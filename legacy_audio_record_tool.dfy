/**
 * The first revision of the recorder (luzhiming/Tool/AudioRecordTool.swift):
 * start, stop and toggle over `isRecording` and the recorder handle, with a
 * single state-change observer. No permission check, no durations, no
 * history.
 */
module LegacyAudioRecording {

  /** The fields and what the observer has heard, as a value. */
  datatype LegacyRecorder = LegacyRecorder(recorderActive: bool, isRecording: bool, announced: seq<bool>)

  /** The recorder handle is held exactly while recording. */
  predicate LegacyConsistent(r: LegacyRecorder) {
    r.recorderActive == r.isRecording
  }

  /** `startRecording`: nothing while recording; else the recorder opens or `false` is announced. */
  function LegacyStarted(r: LegacyRecorder, opens: bool): LegacyRecorder {
    if r.isRecording then r
    else if opens then LegacyRecorder(true, true, r.announced + [true])
    else r.(isRecording := false, announced := r.announced + [false])
  }

  /** `stopRecording`: nothing unless recording; else release the recorder and announce `false`. */
  function LegacyStopped(r: LegacyRecorder): LegacyRecorder {
    if !r.isRecording then r
    else LegacyRecorder(false, false, r.announced + [false])
  }

  /** `toggleRecording`. */
  function LegacyToggled(r: LegacyRecorder, opens: bool): LegacyRecorder {
    if r.isRecording then LegacyStopped(r) else LegacyStarted(r, opens)
  }

  /**
   * Every announcement reports the state the recorder is left in, starting
   * and stopping are each refused in the state they would not change, and
   * a toggle always flips the state unless the recorder fails to open.
   */
  lemma LegacyTransitions(r: LegacyRecorder, opens: bool)
    requires LegacyConsistent(r)
    ensures LegacyConsistent(LegacyStarted(r, opens)) && LegacyConsistent(LegacyStopped(r))
    ensures r.isRecording ==> LegacyStarted(r, opens) == r
    ensures !r.isRecording ==> LegacyStopped(r) == r
    ensures var n := LegacyStarted(r, opens);
      !r.isRecording ==> n.announced == r.announced + [n.isRecording] && n.isRecording == opens
    ensures var n := LegacyStopped(r);
      r.isRecording ==> n.announced == r.announced + [false] && !n.isRecording
    ensures var n := LegacyToggled(r, opens);
      n.isRecording == (!r.isRecording && opens) && |n.announced| == |r.announced| + 1
  {
  }

  /** The prototype controller object. */
  class LegacyAudioRecordTool {
    var recorderActive: bool
    var isRecording: bool
    /** The arguments of `onRecordingStateChanged`, in order. */
    var announced: seq<bool>

    function State(): LegacyRecorder
      reads this
    {
      LegacyRecorder(recorderActive, isRecording, announced)
    }

    constructor ()
      ensures LegacyConsistent(State()) && !isRecording && announced == []
    {
      recorderActive := false;
      isRecording := false;
      announced := [];
    }

    method StartRecording(recorderOpens: bool)
      requires LegacyConsistent(State())
      modifies this
      ensures LegacyConsistent(State())
      ensures State() == LegacyStarted(old(State()), recorderOpens)
    {
      if isRecording {
        return;
      }
      if recorderOpens {
        recorderActive := true;
        isRecording := true;
        announced := announced + [true];
      } else {
        isRecording := false;
        announced := announced + [false];
      }
    }

    method StopRecording()
      requires LegacyConsistent(State())
      modifies this
      ensures LegacyConsistent(State())
      ensures State() == LegacyStopped(old(State()))
    {
      if !isRecording {
        return;
      }
      recorderActive := false;
      isRecording := false;
      announced := announced + [false];
    }

    method ToggleRecording(recorderOpens: bool)
      requires LegacyConsistent(State())
      modifies this
      ensures LegacyConsistent(State())
      ensures State() == LegacyToggled(old(State()), recorderOpens)
    {
      if isRecording {
        StopRecording();
      } else {
        StartRecording(recorderOpens);
      }
    }
  }
}
