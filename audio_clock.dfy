/**
 * Wall-clock playback tracking of the carol voice (CarolingGame.playAudio,
 * pauseCarolAudio, resetAudioState in caroling.js). The audio API gives no
 * reliable playback position, so the game records a synthetic start instant
 * (now - offset) and derives the position from Date.now(). All times here
 * are integer milliseconds.
 */
module AudioClock {

  import opened Wrappers

  /** A decoded audio buffer; only its duration matters to the game. */
  datatype Buffer = Buffer(id: nat, durationMs: nat)

  /** The audio bookkeeping fields of CarolingGame, as one value. */
  datatype Voice = Voice(
    current: bool,          // currentAudio (and its gain node) is set
    isPlaying: bool,
    isPaused: bool,         // isAudioPaused
    startTimestamp: int,    // audioStartTimestamp
    elapsedMs: int,         // audioElapsedTime
    buffer: Option<Buffer>) // audioBuffer

  /** The state resetAudioState leaves behind. */
  function Idle(): Voice
  {
    Voice(false, false, false, 0, 0, None)
  }

  /** The playback position the wall clock implies at instant now. */
  function Position(v: Voice, now: int): int
  {
    now - v.startTimestamp
  }

  function Offset(startMs: int): nat
  {
    if startMs < 0 then 0 else startMs
  }

  /** playAudio(buffer, startTime) with an audio context present. */
  function Play(v: Voice, now: int, b: Buffer, startMs: int): (w: Voice)
    ensures w.current && w.isPlaying && !w.isPaused && w.buffer == Some(b)
    ensures Position(w, now) == w.elapsedMs == Offset(startMs)
    ensures forall later :: Position(w, later) == Offset(startMs) + (later - now)
  {
    Voice(true, true, false, now - Offset(startMs), Offset(startMs), Some(b))
  }

  /** pauseCarolAudio at instant now, with its 300 ms fade taken as immediate. */
  function Pause(v: Voice, now: int): (w: Voice)
    ensures w.isPaused && w.buffer == v.buffer
    ensures v.current && v.isPlaying ==> !w.current && !w.isPlaying && w.elapsedMs == Position(v, now)
    ensures !(v.current && v.isPlaying) ==> w == v.(isPaused := true)
  {
    if v.current && v.isPlaying then
      Voice(false, false, true, v.startTimestamp, Position(v, now), v.buffer)
    else
      v.(isPaused := true)
  }

  /** Pausing at t1 a voice started at t0 from offset s records s + (t1 - t0). */
  lemma PauseRecordsPosition(v: Voice, t0: int, b: Buffer, s: int, t1: int)
    ensures Pause(Play(v, t0, b, s), t1).elapsedMs == Offset(s) + (t1 - t0)
  {
  }

  /**
   * Pause and resume lose no playback time: after playing from s at t0,
   * pausing at t1 and replaying the recorded position at t2, the position
   * at t3 counts exactly the time spent playing.
   */
  lemma PauseResumeContinues(v: Voice, b: Buffer, s: int, t0: int, t1: int, t2: int, t3: int)
    requires t0 <= t1
    ensures var p := Pause(Play(v, t0, b, s), t1);
            Position(Play(p, t2, b, p.elapsedMs), t3) == Offset(s) + (t1 - t0) + (t3 - t2)
  {
    var p := Pause(Play(v, t0, b, s), t1);
    PauseRecordsPosition(v, t0, b, s, t1);
    assert p.elapsedMs >= 0;
  }
}
