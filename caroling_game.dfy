/**
 * The run-level side of the caroling minigame (class CarolingGame in
 * caroling.js): lives, cumulative score, completed houses, per-house song
 * rotation, the wall-clock audio bookkeeping, and the once-only completion
 * callback to the 3D world.
 */
module Caroling {

  import opened Wrappers
  import opened Ledger
  import opened AudioClock

  datatype Song = Song(name: string, mp3: string, json: string)

  datatype SongError = NoSongsForHouse(house: int)

  /** What the completion callback receives. */
  datatype CompletionEvent =
    | GameOver
    | Finished(success: bool, finalSatisfaction: int, score: int, maxCombo: nat,
               houseNumber: int, completedHouseNumbers: seq<int>, totalScore: int,
               lives: int, canExit: bool, needRespawn: bool)

  /** The arguments the completion screen holds until the player leaves it. */
  datatype ExitArgs = ExitArgs(success: bool, finalSatisfaction: int, score: int, maxCombo: nat)

  /** The song pool of every house (houseSongs). */
  function DefaultHouseSongs(): map<int, seq<Song>>
  {
    map[
      1 := [Song("Silent Night", "assets/music/easy/Silent Night.mp3",
                 "assets/music/easy/silent_night.json")],
      2 := [Song("Carol of the Bells", "assets/music/easy/carol of the bells.mp3",
                 "assets/music/easy/carol_of_the_bells.json")],
      3 := [Song("Caroling Divas", "assets/music/moderate/Caroling Divas.mp3",
                 "assets/music/moderate/caroling_divas.json")],
      4 := [Song("Jingle Bells Twist", "assets/music/moderate/jingle bells (twist).mp3",
                 "assets/music/moderate/jingle_bells_(twist).json")],
      5 := [Song("Rockin Around", "assets/music/hard/Rockin Around The Christmas Tree.mp3",
                 "assets/music/hard/rockin_around_the_christmas_tree.json")],
      6 := [Song("Arizona B", "assets/music/hard/Arizona B (Christmas Version).mp3",
                 "assets/music/hard/arizona_b_(christmas_version).json")]
    ]
  }

  /** Every house 1..6 has a pool of exactly one song. */
  lemma DefaultTableShape()
    ensures forall h :: h in DefaultHouseSongs() <==> 1 <= h <= 6
    ensures forall h :: h in DefaultHouseSongs() ==> |DefaultHouseSongs()[h]| == 1
  {
  }

  /** How many normal completions (as opposed to game-over signals) were delivered. */
  function FinishedCount(events: seq<CompletionEvent>): nat
  {
    if events == [] then 0
    else FinishedCount(events[..|events| - 1]) + (if events[|events| - 1].Finished? then 1 else 0)
  }

  lemma FinishedCountAppend(events: seq<CompletionEvent>, e: CompletionEvent)
    ensures FinishedCount(events + [e]) == FinishedCount(events) + (if e.Finished? then 1 else 0)
  {
    assert (events + [e])[..|events|] == events;
  }

  predicate NoDuplicates(s: seq<int>)
  {
    forall i, j :: 0 <= i < j < |s| ==> s[i] != s[j]
  }

  function LastPick(history: map<int, nat>, house: int): Option<nat>
  {
    if house in history then Some(history[house]) else None
  }

  class CarolingGame {
    var currentHouse: int
    var currentDifficulty: Difficulty
    var initialSatisfaction: int
    var currentSatisfaction: int

    var completedHouseNumbers: seq<int>
    var totalScore: int

    const houseSongs: map<int, seq<Song>>
    var houseSongHistory: map<int, nat>
    var currentSongData: Option<Song>

    const maxLives: int := 3
    var lives: int

    var completionCalled: bool
    var hasCallback: bool               // completionCallback is set
    var notified: seq<CompletionEvent>  // what the current callback has received
    var completionScreen: Option<ExitArgs>

    var hasAudioContext: bool
    var audioBuffers: map<string, Buffer>
    var voice: Voice                    // currentAudio, isPlaying, isAudioPaused, audioStartTimestamp, audioElapsedTime, audioBuffer

    /** The life counter and the session's satisfaction stay in range. */
    ghost predicate Valid()
      reads this`lives, this`currentSatisfaction
    {
      lives <= maxLives && 0 < currentSatisfaction <= 100
    }

    /**
     * The completion callback receives at most one normal completion, and
     * only after exitGame has run and consumed it.
     */
    ghost predicate OnceOnly()
      reads this`notified, this`completionCalled, this`hasCallback
    {
      FinishedCount(notified) == 0 ||
      (FinishedCount(notified) == 1 && completionCalled && !hasCallback)
    }

    /** The song table is passed in; the game itself builds DefaultHouseSongs(). */
    constructor (songs: map<int, seq<Song>>)
      ensures Valid() && OnceOnly()
      ensures lives == 3 && totalScore == 0 && completedHouseNumbers == [] && houseSongHistory == map[]
      ensures houseSongs == songs && voice == Idle()
      ensures currentHouse == 1 && currentSatisfaction == 50
      ensures !completionCalled && !hasCallback && notified == [] && completionScreen == None
      ensures !hasAudioContext && audioBuffers == map[] && currentSongData == None
    {
      currentHouse := 1;
      currentDifficulty := Easy;
      initialSatisfaction := 50;
      currentSatisfaction := 50;
      completedHouseNumbers := [];
      totalScore := 0;
      houseSongs := songs;
      houseSongHistory := map[];
      currentSongData := None;
      lives := 3;
      completionCalled := false;
      hasCallback := false;
      notified := [];
      completionScreen := None;
      hasAudioContext := false;
      audioBuffers := map[];
      voice := Idle();
    }

    /** The house has a non-empty song pool. */
    predicate HasSongs(house: int)
    {
      house in houseSongs && |houseSongs[house]| > 0
    }

    /** canExitVillage. */
    function CanExit(): (r: bool)
      reads this`totalScore
      ensures r <==> totalScore >= ExitThreshold
    {
      CanExitVillage(totalScore)
    }

    /**
     * init(houseNumber, callback): a fresh callback, the difficulty label and
     * the random initial satisfaction (the draw passed as roll), then the
     * start screen, which picks the song.
     */
    method Init(house: int, roll: nat, songRoll: nat) returns (r: Result<Song, SongError>)
      requires Valid()
      modifies this`currentHouse, this`hasCallback, this`notified, this`completionCalled,
               this`completionScreen, this`currentDifficulty, this`initialSatisfaction,
               this`currentSatisfaction, this`houseSongHistory, this`currentSongData
      ensures Valid()
      ensures currentHouse == house && currentDifficulty == DifficultyOf(house)
      ensures initialSatisfaction == currentSatisfaction == InitialSatisfaction(house, roll)
      ensures !completionCalled && hasCallback && notified == [] && completionScreen == None
      ensures HasSongs(house) ==> r.Ok? && currentSongData == Some(r.value)
      ensures !HasSongs(house) ==> r.Err? && currentSongData == old(currentSongData)
    {
      var satisfaction := InitialSatisfaction(house, roll);
      currentHouse, hasCallback, notified, completionCalled, completionScreen := house, true, [], false, None;
      currentDifficulty, initialSatisfaction, currentSatisfaction := DifficultyOf(house), satisfaction, satisfaction;
      r := ShowStartScreen(songRoll);
    }

    /**
     * showStartScreen: picks the song for the current house; getSongForHouse
     * throws for a house without songs, which leaves currentSongData as it was.
     */
    method ShowStartScreen(songRoll: nat) returns (r: Result<Song, SongError>)
      modifies this`houseSongHistory, this`currentSongData
      ensures HasSongs(currentHouse) ==> r.Ok? && currentSongData == Some(r.value)
      ensures !HasSongs(currentHouse) ==>
                r.Err? && currentSongData == old(currentSongData) && houseSongHistory == old(houseSongHistory)
    {
      r := GetSongForHouse(currentHouse, songRoll);
      if r.Ok? {
        currentSongData := Some(r.value);
      }
    }

    /**
     * getSongForHouse: round-robin after the last pick for the house, the
     * random draw (songRoll) on the first pick; an error for a house without
     * songs. The chosen index is recorded.
     */
    method GetSongForHouse(house: int, songRoll: nat) returns (r: Result<Song, SongError>)
      modifies this`houseSongHistory
      ensures !HasSongs(house) ==> r == Err(NoSongsForHouse(house)) && houseSongHistory == old(houseSongHistory)
      ensures HasSongs(house) ==>
                var pool := houseSongs[house];
                var i := NextSongIndex(LastPick(old(houseSongHistory), house), |pool|, songRoll);
                r == Ok(pool[i]) && houseSongHistory == old(houseSongHistory)[house := i]
    {
      if !HasSongs(house) {
        return Err(NoSongsForHouse(house));
      }
      var pool := houseSongs[house];
      var songIndex := 0;
      if house in houseSongHistory {
        songIndex := (houseSongHistory[house] + 1) % |pool|;
      } else {
        songIndex := songRoll % |pool|;
      }
      houseSongHistory := houseSongHistory[house := songIndex];
      r := Ok(pool[songIndex]);
    }

    /**
     * The loading step of startGame: the audio context is created and, when
     * the mp3 loaded, its buffer is cached under the song's name. A failed
     * load shows the error screen and changes nothing else.
     */
    method LoadSong(loaded: Option<Buffer>)
      requires currentSongData.Some?
      modifies this`hasAudioContext, this`audioBuffers
      ensures hasAudioContext
      ensures loaded.Some? ==> audioBuffers == old(audioBuffers)[currentSongData.value.name := loaded.value]
      ensures loaded.None? ==> audioBuffers == old(audioBuffers)
    {
      hasAudioContext := true;
      if loaded.Some? {
        audioBuffers := audioBuffers[currentSongData.value.name := loaded.value];
      }
    }

    /** playAudio: without an audio context nothing plays. */
    method PlayAudio(now: int, buffer: Buffer, startMs: int) returns (started: bool)
      modifies this`voice
      ensures started == hasAudioContext
      ensures started ==> voice == Play(old(voice), now, buffer, startMs)
      ensures !started ==> voice == old(voice)
    {
      if !hasAudioContext {
        return false;
      }
      var startOffset := if startMs < 0 then 0 else startMs;
      voice := Voice(current := true, isPlaying := true, isPaused := false,
                     startTimestamp := now - startOffset, elapsedMs := startOffset,
                     buffer := Some(buffer));
      started := true;
    }

    /** pauseCarolAudio (the fade-out before the stop is taken as immediate). */
    method PauseCarolAudio(now: int)
      modifies this`voice
      ensures voice == Pause(old(voice), now)
    {
      if voice.current && voice.isPlaying {
        voice := voice.(elapsedMs := now - voice.startTimestamp,
                        current := false, isPlaying := false, isPaused := true);
      } else {
        voice := voice.(isPaused := true);
      }
    }

    /**
     * resumeCarolAudio: replay the remembered buffer from the recorded
     * position, or fall back to the cached buffer of the current song.
     */
    method ResumeCarolAudio(now: int) returns (resumed: bool)
      modifies this`voice
      ensures resumed ==> old(voice).isPaused && hasAudioContext
      ensures old(voice).isPaused && hasAudioContext && old(voice).buffer.Some? ==> resumed
      ensures && old(voice).isPaused && hasAudioContext && old(voice).buffer.None?
              && currentSongData.Some? && currentSongData.value.name in audioBuffers
              ==> resumed
      ensures resumed && old(voice).buffer.Some? ==>
                voice == Play(old(voice), now, old(voice).buffer.value, old(voice).elapsedMs)
      ensures resumed && old(voice).buffer.None? ==>
                currentSongData.Some? && currentSongData.value.name in audioBuffers &&
                voice == Play(old(voice), now, audioBuffers[currentSongData.value.name], old(voice).elapsedMs)
      ensures !resumed ==> voice == old(voice)
    {
      if !hasAudioContext {
        return false;
      }
      if voice.isPaused && voice.buffer.Some? {
        resumed := PlayAudio(now, voice.buffer.value, voice.elapsedMs);
        if resumed {
          voice := voice.(isPaused := false);
          return;
        }
      } else if voice.isPaused {
        if currentSongData.Some? && currentSongData.value.name in audioBuffers {
          resumed := PlayAudio(now, audioBuffers[currentSongData.value.name], voice.elapsedMs);
          if resumed {
            voice := voice.(isPaused := false);
            return;
          }
        }
      }
      resumed := false;
    }

    /** resetAudioState. */
    method ResetAudioState()
      modifies this`voice
      ensures voice == Idle()
    {
      voice := Idle();
    }

    /** stopCarolAudio (the fade-out before the stop is taken as immediate). */
    method StopCarolAudio()
      modifies this`voice
      ensures old(voice).current ==> voice == Idle()
      ensures !old(voice).current ==> voice == old(voice)
    {
      if voice.current {
        ResetAudioState();
      }
    }

    /**
     * onGameComplete: a success adds the session score and records the house
     * once, then shows the completion screen; a failure costs a life and
     * either ends the run (no lives left) or exits straight back to the world.
     */
    method OnGameComplete(success: bool, finalSatisfaction: int, score: int, maxCombo: nat)
      requires Valid() && OnceOnly()
      modifies this`totalScore, this`completedHouseNumbers, this`lives,
               this`completionScreen, this`completionCalled, this`hasCallback, this`notified, this`voice
      ensures Valid() && OnceOnly()
      ensures NoDuplicates(old(completedHouseNumbers)) ==> NoDuplicates(completedHouseNumbers)
      ensures success ==> totalScore == old(totalScore) + score && lives == old(lives)
      ensures success && currentHouse in old(completedHouseNumbers) ==>
                completedHouseNumbers == old(completedHouseNumbers)
      ensures success && currentHouse !in old(completedHouseNumbers) ==>
                completedHouseNumbers == old(completedHouseNumbers) + [currentHouse]
      ensures success ==> completionScreen == Some(ExitArgs(success, finalSatisfaction, score, maxCombo))
      ensures success ==> notified == old(notified) && completionCalled == old(completionCalled)
      ensures !success ==> lives == old(lives) - 1 && totalScore == old(totalScore)
      ensures !success ==> completedHouseNumbers == old(completedHouseNumbers)
      ensures !success && lives <= 0 ==>
                notified == old(notified) + (if old(hasCallback) then [GameOver] else [])
      ensures !success && lives <= 0 ==>
                hasCallback == old(hasCallback) && completionCalled == old(completionCalled)
      ensures !success && lives > 0 ==> completionCalled
      ensures !success && lives > 0 && !old(completionCalled) && old(hasCallback) ==>
                notified == old(notified) + [Finished(false, finalSatisfaction, score, maxCombo,
                  currentHouse, completedHouseNumbers, totalScore, lives, totalScore >= ExitThreshold, true)]
      ensures !success && lives > 0 && (old(completionCalled) || !old(hasCallback)) ==>
                notified == old(notified)
    {
      if success {
        totalScore := totalScore + score;
        if currentHouse !in completedHouseNumbers {
          completedHouseNumbers := completedHouseNumbers + [currentHouse];
        }
        completionScreen := Some(ExitArgs(success, finalSatisfaction, score, maxCombo));
        return;
      }
      lives := lives - 1;
      if lives <= 0 {
        TriggerGameOver();
        return;
      }
      ExitGame(false, finalSatisfaction, score, maxCombo);
    }

    /**
     * The onended handler playAudio installs on each source it starts: the
     * voice is reset. Stopping a source (pause, stop) fires it too.
     */
    method OnVoiceEnded()
      modifies this`voice
      ensures voice == Idle()
      ensures !voice.isPaused && voice.buffer.None?
    {
      ResetAudioState();
    }

    /**
     * The same handler as evidently intended: a source that pauseCarolAudio
     * or stopCarolAudio has already detached (currentAudio is null) is
     * ignored, and only a source that plays to its end resets the voice.
     */
    method OnVoiceEndedGuarded()
      modifies this`voice
      ensures old(voice).current ==> voice == Idle()
      ensures !old(voice).current ==> voice == old(voice)
    {
      if voice.current {
        ResetAudioState();
      }
    }

    /**
     * triggerGameOver: stop the audio and tell the world the run is over.
     * Unlike exitGame it neither sets completionCalled nor consumes the
     * callback.
     */
    method TriggerGameOver()
      requires OnceOnly()
      modifies this`notified, this`voice
      ensures OnceOnly()
      ensures notified == old(notified) + (if hasCallback then [GameOver] else [])
      ensures old(voice).current ==> voice == Idle()
    {
      StopCarolAudio();
      if hasCallback {
        FinishedCountAppend(notified, GameOver);
        notified := notified + [GameOver];
      }
    }

    /**
     * triggerGameOver as evidently intended: guarded and consuming like
     * exitGame, so the game-over signal is the last thing the callback
     * receives and a later exitGame delivers nothing.
     */
    method TriggerGameOverOnce()
      requires OnceOnly()
      modifies this`notified, this`voice, this`completionCalled, this`hasCallback
      ensures OnceOnly() && completionCalled
      ensures !old(completionCalled) ==> !hasCallback
      ensures notified == old(notified) + (if old(hasCallback) && !old(completionCalled) then [GameOver] else [])
    {
      if completionCalled {
        return;
      }
      completionCalled := true;
      StopCarolAudio();
      if hasCallback {
        hasCallback := false;
        FinishedCountAppend(notified, GameOver);
        notified := notified + [GameOver];
      }
    }

    /** The completion screen is left (ENTER or its ten-second countdown). */
    method LeaveCompletionScreen()
      requires OnceOnly()
      modifies this`completionScreen, this`completionCalled, this`hasCallback, this`notified, this`voice
      ensures OnceOnly()
      ensures completionScreen == None
      ensures old(completionScreen).None? ==> notified == old(notified)
      ensures old(completionScreen).Some? ==> completionCalled
      ensures old(completionScreen).Some? && !old(completionCalled) && old(hasCallback) ==>
                var a := old(completionScreen).value;
                !hasCallback &&
                notified == old(notified) + [Finished(a.success, a.finalSatisfaction, a.score, a.maxCombo,
                  currentHouse, completedHouseNumbers, totalScore, lives,
                  totalScore >= ExitThreshold, !a.success)]
      ensures old(completionCalled) || !old(hasCallback) ==> notified == old(notified)
    {
      if completionScreen.Some? {
        var a := completionScreen.value;
        ExitGame(a.success, a.finalSatisfaction, a.score, a.maxCombo);
      }
    }

    /**
     * exitGame: guarded by completionCalled, so the completion callback
     * fires at most once per init; the callback is consumed when it fires.
     */
    method ExitGame(success: bool, finalSatisfaction: int, score: int, maxCombo: nat)
      requires OnceOnly()
      modifies this`completionScreen, this`completionCalled, this`hasCallback, this`notified, this`voice
      ensures OnceOnly()
      ensures completionCalled && completionScreen == None
      ensures old(completionCalled) ==> notified == old(notified) && voice == old(voice)
      ensures !old(completionCalled) && old(hasCallback) ==>
                !hasCallback &&
                notified == old(notified) + [Finished(success, finalSatisfaction, score, maxCombo,
                  currentHouse, completedHouseNumbers, totalScore, lives,
                  totalScore >= ExitThreshold, !success)]
      ensures !old(completionCalled) && !old(hasCallback) ==> notified == old(notified)
      ensures !old(completionCalled) && old(voice).current ==> voice == Idle()
    {
      completionScreen := None;
      if completionCalled {
        return;
      }
      completionCalled := true;
      StopCarolAudio();
      if hasCallback {
        hasCallback := false;
        var e := Finished(success, finalSatisfaction, score, maxCombo, currentHouse,
                          completedHouseNumbers, totalScore, lives, CanExit(), !success);
        FinishedCountAppend(notified, e);
        notified := notified + [e];
      }
    }
  }

  /**
   * A paused carol resumes where it stopped: playing from the start at t0,
   * pausing at t1 and resuming at t2 leaves the voice at t1 - t0 + (t3 - t2)
   * at any later instant t3. This is the first voice of a session: the scene
   * replaces its ended handler (startAudio), so the stop inside the pause
   * runs the scene's handler, which leaves the voice alone.
   */
  method PauseResumeKeepsPosition(t0: int, t1: int, t2: int, t3: int, b: Buffer)
    returns (position: int)
    requires t0 <= t1
    ensures position == (t1 - t0) + (t3 - t2)
  {
    var g := new CarolingGame(map[]);
    g.hasAudioContext := true;
    var started := g.PlayAudio(t0, b, 0);
    g.PauseCarolAudio(t1);
    var resumed := g.ResumeCarolAudio(t2);
    assert resumed;
    position := Position(g.voice, t3);
  }

  /**
   * A voice started by resumeCarolAudio carries playAudio's own ended
   * handler. Pausing it a second time stops the source, the handler resets
   * the voice, and the next resume finds nothing to resume: the carol stays
   * silent and its position is lost.
   */
  method SecondPauseLosesTheCarol(t0: int, t1: int, t2: int, t3: int, t4: int, b: Buffer)
    returns (resumed: bool, v: Voice)
    requires t0 <= t1
    ensures !resumed && v == Idle()
  {
    var g := new CarolingGame(map[]);
    g.hasAudioContext := true;
    var started := g.PlayAudio(t0, b, 0);
    g.PauseCarolAudio(t1);
    resumed := g.ResumeCarolAudio(t2);
    g.PauseCarolAudio(t3);
    g.OnVoiceEnded();
    resumed := g.ResumeCarolAudio(t4);
    v := g.voice;
  }

  /**
   * With the guarded handler the same sequence resumes a second time, and
   * the position counts exactly the time spent playing.
   */
  method GuardedHandlerKeepsTheCarol(t0: int, t1: int, t2: int, t3: int, t4: int, t5: int, b: Buffer)
    returns (resumed: bool, position: int)
    requires t0 <= t1 && t2 <= t3
    ensures resumed && position == (t1 - t0) + (t3 - t2) + (t5 - t4)
  {
    var g := new CarolingGame(map[]);
    g.hasAudioContext := true;
    var started := g.PlayAudio(t0, b, 0);
    g.PauseCarolAudio(t1);
    resumed := g.ResumeCarolAudio(t2);
    assert resumed;
    g.PauseCarolAudio(t3);
    g.OnVoiceEndedGuarded();
    resumed := g.ResumeCarolAudio(t4);
    assert resumed;
    position := Position(g.voice, t5);
  }

  /** One session of the run that ends in failure: init, then onGameComplete(false). */
  method FailSession(g: CarolingGame, house: int)
    requires g.Valid()
    modifies g
    ensures g.Valid() && g.lives == old(g.lives) - 1 && g.currentHouse == house
    ensures g.lives <= 0 ==> g.notified == [GameOver] && g.hasCallback && !g.completionCalled
    ensures g.lives > 0 ==> |g.notified| == 1 && g.notified[0].Finished?
  {
    var r := g.Init(house, 0, 0);
    g.OnGameComplete(false, 0, 0, 0);
  }

  /**
   * Three failures from a fresh run: the first two return to the world with
   * one life fewer each; the third leaves no life and signals game over.
   */
  method ThreeFailuresEndTheRun(songs: map<int, seq<Song>>, house: int) returns (lastEvent: CompletionEvent)
    ensures lastEvent == GameOver
  {
    var g := new CarolingGame(songs);
    FailSession(g, house);
    FailSession(g, house);
    FailSession(g, house);
    lastEvent := g.notified[0];
  }
}
