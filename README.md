# Caroling village: rhythm judge and house progression in Dafny

This project models the game logic of a Christmas caroling game. The player
walks a 3D village of six houses (class `Game3D`, player.js). At an open door
they play a four-lane rhythm minigame (classes `CarolingGame` and
`CarolingScene`, caroling.js) to please a monster. The model covers:

- **the session ledger**: score, combo, maximum combo, satisfaction, hit and
  missed notes, with the tier rules for a hit (Perfect, Good, Bad) and the cost
  of a miss (`ledger.dfy`);
- **one caroling session**: the active-note table, the beat-map schedule with
  its delayed spawns and safety timeout, the judge that picks the closest
  eligible note, misses, the completion check, and the once-only `endGame`
  (`caroling_scene.dfy`);
- **the run across sessions**: lives, total score, completed houses, round-robin
  song choice, the wall-clock playback position of the carol, and the
  completion callback that fires at most once per session
  (`caroling_game.dfy`, `audio_clock.dfy`);
- **house progression**: the unlock requirements, the access check, door and
  HUD status, result bookkeeping, run reset and the victory-exit gates
  (`progression.dfy`, `game3d.dfy`);
- **`adjustColor`**, with JavaScript's `parseInt(…, 16)`, 32-bit shifts and
  masks, and `toString(16).padStart(6, '0')` written out (`colors.dfy`).

Clock instants are integer milliseconds passed in by the caller. The distance
of a note from the hit line is an input function of the note id. Random draws
(initial satisfaction, first song) are parameters. Inside a session, Phaser's
delayed calls become explicit queues and counters whose entries the caller
fires (`FireSpawnTimer`, `FireCompletionTimer`, `FireSafetyTimeout`). The
browser timeouts in front of the completion callback are not queued: the
event is appended to the game's `notified` list at once (see "Left out").

Where the in-game text and the code disagree, the model follows the code:

- The start screen says a good hit gives "+5" and a miss "−5". The constants
  are +7 for Good and −10 for Bad and misses (caroling.js:20-24).
- Satisfaction is clamped to [0, 100] after a hit only. A miss lowers it by 10
  with no clamp (caroling.js:1496-1497 and 1524-1525), so it can go below zero
  before `endGame(false)` runs.
- `houseSongHistory` is not cleared when the run resets (player.js:997-1020
  does not touch it), so the song rotation carries over into a new run.

## Model

| member | source | states |
|---|---|---|
| Ledger.Grade | caroling.js:1466-1478 | a distance below 30 is Perfect, 30 to 59 is Good, and 60 or more is Bad; each direction is an iff |
| Ledger.Clamp | caroling.js:1484 | the result lies in [0, 100]; it is the value itself when in range, 0 below and 100 above |
| Ledger.HitEffect | caroling.js:1448-1484 | a hit adds exactly 100, 50 or 0 to the score by tier and one to combo and hitNotes; satisfaction becomes Clamp(s + 10, 7 or −10), so it stays in [0, 100]; maxCombo becomes the larger of itself and the new combo; missedNotes is unchanged |
| Ledger.Hit | caroling.js:1448-1484 | a hit resolves one more note, and afterwards 0 < combo ≤ maxCombo |
| Ledger.Miss | caroling.js:1520-1526 | a miss resolves one more note, resets combo to 0 and keeps maxCombo |
| Ledger.MissEffect | caroling.js:1520-1526 | a miss costs exactly 10 satisfaction with no clamp, resets combo, keeps the score, and adds one to missedNotes and nothing to hitNotes |
| Ledger.HitKeepsSound | caroling.js:1448-1484 | from a sound ledger (score ≥ 0, combo ≤ maxCombo, −10 < satisfaction ≤ 100) a hit gives a sound ledger |
| Ledger.MissKeepsSound | caroling.js:1495-1535 | from a sound ledger whose session is still live (satisfaction > 0), a miss gives a sound ledger |
| Ledger.BadEqualsMissInConsequence | caroling.js:15-24 | with satisfaction between 10 and 100, a Bad hit and a miss cost the same satisfaction and the same score (the clamp makes no difference there) |
| Ledger.PerfectRun | caroling.js:1448-1484 | n Perfect hits add 100·n to the score, n to combo and hitNotes, and raise satisfaction to min(100, s + 10·n) |
| Ledger.MissRunEndsSession | caroling.js:1520-1535 | from satisfaction s > 0, consecutive misses end the session after exactly ⌈s/10⌉ of them, at satisfaction s − 10·⌈s/10⌉ ≤ 0 |
| Ledger.InitialSatisfaction | caroling.js:105-109 | initial satisfaction is the house base (50, 40 from house 4, 35 from house 6) plus 0 to 10; hence 35..60 overall, at least 50 for houses 1-3, at most 45 for house 6 |
| Ledger.DifficultyOf | caroling.js:91-103 | houses 1 to 5 get the labels easy to extreme, in order; every other value, 6 included, gets master, and master is given exactly to those |
| Ledger.CompletionDue | caroling.js:1572-1583 | the re-check is due exactly when processed ≥ totalNotes, no note is active, and the song has ended or now is past its end minus 1000 ms |
| Ledger.NextSongIndex | caroling.js:271-278 | the index is inside the pool; after an earlier pick it is the next index, wrapping round |
| Ledger.SingleSongPool | caroling.js:264-284 | a pool of one song always yields that song |
| Ledger.NoImmediateRepeat | caroling.js:272-274 | with two or more songs the round-robin never repeats the previous pick |
| AudioClock.Play | caroling.js:453-512 | playing records the start instant now − offset (negative offsets taken as 0), so the position is the offset at once and grows with the clock |
| AudioClock.Pause | caroling.js:515-554 | pausing a playing voice records the elapsed position and stops it; otherwise only the paused flag is set; the buffer is kept |
| AudioClock.PauseRecordsPosition | caroling.js:453-554 | a voice started at t0 from offset s and paused at t1 records s + (t1 − t0) |
| AudioClock.PauseResumeContinues | caroling.js:515-593 | pausing and then resuming from the recorded position loses no time: the position at t3 is s + (t1 − t0) + (t3 − t2) |
| Caroling.DefaultTableShape | caroling.js:42-73 | every house 1..6 has a song pool of exactly one song, and no other house has one |
| Caroling.CarolingGame.constructor | caroling.js:2-80 | a new game has 3 lives, score 0, no completed houses, no song history, satisfaction 50, no callback and an idle voice |
| Caroling.CarolingGame.CanExit | caroling.js:82-84 | the village can be left exactly when the total score is at least 15500 |
| Caroling.CarolingGame.Init | caroling.js:86-116 | init sets the house, its difficulty label and the drawn initial satisfaction, installs a fresh callback, clears completionCalled, and picks a song when the house has one |
| Caroling.CarolingGame.ShowStartScreen | caroling.js:201-205 | the song of the current house becomes currentSongData; for a house without songs nothing changes |
| Caroling.CarolingGame.GetSongForHouse | caroling.js:264-284 | an empty or missing pool is an error that changes nothing; otherwise the pick is NextSongIndex of the last pick and is recorded as the house's last pick |
| Caroling.CarolingGame.LoadSong | caroling.js:333-348 | the audio context exists afterwards; a loaded buffer is cached under the song name and a failed load caches nothing |
| Caroling.CarolingGame.PlayAudio | caroling.js:453-512 | playback starts exactly when an audio context exists, and the voice is then Play(…); otherwise the voice is unchanged |
| Caroling.CarolingGame.PauseCarolAudio | caroling.js:515-554 | the voice becomes Pause(voice, now) |
| Caroling.CarolingGame.ResumeCarolAudio | caroling.js:557-593 | only a paused voice with an audio context resumes; with a buffer it always resumes from the recorded position; without one it resumes, from the cached buffer of the current song, exactly when that song is cached; a refusal leaves the voice unchanged |
| Caroling.CarolingGame.ResetAudioState | caroling.js:632-640 | the voice is idle afterwards |
| Caroling.CarolingGame.StopCarolAudio | caroling.js:596-629 | a current voice becomes idle; with no current voice nothing changes |
| Caroling.CarolingGame.OnGameComplete | caroling.js:727-756 | a success adds the score, records the house once only and shows the completion screen; a failure costs a life and, at zero lives, signals game over, otherwise it exits at once with a Finished event; lives never exceed the maximum and the once-only rule holds |
| Caroling.CarolingGame.OnVoiceEnded | caroling.js:500-504 | playAudio's ended handler: the voice becomes idle and loses its buffer, whether the source ended or was stopped by a pause |
| Caroling.CarolingGame.OnVoiceEndedGuarded | caroling.js:500-504 | corrected handler: a voice that is no longer current (paused) is left as it is; a current one becomes idle |
| Caroling.CarolingGame.TriggerGameOver | caroling.js:647-725 | the voice is stopped and the callback, if set, receives GameOver; completionCalled and the callback are left as they were |
| Caroling.CarolingGame.TriggerGameOverOnce | caroling.js:647-725 | corrected game over: it counts as the session's one completion, consumes the callback, and delivers GameOver only if nothing was delivered before |
| Caroling.CarolingGame.LeaveCompletionScreen | caroling.js:877-944 | leaving the completion screen (ENTER or countdown) delivers Finished with the held success, satisfaction, score and maxCombo and the run figures, and consumes the callback; nothing is delivered with no screen shown, after an earlier delivery, or without a callback |
| Caroling.CarolingGame.ExitGame | caroling.js:946-1008 | guarded by completionCalled: the first call delivers one Finished event with the run figures and consumes the callback; later calls deliver nothing and leave the voice alone |
| Caroling.PauseResumeKeepsPosition | caroling.js:453-593 | on a game object, play at t0, pause at t1, resume at t2: the position at t3 is (t1 − t0) + (t3 − t2); this is the scene's first voice, whose ended handler the scene replaced |
| Caroling.SecondPauseLosesTheCarol | caroling.js:500-504 | with playAudio's own ended handler, a second pause stops the source, the handler resets the voice, and the second resume is refused with the voice idle |
| Caroling.GuardedHandlerKeepsTheCarol | caroling.js:500-593 | with the guarded handler, two pauses and resumes lose no time: the position is (t1 − t0) + (t3 − t2) + (t5 − t4) |
| Caroling.ThreeFailuresEndTheRun | caroling.js:647-756 | from a fresh game, three failed sessions deliver GameOver as the last event |
| Session.ScheduleOne | caroling.js:1364-1381 | one entry either spawns under the next id (due within the lead time, valid lane), or is queued (appears later), or is dropped; lastNoteTime becomes the larger of itself and the entry's time |
| Session.ScheduleAll | caroling.js:1364-1381 | the old queue stays a prefix, the id counter never falls, at most one note or queued spawn per entry, and lastNoteTime bounds every entry's time |
| Session.ScheduleLoop | caroling.js:1358-1389 | the forEach over the beat map produces ScheduleAll: entries due within the lead time spawn now, the rest are queued, and lastNoteTime is tracked |
| Session.ScheduleKeepsTable | caroling.js:1364-1426 | scheduling keeps old notes, keeps ids below the counter, and grows the table by exactly the ids handed out |
| Session.SpawnedNotesAreNew | caroling.js:1370-1426 | every note spawned by scheduling has a fresh id, starts falling now and lies on an existing lane |
| Session.EveryNoteScheduledOnce | caroling.js:1364-1382 | with all lanes valid, each beat-map entry is spawned or queued exactly once |
| Session.DelayedSpawnsAreLater | caroling.js:1371-1374 | queued spawns go behind the old queue and fire strictly after now |
| Session.LastNoteTimeBounds | caroling.js:1368-1388 | lastNoteTime bounds every beat time, so the safety timeout falls after every beat |
| Session.ClosestIsUnique | caroling.js:1435-1446 | at most one note is the closest eligible one, so the judge is deterministic |
| Session.FindClosest | caroling.js:1431-1446 | the selection returns the eligible note (same lane, distance < 120) with the smallest distance, the earliest on ties; None exactly when no note is eligible |
| Session.CarolingScene.constructor | caroling.js:1024-1057 | a new scene has empty counters, satisfaction from the game, no notes, and nothing pending |
| Session.CarolingScene.StartGame | caroling.js:1302-1308 | with a beat map the scene runs with the scheduled table, queue and safety timeout; without one it ends in failure |
| Session.CarolingScene.StartAudio | caroling.js:1338-1356 | with the song's buffer cached, the song clock starts now for the buffer's duration and the voice plays when an audio context exists; without it nothing changes |
| Session.CarolingScene.ScheduleNotes | caroling.js:1358-1389 | a missing beat map ends the session in failure; otherwise totalNotes is the beat-map length, the table and queue are ScheduleAll's, and the safety timeout is set at now + lastNoteTime + 5000 |
| Session.CarolingScene.ScheduleBeatMap | caroling.js:1364-1388 | the scheduling keeps every note accounted for and sets the table, queue and safety timeout from ScheduleAll |
| Session.CarolingScene.SpawnNote | caroling.js:1391-1426 | a running scene adds a note on a valid lane under the next id; otherwise nothing changes |
| Session.CarolingScene.FireSpawnTimer | caroling.js:1373-1375 | a fired delayed spawn leaves the queue and, while the session runs on a valid lane, spawns its note under the next id; otherwise the table and counter are unchanged |
| Session.CarolingScene.HitNote | caroling.js:1428-1512 | input is ignored unless running; otherwise the closest eligible note is judged at Grade(distance) and removed, or with none the press counts as a miss; the session ends exactly when satisfaction falls to 0 or below |
| Session.CarolingScene.JudgeNote | caroling.js:1448-1494 | the note leaves the table, the ledger records the tier hit, completion is re-tested, and failure follows exactly when satisfaction is at or below 0 |
| Session.CarolingScene.StrayPress | caroling.js:1495-1511 | a press with no eligible note costs a miss and ends the session exactly when satisfaction drops to 0 or below |
| Session.CarolingScene.MissNote | caroling.js:1514-1536 | an id no longer active is ignored, so a note is resolved at most once; otherwise it is removed as a miss, a completion re-check is scheduled exactly when CompletionDue holds, and the session ends exactly when satisfaction drops to 0 or below |
| Session.CarolingScene.CheckGameCompletion | caroling.js:1572-1592 | a completion re-check is scheduled exactly when all notes are processed, none is active, and the song has ended or is within a second of its end |
| Session.CarolingScene.FireCompletionTimer | caroling.js:1583-1589 | a re-check that finds the session running ends it, and in success, since a running session has satisfaction above 0 |
| Session.CarolingScene.FireSafetyTimeout | caroling.js:1382-1387 | an armed timeout ends a session still running in success, and is disarmed |
| Session.CarolingScene.OnSongEnded | caroling.js:1347-1350 | the song is marked ended and completion is re-tested |
| Session.CarolingScene.Update | caroling.js:1632-1645 | while running, completion is re-tested when now mod 1000 < 16 |
| Session.CarolingScene.EndGame | caroling.js:1600-1630 | once only: the first call stops play, clears and accounts the active notes, and reports the outcome to the game (score added on success, a life lost on failure); a second call changes nothing |
| Session.CarolingScene.DiscardActive | caroling.js:1614-1623 | every active note is dropped and counted as discarded |
| Session.CarolingScene.Report | caroling.js:1608-1629 | the game receives the session's figures: score added on success, one life lost on failure |
| Progression.RequirementMonotone | player.js:84-91 | a requirement met by some completed set is met by every larger one |
| Progression.OpenedMonotone | player.js:977-988 | more completed houses open no fewer houses |
| Progression.OpenedNeedsProgress | player.js:84-91 | only houses 2..6 can be opened, and only once some house is completed |
| Progression.ChainOpensAll | player.js:84-91 | completing houses 1, 2, 4 and 5 opens every house 2..6 |
| Progression.CheckHouseAccess | player.js:730-742 | a completed house is refused as completed; a house not allowed is refused as locked; otherwise entry is allowed; each is an iff |
| Progression.HouseStatus | player.js:1396-1405 | the door and HUD status is Completed, then Failed, then Locked, then Available, each exactly under its condition |
| Progression.FailureCount | player.js:1399 | the shown failure count is the stored one, or 0 for a house never failed |
| Progression.StatusAgreesWithAccess | player.js:1396-1405 | an Available house can be entered, Completed agrees with already_completed, Locked means locked, and a Failed house can be entered exactly when it is allowed |
| World.Game3D.constructor | player.js:2-98 | a new world has no completed or failed houses, no failure counts, house 1 alone open, and the flags cleared |
| World.Game3D.Access | player.js:730-742 | access on the current sets: allowed exactly for an open house not yet completed |
| World.Game3D.FailureCountOf | player.js:1399 | the door shows a count of at least one exactly for failed houses |
| World.Game3D.UpdateAllowedHouses | player.js:977-988 | the open houses become the old ones plus every house whose requirement holds; none is removed |
| World.Game3D.OnCarolingGameComplete | player.js:874-974 | game over stops the world with no bookkeeping, and stop's exitGame(false) queues a Finished(false) event when the callback is still unconsumed; any Finished result sets isRunning and leaves isPaused as it was; a success moves the house to completed, clears its failure count and opens what it unlocks; a failure moves it to failed and counts one more failure; completed and failed stay disjoint and open houses never close |
| World.Game3D.HandleEnterPress | player.js:744-787 | the access check decides; an enterable house hides the world and starts a caroling session for that house |
| World.Game3D.ResetGameState | player.js:997-1020 | both sets and the failure counts are empty, the flags cleared, house 1 alone open, and the caroling game back to full lives, score 0 and no completed houses |
| World.Game3D.CheckVictoryExit | player.js:1023-1036 | the exit prompt shows exactly when the score is at least 15500, no victory or prompt is under way, and the player is at the exit |
| World.Game3D.ContinuePlaying | player.js:1135-1141 | leaving the prompt lets it show again |
| World.Game3D.TriggerVictorySequence | player.js:1155-1162 | the sequence starts only on the first call, which stops the world |
| World.Game3D.Stop | player.js:1790-1814 | the world is neither running nor taking input, and the caroling game is exited without a result: a callback not yet consumed is consumed and receives ExitWithoutResult |
| World.Game3D.ExitWithoutResult | caroling.js:990-1006 | exitGame(false) reports a failure that needs a respawn, for the current house, with the run's lives |
| World.GameOverRecordsFailure | player.js:874-888 | losing the last life as written: the callback receives GameOver and then a Finished(false) for the same house; that second event records the house as failed and sets isRunning again, while isPaused stays set from stop(), so the world does not animate |
| World.GameOverIsFinal | player.js:874-888 | with the corrected game over, GameOver is the only event, the world stays stopped, and no failure is recorded |
| World.VictoryHappensOnce | player.js:1155-1162 | after the victory starts, neither a second victory nor the exit prompt can start |
| World.FirstWinOpensSecondHouse | player.js:874-988 | winning house 1 opens house 2, and failing house 2 afterwards leaves it open with one failure counted |
| Colors.ToInt32 | player.js:1521-1523 | the 32-bit conversion gives a value in [−2³¹, 2³¹) congruent to the input modulo 2³², keeps values already in range, and maps NaN to 0 |
| Colors.Clamp | player.js:1526-1528 | each channel is clamped into [0, 255] |
| Colors.ToHexString | player.js:1531 | toString(16) gives lower-case hex digits whose value is the number |
| Colors.Hex6 | player.js:1531 | the padded output is exactly six lower-case hex digits with the packed value |
| Colors.Pack | player.js:1531 | b \| g<<8 \| r<<16 of clamped channels is below 2²⁴ and unpacks to the same channels |
| Colors.ParseIntHex | player.js:1520 | parseInt(…, 16) is NaN exactly when no hex digit follows the leading whitespace, the sign and an optional 0x; a negative result needs a leading '-'; a plain hex-digit string parses to its value |
| Colors.AdjustColor | player.js:1512-1532 | the output has a '#' exactly when the input had one, then six lower-case hex digits whose channels are the input channels plus amount, each clamped to [0, 255] |
| Colors.AdjustByZeroIsIdentity | player.js:1512-1532 | adjusting a lower-case "#rrggbb" by 0 gives it back unchanged |
| Colors.NaNStartsFromBlack | player.js:1520-1523 | text with no digit for parseInt (NaN) starts from channels 0, 0, 0 |

## Left out

- Rendering, DOM and HUD construction: the start, loading, completion and game-over screens, messages, the door prompt's HTML, lane and monster sprites, tweens and hit effects. They are presentation only.
- Fetching and decoding assets (`loadAudioFile`, `loadJSONFile`): asynchronous I/O. A loaded audio buffer is passed in to `LoadSong`. A failed `loadJSONFile` shows the error screen and starts no scene; that path is not modelled. The `Option` beat map of `StartGame` is the loaded map, with `None` standing for a null map or one without notes (caroling.js:1359-1362).
- Delays in front of the completion callback: `exitGame` waits 100 ms (caroling.js:993), `exitGameWithResult` 300 ms (caroling.js:941) and `triggerGameOver` 4000 ms (caroling.js:714). The model delivers the event at once, with the figures of the moment of the call; the source reads `lives`, `totalScore` and the house lists when the timer fires.
- Ended handlers are separate methods that the caller invokes when a source stops: `OnVoiceEnded` is playAudio's own handler (caroling.js:500-504), and `Session.CarolingScene.OnSongEnded` is the one the scene puts on its first voice instead (caroling.js:1347). Because a pause stops the source, the scene's first pause also marks the song as ended.
- Fade ramps of 300 ms in `pauseCarolAudio` and `stopCarolAudio`: they are taken as immediate. Gain values are floating point.
- Player movement, collision and door trigger zones in player.js: float vector maths. `CheckVictoryExit` takes "closer than 3 units to the exit" as a boolean input, and `ContinuePlaying` leaves out the 2-unit step away from the exit.
- The debounce of `handleEnterPress` (`enterPressed` with its 800 ms timeout) and `nearDoor` (door geometry) are left out; `HandleEnterPress` starts from the door's house number.
- `continuePlaying` (caroling.js:911-927) is never called anywhere, so it is not modelled.
- The note's `hit` flag and sprite in `activeNotes`: a note is removed as soon as it is judged, so the flag is never seen set by a later selection.
- Note ids are a counter; the source uses `Date.now() + Math.random()`. Ids in ascending order stand for the JavaScript `Map`'s insertion order.
- Background music (audio.js) and the resume timer in `onCarolingGameComplete` are outside the model. So are the HUD and window refreshes of `resetGameState` and `onCarolingGameComplete`.
- `isDead` is only cleared by `resetGameState`; nothing in the modelled code sets it.
- Colors.ParseIntHex: JavaScript's `parseInt` returns a double, which rounds values above 2⁵³ (more than 13 hex digits). The model keeps the exact integer before the 32-bit conversion.
- Colors.AdjustColor: `amount` is an integer; the source only calls it with −30.
- Session.CarolingScene.Update: the frame timing is an input instant; the source's `this.time.now % 1000 < 16` sees only the frames that happen to land there.
- World.Game3D.OnCarolingGameComplete: the `exitGame(false)` call at the end is modelled as a call on the caroling game; when the callback came from `exitGame` itself, `completionCalled` is already set and the call changes nothing.

## Findings

| source | as written | input that shows it | evidently intended | confidence | as-written member | corrected member |
|---|---|---|---|---|---|---|
| player.js:874-888 | `triggerGameOver` (caroling.js:647-725) neither sets `completionCalled` nor consumes the callback, so the `exitGame(false)` in `stop()` (player.js:1812-1814) calls the callback a second time with a failure | the last life lost in a session | game over ends the run: GameOver is the only event, and no failure is recorded afterwards | high, not executed | World.GameOverRecordsFailure | World.GameOverIsFinal (with Caroling.CarolingGame.TriggerGameOverOnce) |
| caroling.js:500-504 | playAudio's `onended` resets the audio state whenever the source stops, and pausing stops the source, so the paused position and buffer are lost | pause with ESC, resume, pause again, resume | a pause keeps the voice so that every resume continues the carol | medium, not executed | Caroling.SecondPauseLosesTheCarol | Caroling.GuardedHandlerKeepsTheCarol (with Caroling.CarolingGame.OnVoiceEndedGuarded) |
