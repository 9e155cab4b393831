/**
 * The note judge of one caroling session (class CarolingScene in
 * caroling.js): the active-note table, the beat-map schedule, hits, misses,
 * the completion check and the once-only end of the session.
 *
 * Clock instants are integer milliseconds passed in by the caller; the
 * distance of each note from the hit line (which the source reads off a
 * tweened sprite) is an input function of the note id. Phaser's delayed calls
 * are explicit queues whose entries the caller fires.
 */
module Session {

  import opened Wrappers
  import opened Ledger
  import opened AudioClock
  import opened Caroling

  /** Number of key lanes (A, S, K, L). */
  const LaneCount := 4

  /** Notes appear this long before their beat time and fall for as long. */
  const LeadTimeMs := 2000

  /** The safety timeout fires this long after the last note's beat time. */
  const SafetyMarginMs := 5000

  /** The completion check re-tests the game after this delay. */
  const CompletionDelayMs := 500

  /** One entry of the beat map: lane and beat time (note.time * 1000). */
  datatype NoteEvent = NoteEvent(lane: int, timeMs: int)

  /** An entry of activeNotes; the hit flag and sprite are left out (see README). */
  datatype Note = Note(lane: int, spawnTime: int)

  /** A spawnNote scheduled with time.delayedCall. */
  datatype PendingSpawn = PendingSpawn(at: int, lane: int)

  /** The arguments of the one onGameComplete call of the session. */
  datatype Outcome = Outcome(success: bool, satisfaction: int, score: int, maxCombo: nat)

  /** appearTime in scheduleNotes. */
  function AppearTime(n: NoteEvent): int
  {
    n.timeMs - LeadTimeMs
  }

  predicate ValidLane(lane: int)
  {
    0 <= lane < LaneCount
  }

  /**
   * What the forEach of scheduleNotes builds up: the active-note table and
   * the next id (spawnNote), the queue of delayed spawns, and lastNoteTime.
   */
  datatype Schedule = Schedule(table: map<nat, Note>, nextId: nat, queue: seq<PendingSpawn>, lastNoteTime: int)

  /**
   * One beat-map entry: queued when it appears later, otherwise spawned at
   * once under the next id if its lane exists (spawnNote ignores the rest).
   */
  function ScheduleOne(s: Schedule, n: NoteEvent, now: int): (r: Schedule)
    ensures r.lastNoteTime >= s.lastNoteTime && r.lastNoteTime >= n.timeMs
    ensures r.lastNoteTime == s.lastNoteTime || r.lastNoteTime == n.timeMs
    ensures |r.queue| == |s.queue| + (if AppearTime(n) > 0 then 1 else 0) && r.queue[..|s.queue|] == s.queue
    ensures r.nextId == s.nextId + (if AppearTime(n) <= 0 && ValidLane(n.lane) then 1 else 0)
  {
    var last := if n.timeMs > s.lastNoteTime then n.timeMs else s.lastNoteTime;
    if AppearTime(n) > 0 then
      s.(queue := s.queue + [PendingSpawn(now + AppearTime(n), n.lane)], lastNoteTime := last)
    else if ValidLane(n.lane) then
      s.(table := s.table[s.nextId := Note(n.lane, now)], nextId := s.nextId + 1, lastNoteTime := last)
    else
      s.(lastNoteTime := last)
  }

  /** The whole forEach, entry by entry in beat-map order. */
  function ScheduleAll(s: Schedule, notes: seq<NoteEvent>, now: int): (r: Schedule)
    ensures r.lastNoteTime >= s.lastNoteTime
    ensures forall i :: 0 <= i < |notes| ==> r.lastNoteTime >= notes[i].timeMs
    ensures s.nextId <= r.nextId && |s.queue| <= |r.queue| && r.queue[..|s.queue|] == s.queue
    ensures (r.nextId - s.nextId) + (|r.queue| - |s.queue|) <= |notes|
    decreases |notes|
  {
    if notes == [] then s
    else
      var r := ScheduleAll(ScheduleOne(s, notes[0], now), notes[1..], now);
      assert forall i :: 1 <= i < |notes| ==> notes[i] == notes[1..][i - 1];
      r
  }

  /**
   * The forEach loop of scheduleNotes on the scene's table, counter, queue
   * and lastNoteTime (spawnNote's own checks pass: the session is running).
   */
  method ScheduleLoop(start: Schedule, notes: seq<NoteEvent>, now: int) returns (r: Schedule)
    ensures r == ScheduleAll(start, notes, now)
  {
    var table, id, queue := start.table, start.nextId, start.queue;
    var lastNoteTime := start.lastNoteTime;
    var i := 0;
    while i < |notes|
      invariant i <= |notes|
      invariant ScheduleAll(Schedule(table, id, queue, lastNoteTime), notes[i..], now) == ScheduleAll(start, notes, now)
    {
      assert notes[i..][1..] == notes[i + 1..];
      var note := notes[i];
      var appearTime := note.timeMs - LeadTimeMs;
      if appearTime > 0 {
        queue := queue + [PendingSpawn(now + appearTime, note.lane)];
      } else if ValidLane(note.lane) {
        table := table[id := Note(note.lane, now)];
        id := id + 1;
      }
      if note.timeMs > lastNoteTime {
        lastNoteTime := note.timeMs;
      }
      i := i + 1;
    }
    r := Schedule(table, id, queue, lastNoteTime);
  }

  /** Ids keep below the counter, and the table grows by exactly the ids handed out. */
  predicate FreshIds(s: Schedule)
  {
    forall id :: id in s.table ==> id < s.nextId
  }

  lemma {:induction false} ScheduleKeepsTable(s: Schedule, notes: seq<NoteEvent>, now: int)
    requires FreshIds(s)
    ensures var r := ScheduleAll(s, notes, now);
            && FreshIds(r)
            && s.nextId <= r.nextId
            && |r.table| == |s.table| + (r.nextId - s.nextId)
            && forall id :: id in s.table ==> id in r.table && r.table[id] == s.table[id]
    decreases |notes|
  {
    if notes != [] {
      ScheduleKeepsTable(ScheduleOne(s, notes[0], now), notes[1..], now);
    }
  }

  /** Spawned notes start falling now, on the lane of their entry, under ids from the old counter up. */
  lemma {:induction false} SpawnedNotesAreNew(s: Schedule, notes: seq<NoteEvent>, now: int)
    requires FreshIds(s)
    ensures var r := ScheduleAll(s, notes, now);
            forall id :: id in r.table && id !in s.table ==>
              s.nextId <= id && r.table[id].spawnTime == now && ValidLane(r.table[id].lane)
    decreases |notes|
  {
    if notes != [] {
      var s1 := ScheduleOne(s, notes[0], now);
      SpawnedNotesAreNew(s1, notes[1..], now);
      ScheduleKeepsTable(s1, notes[1..], now);
    }
  }

  /** Every entry on an existing lane is spawned at once or queued, exactly once. */
  lemma {:induction false} EveryNoteScheduledOnce(s: Schedule, notes: seq<NoteEvent>, now: int)
    requires forall k :: 0 <= k < |notes| ==> ValidLane(notes[k].lane)
    ensures var r := ScheduleAll(s, notes, now);
            (r.nextId - s.nextId) + (|r.queue| - |s.queue|) == |notes|
    ensures var r := ScheduleAll(s, notes, now);
            s.nextId <= r.nextId && |s.queue| <= |r.queue|
    decreases |notes|
  {
    if notes != [] {
      EveryNoteScheduledOnce(ScheduleOne(s, notes[0], now), notes[1..], now);
    }
  }

  /** Queued spawns are appended behind the old queue and fire strictly after now. */
  lemma {:induction false} DelayedSpawnsAreLater(s: Schedule, notes: seq<NoteEvent>, now: int)
    ensures var r := ScheduleAll(s, notes, now);
            && |s.queue| <= |r.queue| && r.queue[..|s.queue|] == s.queue
            && forall k :: |s.queue| <= k < |r.queue| ==> r.queue[k].at > now
    decreases |notes|
  {
    if notes != [] {
      var s1 := ScheduleOne(s, notes[0], now);
      DelayedSpawnsAreLater(s1, notes[1..], now);
      assert s1.queue[..|s.queue|] == s.queue;
    }
  }

  /** lastNoteTime bounds every beat time, so the safety timeout comes after every beat. */
  lemma {:induction false} LastNoteTimeBounds(s: Schedule, notes: seq<NoteEvent>, now: int)
    ensures var r := ScheduleAll(s, notes, now);
            && s.lastNoteTime <= r.lastNoteTime
            && forall k :: 0 <= k < |notes| ==> notes[k].timeMs <= r.lastNoteTime
    decreases |notes|
  {
    if notes != [] {
      LastNoteTimeBounds(ScheduleOne(s, notes[0], now), notes[1..], now);
      assert forall k :: 1 <= k < |notes| ==> notes[k] == notes[1..][k - 1];
    }
  }

  /** A note hitNote may take for the lane: active, in the lane, inside the hit area. */
  ghost predicate Eligible(notes: map<nat, Note>, lane: int, dist: nat -> nat, id: nat)
  {
    id in notes && notes[id].lane == lane && dist(id) < HitArea
  }

  /**
   * The note hitNote takes: eligible, no eligible note nearer, and among
   * equally near ones the earliest inserted (the smallest id).
   */
  ghost predicate IsClosest(notes: map<nat, Note>, lane: int, dist: nat -> nat, id: nat)
  {
    && Eligible(notes, lane, dist, id)
    && forall j: nat :: Eligible(notes, lane, dist, j) ==>
         dist(id) < dist(j) || (dist(id) == dist(j) && id <= j)
  }

  /** At most one note is the closest, so the judge is deterministic. */
  lemma ClosestIsUnique(notes: map<nat, Note>, lane: int, dist: nat -> nat, a: nat, b: nat)
    requires IsClosest(notes, lane, dist, a) && IsClosest(notes, lane, dist, b)
    ensures a == b
  {
  }

  /**
   * The selection loop of hitNote over activeNotes in insertion order (ids
   * are handed out in increasing order, so insertion order is id order).
   * A strictly nearer note replaces the candidate, so ties keep the earlier one.
   */
  method FindClosest(notes: map<nat, Note>, idBound: nat, lane: int, dist: nat -> nat)
    returns (found: Option<nat>)
    requires forall id :: id in notes ==> id < idBound
    ensures found.Some? ==> IsClosest(notes, lane, dist, found.value)
    ensures found.None? ==> forall j: nat :: !Eligible(notes, lane, dist, j)
  {
    found := None;
    var closestDistance: Option<nat> := None;
    var id := 0;
    while id < idBound
      invariant id <= idBound
      invariant found.None? ==> closestDistance.None?
      invariant found.None? ==> forall j: nat :: j < id ==> !Eligible(notes, lane, dist, j)
      invariant found.Some? ==> closestDistance == Some(dist(found.value))
      invariant found.Some? ==> found.value < id && Eligible(notes, lane, dist, found.value)
      invariant found.Some? ==> forall j: nat :: j < id && Eligible(notes, lane, dist, j) ==>
                  dist(found.value) < dist(j) || (dist(found.value) == dist(j) && found.value <= j)
    {
      if id in notes && notes[id].lane == lane {
        var distance := dist(id);
        if distance < HitArea && (closestDistance.None? || distance < closestDistance.value) {
          found := Some(id);
          closestDistance := Some(distance);
        }
      }
      id := id + 1;
    }
  }

  class CarolingScene {
    const game: CarolingGame
    const songName: string              // songData.name

    var activeNotes: map<nat, Note>
    var nextId: nat                     // the id the next spawned note gets
    var ledger: Ledger                  // score, combo, maxCombo, satisfaction, hitNotes, missedNotes
    var totalNotes: nat

    var isPlaying: bool
    var gameOver: bool
    var songStartTime: int
    var songDuration: int
    var songEnded: bool
    var hasAudioSource: bool

    var spawnQueue: seq<PendingSpawn>   // pending delayed spawnNote calls
    var safetyArmed: bool               // the safety timeout is scheduled and not removed
    var safetyAt: int
    var completionTimers: nat           // pending 500 ms completion re-checks

    ghost var fallen: nat               // notes that reached the bottom unhit
    ghost var strayPresses: nat         // key presses with no eligible note
    ghost var discarded: nat            // notes cleared by endGame
    ghost var outcome: Option<Outcome>  // the onGameComplete call, once made

    /**
     * Every spawned note is still active, or was hit, fell, or was cleared
     * at the end, exactly once; misses count falls and stray presses. Ids
     * of active notes are below nextId.
     */
    ghost predicate NotesAccounted()
      reads this`activeNotes, this`nextId, this`ledger, this`fallen, this`strayPresses, this`discarded
    {
      && (forall id :: id in activeNotes ==> id < nextId)
      && |activeNotes| + ledger.hitNotes + fallen + discarded == nextId
      && ledger.missedNotes == fallen + strayPresses
    }

    /** The session's phase: over means stopped, emptied and reported. */
    ghost predicate PhaseSound()
      reads this`gameOver, this`isPlaying, this`activeNotes, this`safetyArmed, this`outcome, this`ledger
    {
      && Sound(ledger)
      && (gameOver ==> !isPlaying && activeNotes == map[] && !safetyArmed)
      && (activeNotes != map[] ==> isPlaying)
      && (gameOver <==> outcome.Some?)
    }

    /** What holds at every step, including between a judgement and the endGame it causes. */
    ghost predicate Consistent()
      reads this, game
    {
      game.Valid() && game.OnceOnly() && NotesAccounted() && PhaseSound()
    }

    /** Between events: a session still running has satisfaction above zero. */
    ghost predicate Valid()
      reads this, game
    {
      Consistent() && (!gameOver ==> ledger.satisfaction > 0)
    }

    /** The scene's constructor: counters start at zero, satisfaction at the game's. */
    constructor (g: CarolingGame, name: string)
      requires g.Valid() && g.OnceOnly()
      ensures Valid()
      ensures game == g && songName == name
      ensures ledger == Start(g.currentSatisfaction) && activeNotes == map[] && nextId == 0
      ensures !isPlaying && !gameOver && !songEnded && totalNotes == 0
      ensures spawnQueue == [] && !safetyArmed && completionTimers == 0
    {
      game := g;
      songName := name;
      activeNotes := map[];
      nextId := 0;
      ledger := Start(g.currentSatisfaction);
      totalNotes := 0;
      isPlaying := false;
      gameOver := false;
      songStartTime := 0;
      songDuration := 0;
      songEnded := false;
      hasAudioSource := false;
      spawnQueue := [];
      safetyArmed := false;
      safetyAt := 0;
      completionTimers := 0;
      fallen := 0;
      strayPresses := 0;
      discarded := 0;
      outcome := None;
    }

    /** startGame: play, start the song, schedule the beat map. */
    method StartGame(now: int, beatMap: Option<seq<NoteEvent>>)
      requires Valid() && !isPlaying && !gameOver
      modifies this`songStartTime, this`songDuration, this`hasAudioSource,
               this`totalNotes, this`nextId, this`spawnQueue, this`safetyAt,
               this`gameOver, this`isPlaying, this`safetyArmed, this`activeNotes, this`discarded, this`outcome,
               game`totalScore, game`completedHouseNumbers, game`lives, game`completionScreen,
               game`completionCalled, game`hasCallback, game`notified, game`voice
      ensures Valid() && ledger == old(ledger)
      ensures beatMap.None? ==> gameOver && outcome == Some(Outcome(false, ledger.satisfaction, ledger.score, ledger.maxCombo))
      ensures beatMap.Some? ==>
                var r := ScheduleAll(Schedule(old(activeNotes), old(nextId), old(spawnQueue), 0), beatMap.value, now);
                && isPlaying && !gameOver
                && totalNotes == |beatMap.value|
                && activeNotes == r.table && nextId == r.nextId && spawnQueue == r.queue
                && safetyArmed && safetyAt == now + r.lastNoteTime + SafetyMarginMs
    {
      isPlaying := true;
      StartAudio(now);
      ScheduleNotes(now, beatMap);
    }

    /**
     * startAudio: play the cached buffer of the song from the start; the
     * song clock starts now and lasts the buffer's duration. Without a
     * buffer only the error is logged.
     */
    method StartAudio(now: int)
      modifies this`songStartTime, this`songDuration, this`hasAudioSource, game`voice
      ensures songName in game.audioBuffers ==>
                && songStartTime == now
                && songDuration == game.audioBuffers[songName].durationMs
                && hasAudioSource == game.hasAudioContext
                && (game.hasAudioContext ==>
                      game.voice == Play(old(game.voice), now, game.audioBuffers[songName], 0))
      ensures songName in game.audioBuffers && !game.hasAudioContext ==> game.voice == old(game.voice)
      ensures songName !in game.audioBuffers ==>
                songStartTime == old(songStartTime) && songDuration == old(songDuration) &&
                hasAudioSource == old(hasAudioSource) && game.voice == old(game.voice)
    {
      if songName in game.audioBuffers {
        var buffer := game.audioBuffers[songName];
        var started := game.PlayAudio(now, buffer, 0);
        songStartTime := now;
        songDuration := buffer.durationMs;
        hasAudioSource := started;
      }
    }

    /**
     * scheduleNotes: without a beat map the session fails at once; otherwise
     * notes due within the lead time spawn now, the rest are queued, and the
     * safety timeout is set after the last beat.
     */
    method ScheduleNotes(now: int, beatMap: Option<seq<NoteEvent>>)
      requires Valid() && isPlaying && !gameOver
      modifies this`totalNotes, this`nextId, this`spawnQueue, this`safetyAt,
               this`gameOver, this`isPlaying, this`safetyArmed, this`activeNotes, this`discarded, this`outcome,
               game`totalScore, game`completedHouseNumbers, game`lives, game`completionScreen,
               game`completionCalled, game`hasCallback, game`notified, game`voice
      ensures Valid()
      ensures beatMap.None? ==> gameOver && outcome == Some(Outcome(false, ledger.satisfaction, ledger.score, ledger.maxCombo))
      ensures beatMap.Some? ==>
                var r := ScheduleAll(Schedule(old(activeNotes), old(nextId), old(spawnQueue), 0), beatMap.value, now);
                && isPlaying && !gameOver
                && totalNotes == |beatMap.value|
                && activeNotes == r.table && nextId == r.nextId && spawnQueue == r.queue
                && safetyArmed && safetyAt == now + r.lastNoteTime + SafetyMarginMs
    {
      if beatMap.None? {
        EndGame(false);
      } else {
        ScheduleBeatMap(now, beatMap.value);
      }
    }

    /** The forEach of scheduleNotes over a present beat map, then the safety timeout. */
    method ScheduleBeatMap(now: int, notes: seq<NoteEvent>)
      requires NotesAccounted()
      modifies this`totalNotes, this`nextId, this`spawnQueue, this`safetyAt, this`safetyArmed, this`activeNotes
      ensures NotesAccounted()
      ensures var r := ScheduleAll(Schedule(old(activeNotes), old(nextId), old(spawnQueue), 0), notes, now);
              && activeNotes == r.table && nextId == r.nextId && spawnQueue == r.queue
              && safetyArmed && safetyAt == now + r.lastNoteTime + SafetyMarginMs
      ensures totalNotes == |notes|
    {
      totalNotes := |notes|;
      var start := Schedule(activeNotes, nextId, spawnQueue, 0);
      assert FreshIds(start);
      var r := ScheduleLoop(start, notes, now);
      ScheduleKeepsTable(start, notes, now);
      assert FreshIds(r) && |r.table| == |activeNotes| + (r.nextId - nextId);
      activeNotes, nextId, spawnQueue := r.table, r.nextId, r.queue;
      safetyArmed := true;
      safetyAt := now + r.lastNoteTime + SafetyMarginMs;
    }

    /** spawnNote: a new note under a fresh id, unless the game is not running or the lane does not exist. */
    method SpawnNote(now: int, lane: int)
      requires NotesAccounted() && PhaseSound()
      modifies this`activeNotes, this`nextId
      ensures NotesAccounted() && PhaseSound()
      ensures isPlaying && !gameOver && ValidLane(lane) ==>
                activeNotes == old(activeNotes)[old(nextId) := Note(lane, now)] && nextId == old(nextId) + 1
      ensures !(isPlaying && !gameOver && ValidLane(lane)) ==>
                activeNotes == old(activeNotes) && nextId == old(nextId)
    {
      if !isPlaying || gameOver {
        return;
      }
      if !ValidLane(lane) {
        return;
      }
      activeNotes := activeNotes[nextId := Note(lane, now)];
      nextId := nextId + 1;
    }

    /** A queued delayed spawn fires (the caller picks which one is due). */
    method FireSpawnTimer(now: int, k: nat)
      requires Valid() && k < |spawnQueue|
      modifies this`spawnQueue, this`activeNotes, this`nextId
      ensures Valid()
      ensures spawnQueue == old(spawnQueue[..k] + spawnQueue[k + 1..])
      ensures isPlaying && !gameOver && ValidLane(old(spawnQueue[k]).lane) ==>
                activeNotes == old(activeNotes)[old(nextId) := Note(old(spawnQueue[k]).lane, now)]
      ensures isPlaying && !gameOver && ValidLane(old(spawnQueue[k]).lane) ==> nextId == old(nextId) + 1
      ensures !(isPlaying && !gameOver && ValidLane(old(spawnQueue[k]).lane)) ==>
                activeNotes == old(activeNotes) && nextId == old(nextId)
    {
      var pending := spawnQueue[k];
      spawnQueue := spawnQueue[..k] + spawnQueue[k + 1..];
      SpawnNote(now, pending.lane);
    }

    /**
     * hitNote(lane): judge the closest eligible note, or count a stray press
     * as a miss. Input is ignored unless the session is running.
     */
    method HitNote(now: int, lane: int, dist: nat -> nat) returns (judged: Option<nat>)
      requires Valid()
      modifies this`activeNotes, this`ledger, this`strayPresses, this`completionTimers,
               this`gameOver, this`isPlaying, this`safetyArmed, this`activeNotes, this`discarded, this`outcome,
               game`totalScore, game`completedHouseNumbers, game`lives, game`completionScreen,
               game`completionCalled, game`hasCallback, game`notified, game`voice
      ensures Valid()
      ensures !old(isPlaying) || old(gameOver) ==>
                judged == None && ledger == old(ledger) && activeNotes == old(activeNotes) &&
                gameOver == old(gameOver) && completionTimers == old(completionTimers)
      ensures old(isPlaying) && !old(gameOver) && judged.Some? ==>
                && IsClosest(old(activeNotes), lane, dist, judged.value)
                && ledger == Hit(old(ledger), Grade(dist(judged.value)))
      ensures old(isPlaying) && !old(gameOver) && judged.None? ==>
                && (forall j: nat :: !Eligible(old(activeNotes), lane, dist, j))
                && ledger == Miss(old(ledger))
                && strayPresses == old(strayPresses) + 1
                && completionTimers == old(completionTimers)
      ensures old(isPlaying) && !old(gameOver) ==> (gameOver <==> Failed(ledger))
      ensures old(isPlaying) && !old(gameOver) && !gameOver ==>
                activeNotes == old(activeNotes) - (if judged.Some? then {judged.value} else {})
    {
      if !isPlaying || gameOver {
        return None;
      }
      judged := FindClosest(activeNotes, nextId, lane, dist);
      if judged.Some? {
        JudgeNote(now, judged.value, Grade(dist(judged.value)));
      } else {
        StrayPress();
      }
    }

    /**
     * The hit branch of hitNote: the note leaves the table, the ledger
     * records the tier, completion is re-tested and a session whose
     * satisfaction fell to zero ends in failure.
     */
    method JudgeNote(now: int, id: nat, tier: Tier)
      requires Valid() && isPlaying && !gameOver && id in activeNotes
      modifies this`activeNotes, this`ledger, this`completionTimers,
               this`gameOver, this`isPlaying, this`safetyArmed, this`activeNotes, this`discarded, this`outcome,
               game`totalScore, game`completedHouseNumbers, game`lives, game`completionScreen,
               game`completionCalled, game`hasCallback, game`notified, game`voice
      ensures Valid()
      ensures ledger == Hit(old(ledger), tier)
      ensures gameOver <==> Failed(ledger)
      ensures !gameOver ==> activeNotes == old(activeNotes) - {id}
      ensures gameOver ==> outcome == Some(Outcome(false, ledger.satisfaction, ledger.score, ledger.maxCombo))
      ensures !gameOver ==>
                completionTimers == old(completionTimers) +
                  (if CompletionDue(ledger.hitNotes + ledger.missedNotes, totalNotes, |activeNotes|,
                                    songEnded, now, songStartTime, songDuration) then 1 else 0)
    {
      activeNotes := activeNotes - {id};
      ledger := Hit(ledger, tier);
      CheckGameCompletion(now);
      if ledger.satisfaction <= 0 {
        EndGame(false);
      }
    }

    /** The no-note branch of hitNote: a stray press costs like a miss. */
    method StrayPress()
      requires Valid() && isPlaying && !gameOver
      modifies this`ledger, this`strayPresses, this`gameOver, this`isPlaying, this`safetyArmed, this`activeNotes, this`discarded, this`outcome,
               game`totalScore, game`completedHouseNumbers, game`lives, game`completionScreen,
               game`completionCalled, game`hasCallback, game`notified, game`voice
      ensures Valid()
      ensures ledger == Miss(old(ledger)) && strayPresses == old(strayPresses) + 1
      ensures gameOver <==> Failed(ledger)
      ensures !gameOver ==> activeNotes == old(activeNotes)
      ensures gameOver ==> outcome == Some(Outcome(false, ledger.satisfaction, ledger.score, ledger.maxCombo))
    {
      strayPresses := strayPresses + 1;
      ledger := Miss(ledger);
      if ledger.satisfaction <= 0 {
        EndGame(false);
      }
    }

    /** missNote(id): a note that reached the bottom; an id no longer active is ignored. */
    method MissNote(now: int, id: nat)
      requires Valid()
      modifies this`activeNotes, this`fallen, this`ledger, this`completionTimers,
               this`gameOver, this`isPlaying, this`safetyArmed, this`discarded, this`outcome,
               game`totalScore, game`completedHouseNumbers, game`lives, game`completionScreen,
               game`completionCalled, game`hasCallback, game`notified, game`voice
      ensures Valid()
      ensures id !in old(activeNotes) ==>
                ledger == old(ledger) && activeNotes == old(activeNotes) && gameOver == old(gameOver) &&
                completionTimers == old(completionTimers)
      ensures id in old(activeNotes) ==>
                && ledger == Miss(old(ledger))
                && fallen == old(fallen) + 1
                && (gameOver <==> Failed(ledger))
                && (!gameOver ==> activeNotes == old(activeNotes) - {id})
                && (gameOver ==> outcome == Some(Outcome(false, ledger.satisfaction, ledger.score, ledger.maxCombo)))
                && completionTimers == old(completionTimers) +
                     (if CompletionDue(ledger.hitNotes + ledger.missedNotes, totalNotes, |old(activeNotes) - {id}|,
                                       songEnded, now, songStartTime, songDuration) then 1 else 0)
    {
      if id !in activeNotes {
        return;
      }
      FallNote(now, id);
    }

    /** The body of missNote for a note that is still on screen. */
    method FallNote(now: int, id: nat)
      requires Valid() && id in activeNotes
      modifies this`activeNotes, this`fallen, this`ledger, this`completionTimers,
               this`gameOver, this`isPlaying, this`safetyArmed, this`discarded, this`outcome,
               game`totalScore, game`completedHouseNumbers, game`lives, game`completionScreen,
               game`completionCalled, game`hasCallback, game`notified, game`voice
      ensures Valid()
      ensures ledger == Miss(old(ledger)) && fallen == old(fallen) + 1
      ensures gameOver <==> Failed(ledger)
      ensures !gameOver ==> activeNotes == old(activeNotes) - {id}
      ensures gameOver ==> outcome == Some(Outcome(false, ledger.satisfaction, ledger.score, ledger.maxCombo))
      ensures completionTimers == old(completionTimers) +
                (if CompletionDue(ledger.hitNotes + ledger.missedNotes, totalNotes, |old(activeNotes) - {id}|,
                                  songEnded, now, songStartTime, songDuration) then 1 else 0)
    {
      ChargeMiss(now, id);
      if ledger.satisfaction <= 0 {
        EndGame(false);
      }
    }

    /** FallNote up to the satisfaction test: retire the note, charge it, re-check completion. */
    method ChargeMiss(now: int, id: nat)
      requires Valid() && id in activeNotes
      modifies this`activeNotes, this`fallen, this`ledger, this`completionTimers
      ensures Consistent() && !gameOver
      ensures ledger == Miss(old(ledger)) && fallen == old(fallen) + 1
      ensures activeNotes == old(activeNotes) - {id}
      ensures completionTimers == old(completionTimers) +
                (if CompletionDue(ledger.hitNotes + ledger.missedNotes, totalNotes, |activeNotes|,
                                  songEnded, now, songStartTime, songDuration) then 1 else 0)
    {
      activeNotes := activeNotes - {id};
      fallen := fallen + 1;
      ledger := Miss(ledger);
      CheckGameCompletion(now);
    }

    /** checkGameCompletion: schedule the 500 ms re-check when the song is done. */
    method CheckGameCompletion(now: int)
      modifies this`completionTimers
      ensures completionTimers == old(completionTimers) +
                (if CompletionDue(ledger.hitNotes + ledger.missedNotes, totalNotes, |activeNotes|,
                                  songEnded, now, songStartTime, songDuration) then 1 else 0)
    {
      if CompletionDue(ledger.hitNotes + ledger.missedNotes, totalNotes, |activeNotes|,
                       songEnded, now, songStartTime, songDuration) {
        completionTimers := completionTimers + 1;
      }
    }

    /**
     * A completion re-check fires: a session still running ends, and it ends
     * in success, because a running session has satisfaction above zero.
     */
    method FireCompletionTimer()
      requires Valid() && completionTimers > 0
      modifies this`completionTimers, this`gameOver, this`isPlaying, this`safetyArmed, this`activeNotes, this`discarded, this`outcome,
               game`totalScore, game`completedHouseNumbers, game`lives, game`completionScreen,
               game`completionCalled, game`hasCallback, game`notified, game`voice
      ensures Valid()
      ensures completionTimers == old(completionTimers) - 1 && ledger == old(ledger)
      ensures old(isPlaying) && !old(gameOver) ==>
                gameOver && outcome == Some(Outcome(true, ledger.satisfaction, ledger.score, ledger.maxCombo))
      ensures !(old(isPlaying) && !old(gameOver)) ==> gameOver == old(gameOver) && outcome == old(outcome)
    {
      completionTimers := completionTimers - 1;
      if isPlaying && !gameOver {
        var success := ledger.satisfaction > 0;
        EndGame(success);
      }
    }

    /** The safety timeout: a session still running after the last beat plus five seconds succeeds. */
    method FireSafetyTimeout()
      requires Valid()
      modifies this`gameOver, this`isPlaying, this`safetyArmed, this`activeNotes, this`discarded, this`outcome,
               game`totalScore, game`completedHouseNumbers, game`lives, game`completionScreen,
               game`completionCalled, game`hasCallback, game`notified, game`voice
      ensures Valid()
      ensures !safetyArmed && ledger == old(ledger)
      ensures old(safetyArmed) && old(isPlaying) && !old(gameOver) ==>
                gameOver && outcome == Some(Outcome(true, ledger.satisfaction, ledger.score, ledger.maxCombo))
      ensures !(old(safetyArmed) && old(isPlaying) && !old(gameOver)) ==>
                gameOver == old(gameOver) && outcome == old(outcome)
    {
      if !safetyArmed {
        return;
      }
      safetyArmed := false;
      if isPlaying && !gameOver {
        EndGame(true);
      }
    }

    /** The audio source's onended handler, installed by startAudio. */
    method OnSongEnded(now: int)
      modifies this`songEnded, this`completionTimers
      ensures songEnded
      ensures completionTimers == old(completionTimers) +
                (if CompletionDue(ledger.hitNotes + ledger.missedNotes, totalNotes, |activeNotes|,
                                  true, now, songStartTime, songDuration) then 1 else 0)
    {
      songEnded := true;
      CheckGameCompletion(now);
    }

    /** update(): about once a second while running, re-test completion. */
    method Update(now: nat)
      modifies this`completionTimers
      ensures !(isPlaying && !gameOver && now % 1000 < 16) ==> completionTimers == old(completionTimers)
      ensures isPlaying && !gameOver && now % 1000 < 16 ==>
                completionTimers == old(completionTimers) +
                  (if CompletionDue(ledger.hitNotes + ledger.missedNotes, totalNotes, |activeNotes|,
                                    songEnded, now, songStartTime, songDuration) then 1 else 0)
    {
      if isPlaying && !gameOver && now % 1000 < 16 {
        CheckGameCompletion(now);
      }
    }

    /**
     * endGame(success): once only. Stops play and the audio, clears the
     * active notes and reports the session to the game exactly once.
     */
    method EndGame(success: bool)
      requires Consistent()
      modifies this`gameOver, this`isPlaying, this`safetyArmed, this`activeNotes, this`discarded, this`outcome,
               game`totalScore, game`completedHouseNumbers, game`lives, game`completionScreen,
               game`completionCalled, game`hasCallback, game`notified, game`voice
      ensures Valid()
      ensures ledger == old(ledger)
      ensures gameOver && !isPlaying && activeNotes == map[] && !safetyArmed
      ensures old(gameOver) ==> outcome == old(outcome) && discarded == old(discarded)
      ensures old(gameOver) ==> unchanged(game)
      ensures !old(gameOver) ==>
                && outcome == Some(Outcome(success, ledger.satisfaction, ledger.score, ledger.maxCombo))
                && discarded == old(discarded) + |old(activeNotes)|
      ensures !old(gameOver) && success ==>
                game.totalScore == old(game.totalScore) + ledger.score && game.lives == old(game.lives)
      ensures !old(gameOver) && !success ==>
                game.lives == old(game.lives) - 1 && game.totalScore == old(game.totalScore)
    {
      if gameOver {
        return;
      }
      gameOver := true;
      isPlaying := false;
      safetyArmed := false;
      DiscardActive();
      outcome := Some(Outcome(success, ledger.satisfaction, ledger.score, ledger.maxCombo));
      Report(success);
    }

    /** The clearing loop of endGame: every active note is dropped unjudged. */
    method DiscardActive()
      requires NotesAccounted()
      modifies this`activeNotes, this`discarded
      ensures NotesAccounted()
      ensures activeNotes == map[] && discarded == old(discarded) + |old(activeNotes)|
    {
      discarded := discarded + |activeNotes|;
      activeNotes := map[];
    }

    /**
     * The game-side half of endGame: stop the carol audio if it is playing,
     * then onGameComplete with the session's figures.
     */
    method Report(success: bool)
      requires game.Valid() && game.OnceOnly()
      modifies game`totalScore, game`completedHouseNumbers, game`lives, game`completionScreen,
               game`completionCalled, game`hasCallback, game`notified, game`voice
      ensures game.Valid() && game.OnceOnly()
      ensures success ==> game.totalScore == old(game.totalScore) + ledger.score && game.lives == old(game.lives)
      ensures !success ==> game.lives == old(game.lives) - 1 && game.totalScore == old(game.totalScore)
    {
      if game.voice.isPlaying {
        game.StopCarolAudio();
      }
      game.OnGameComplete(success, ledger.satisfaction, ledger.score, ledger.maxCombo);
    }
  }
}
