/**
 * The scoring and satisfaction rules of the caroling minigame
 * (caroling.js), as pure functions over a value-level ledger.
 * The scene class holds one such ledger and its methods are specified
 * by these transitions.
 */
module Ledger {

  import Wrappers

  /** Score awarded per hit tier (CarolingGame.scoring). */
  const PerfectScore := 100
  const GoodScore := 50
  const BadScore := 0

  /** Satisfaction change per hit tier (CarolingGame.satisfactionRate). */
  const PerfectSatisfaction := 10
  const GoodSatisfaction := 7
  const BadSatisfaction := -10

  /** Distance thresholds of the judge, in the scene's distance units. */
  const HitArea := 120
  const PerfectWindow := 30
  const GoodWindow := 60

  /** Cumulative score needed to leave the village. */
  const ExitThreshold := 15500

  datatype Tier = Perfect | Good | Bad

  /** The tier of a hit at the given distance from the hit line. */
  function Grade(distance: nat): (t: Tier)
    ensures t == Perfect <==> distance < PerfectWindow
    ensures t == Good <==> PerfectWindow <= distance < GoodWindow
    ensures t == Bad <==> GoodWindow <= distance
  {
    if distance < PerfectWindow then Perfect
    else if distance < GoodWindow then Good
    else Bad
  }

  function TierScore(t: Tier): int
  {
    match t
    case Perfect => PerfectScore
    case Good => GoodScore
    case Bad => BadScore
  }

  function TierSatisfaction(t: Tier): int
  {
    match t
    case Perfect => PerfectSatisfaction
    case Good => GoodSatisfaction
    case Bad => BadSatisfaction
  }

  /** Phaser.Math.Clamp(v, 0, 100). */
  function Clamp(v: int): (r: int)
    ensures 0 <= r <= 100
    ensures 0 <= v <= 100 ==> r == v
    ensures v < 0 ==> r == 0
    ensures v > 100 ==> r == 100
  {
    if v < 0 then 0 else if v > 100 then 100 else v
  }

  /** The session counters of one caroling scene. */
  datatype Ledger = Ledger(
    score: int,
    combo: nat,
    maxCombo: nat,
    satisfaction: int,
    hitNotes: nat,
    missedNotes: nat)

  function Start(satisfaction: int): Ledger
  {
    Ledger(0, 0, 0, satisfaction, 0, 0)
  }

  /** The counters after a note is hit at tier t (hitNote, found branch). */
  function Hit(l: Ledger, t: Tier): (h: Ledger)
    ensures h.hitNotes + h.missedNotes == l.hitNotes + l.missedNotes + 1
    ensures 0 < h.combo <= h.maxCombo
  {
    var combo := l.combo + 1;
    Ledger(l.score + TierScore(t), combo,
           if l.maxCombo < combo then combo else l.maxCombo,
           Clamp(l.satisfaction + TierSatisfaction(t)),
           l.hitNotes + 1, l.missedNotes)
  }

  /** The counters after a stray press or a note that fell past the line. */
  function Miss(l: Ledger): (m: Ledger)
    ensures m.hitNotes + m.missedNotes == l.hitNotes + l.missedNotes + 1
    ensures m.combo == 0 && m.maxCombo == l.maxCombo
  {
    Ledger(l.score, 0, l.maxCombo, l.satisfaction + BadSatisfaction,
           l.hitNotes, l.missedNotes + 1)
  }

  /** The scene calls endGame(false) once satisfaction is at or below zero. */
  predicate Failed(l: Ledger)
  {
    l.satisfaction <= 0
  }

  /** The invariant every reachable ledger keeps. */
  predicate Sound(l: Ledger)
  {
    && l.score >= 0
    && l.combo <= l.maxCombo
    && -10 < l.satisfaction <= 100
  }

  /**
   * A hit awards 100, 50 or 0 points and moves satisfaction by +10, +7 or
   * -10 by tier, clamped to [0, 100]; the best combo is the larger of the
   * old best and the new combo.
   */
  lemma HitEffect(l: Ledger, t: Tier)
    ensures Hit(l, t).score == l.score + (if t == Perfect then 100 else if t == Good then 50 else 0)
    ensures Hit(l, t).satisfaction ==
              Clamp(l.satisfaction + (if t == Perfect then 10 else if t == Good then 7 else -10))
    ensures Hit(l, t).combo == l.combo + 1
    ensures Hit(l, t).maxCombo == if l.maxCombo < l.combo + 1 then l.combo + 1 else l.maxCombo
    ensures 0 <= Hit(l, t).satisfaction <= 100
    ensures Hit(l, t).hitNotes == l.hitNotes + 1 && Hit(l, t).missedNotes == l.missedNotes
  {
  }

  /** A miss is not clamped: it always costs exactly ten points of satisfaction. */
  lemma MissEffect(l: Ledger)
    ensures Miss(l).satisfaction == l.satisfaction - 10
    ensures Miss(l).combo == 0 && Miss(l).score == l.score
    ensures Miss(l).missedNotes == l.missedNotes + 1 && Miss(l).hitNotes == l.hitNotes
  {
  }

  /** Hits keep the ledger sound; a miss does too when the session was still live. */
  lemma HitKeepsSound(l: Ledger, t: Tier)
    requires Sound(l)
    ensures Sound(Hit(l, t))
  {
  }

  lemma MissKeepsSound(l: Ledger)
    requires Sound(l) && !Failed(l)
    ensures Sound(Miss(l))
  {
  }

  /** A Bad hit and a miss cost the same satisfaction and award the same score. */
  lemma BadEqualsMissInConsequence(l: Ledger)
    requires 10 <= l.satisfaction <= 100
    ensures Hit(l, Bad).satisfaction == Miss(l).satisfaction
    ensures Hit(l, Bad).score == Miss(l).score
  {
  }

  /** The counters after n consecutive Perfect hits. */
  function Perfects(l: Ledger, n: nat): Ledger
    decreases n
  {
    if n == 0 then l else Perfects(Hit(l, Perfect), n - 1)
  }

  function Min(a: int, b: int): int
  {
    if a <= b then a else b
  }

  /** n Perfect hits add 100 points each and raise satisfaction by ten each, up to 100. */
  lemma {:induction false} PerfectRun(l: Ledger, n: nat)
    requires 0 <= l.satisfaction <= 100
    ensures Perfects(l, n).score == l.score + 100 * n
    ensures Perfects(l, n).satisfaction == Min(100, l.satisfaction + 10 * n)
    ensures Perfects(l, n).combo == l.combo + n
    ensures Perfects(l, n).hitNotes == l.hitNotes + n
    decreases n
  {
    if n > 0 {
      PerfectRun(Hit(l, Perfect), n - 1);
    }
  }

  /**
   * Replaying misses the way the scene does: each miss is applied and the
   * session ends as soon as satisfaction is at or below zero. The result is
   * the ledger and how many misses were processed.
   */
  function Misses(l: Ledger, n: nat): (Ledger, nat)
    decreases n
  {
    if n == 0 then (l, 0)
    else
      var next := Miss(l);
      if Failed(next) then (next, 1)
      else
        var (last, k) := Misses(next, n - 1);
        (last, k + 1)
  }

  /**
   * From satisfaction s > 0, a run of misses ends the session after exactly
   * ceil(s / 10) misses, at satisfaction s - 10 * ceil(s / 10).
   */
  lemma {:induction false} MissRunEndsSession(l: Ledger, n: nat)
    requires l.satisfaction > 0
    requires 10 * n >= l.satisfaction
    ensures Misses(l, n).1 == (l.satisfaction + 9) / 10
    ensures Misses(l, n).0.satisfaction == l.satisfaction - 10 * ((l.satisfaction + 9) / 10)
    ensures Failed(Misses(l, n).0)
    decreases n
  {
    if l.satisfaction > 10 {
      MissRunEndsSession(Miss(l), n - 1);
    }
  }

  /** CarolingGame.canExitVillage. */
  predicate CanExitVillage(totalScore: int)
  {
    totalScore >= ExitThreshold
  }

  /** The base of the random initial satisfaction of a house (init). */
  function SatisfactionBase(house: int): int
  {
    if house >= 6 then 35 else if house >= 4 then 40 else 50
  }

  /** Math.floor(Math.random() * 11) + base, with the draw passed in as roll. */
  function InitialSatisfaction(house: int, roll: nat): (s: int)
    ensures SatisfactionBase(house) <= s <= SatisfactionBase(house) + 10
    ensures 35 <= s <= 60
    ensures house <= 3 ==> 50 <= s
    ensures house >= 6 ==> s <= 45
  {
    SatisfactionBase(house) + roll % 11
  }

  /** The difficulty labels init assigns ('easy' ... 'master'). */
  datatype Difficulty = Easy | Moderate | Hard | VeryHard | Extreme | Master

  /** The position of a label in the order easy ... master. */
  function Rank(d: Difficulty): nat
  {
    match d
    case Easy => 0
    case Moderate => 1
    case Hard => 2
    case VeryHard => 3
    case Extreme => 4
    case Master => 5
  }

  /**
   * Houses 1 to 6 get the labels in order; any other number falls through
   * to 'master'.
   */
  function DifficultyOf(house: int): (d: Difficulty)
    ensures 1 <= house <= 6 ==> Rank(d) == house - 1
    ensures d == Master <==> house < 1 || house > 5
  {
    if house == 1 then Easy
    else if house == 2 then Moderate
    else if house == 3 then Hard
    else if house == 4 then VeryHard
    else if house == 5 then Extreme
    else Master
  }

  /**
   * The song index getSongForHouse picks from a pool of the given size:
   * the one after the last pick, or the random draw when there was none.
   */
  function NextSongIndex(last: Wrappers.Option<nat>, poolSize: nat, roll: nat): (i: nat)
    requires poolSize > 0
    ensures i < poolSize
    ensures last.Some? ==> i == (last.value + 1) % poolSize
  {
    match last
    case Some(k) => (k + 1) % poolSize
    case None => roll % poolSize
  }

  /** A single-entry pool always yields its only song, whatever the history. */
  lemma SingleSongPool(last: Wrappers.Option<nat>, roll: nat)
    ensures NextSongIndex(last, 1, roll) == 0
  {
  }

  /** With more than one song, the round-robin never repeats the last pick. */
  lemma NoImmediateRepeat(last: nat, poolSize: nat, roll: nat)
    requires 1 < poolSize && last < poolSize
    ensures NextSongIndex(Wrappers.Some(last), poolSize, roll) != last
  {
  }

  /**
   * checkGameCompletion: all notes processed, none active, and either the
   * song has ended or the clock is past songStart + duration - 1000.
   */
  function CompletionDue(processed: nat, totalNotes: nat, activeCount: nat,
                         songEnded: bool, now: int, songStart: int, songDuration: int): (due: bool)
    ensures due <==> processed >= totalNotes && activeCount == 0 &&
                     (songEnded || songStart + songDuration - 1000 < now)
  {
    var allProcessed := processed >= totalNotes;
    var noActive := activeCount == 0;
    (songEnded && allProcessed && noActive) ||
    (allProcessed && noActive && now > songStart + songDuration - 1000)
  }
}
