/**
 * The 3D village's run bookkeeping (class Game3D in player.js): which houses
 * are completed, failed or open, what a caroling result does to them, the
 * reset of a run, and the gates on the victory exit.
 */
module World {

  import opened Wrappers
  import opened Caroling
  import opened Progression
  import Ledger

  class Game3D {
    const carolingGame: CarolingGame

    var completedHouses: set<int>
    var failedHouses: set<int>
    var houseFailures: map<int, nat>
    var allowedHouses: set<int>

    var isDead: bool
    var victoryTriggered: bool
    var exitPromptShown: bool
    var isRunning: bool
    var isPaused: bool

    /**
     * A house is never both completed and failed, the failure counts are kept
     * exactly for the failed houses and are positive, and the open houses are
     * village houses that always include the first.
     */
    ghost predicate Valid()
      reads this`completedHouses, this`failedHouses, this`houseFailures, this`allowedHouses
    {
      completedHouses !! failedHouses &&
      houseFailures.Keys == failedHouses &&
      (forall h :: h in houseFailures ==> houseFailures[h] >= 1) &&
      FirstHouse in allowedHouses &&
      (forall h :: h in allowedHouses ==> IsHouse(h))
    }

    constructor (g: CarolingGame)
      ensures Valid()
      ensures carolingGame == g
      ensures completedHouses == {} && failedHouses == {} && houseFailures == map[]
      ensures allowedHouses == {FirstHouse}
      ensures !isDead && !victoryTriggered && !exitPromptShown && !isRunning && !isPaused
    {
      carolingGame := g;
      completedHouses, failedHouses, houseFailures := {}, {}, map[];
      allowedHouses := {FirstHouse};
      isDead, victoryTriggered, exitPromptShown := false, false, false;
      isRunning, isPaused := false, false;
    }

    /** checkHouseAccess on the current sets. */
    function Access(h: int): (a: Access)
      reads this`completedHouses, this`allowedHouses
      ensures a == Allowed <==> h !in completedHouses && h in allowedHouses
      ensures a == AlreadyCompleted <==> h in completedHouses
    {
      CheckHouseAccess(completedHouses, allowedHouses, h)
    }

    /**
     * The count the door prompt shows for a house (houseFailures[h] || 0): at
     * least one for every failed house, nothing for any other.
     */
    function FailureCountOf(h: int): (n: nat)
      requires Valid()
      reads this`completedHouses, this`failedHouses, this`houseFailures, this`allowedHouses
      ensures h in failedHouses <==> n >= 1
    {
      FailureCount(houseFailures, h)
    }

    /**
     * updateAllowedHouses: walks houses 2 to 6 and opens each one whose
     * requirement holds; an open house stays open.
     */
    method UpdateAllowedHouses()
      requires Valid()
      modifies this`allowedHouses
      ensures Valid()
      ensures allowedHouses == old(allowedHouses) + Opened(completedHouses)
    {
      var houseNumber := 2;
      while houseNumber <= LastHouse
        invariant 2 <= houseNumber <= LastHouse + 1
        invariant Valid()
        invariant allowedHouses ==
                  old(allowedHouses) + set h | 2 <= h < houseNumber && Requirement(h, completedHouses)
      {
        if houseNumber !in allowedHouses && Requirement(houseNumber, completedHouses) {
          allowedHouses := allowedHouses + {houseNumber};
        }
        houseNumber := houseNumber + 1;
      }
    }

    /**
     * onCarolingGameComplete: a game-over result stops the world and returns
     * before any bookkeeping; otherwise a success moves the house to the
     * completed set, clears its failure count and opens what it unlocks, and
     * a failure moves it to the failed set and counts one more failure. Then
     * the caroling game is told to exit (a no-op once it has already called
     * back) and the world resumes.
     */
    method OnCarolingGameComplete(result: CompletionEvent)
      requires Valid() && carolingGame.OnceOnly()
      modifies this`completedHouses, this`failedHouses, this`houseFailures, this`allowedHouses,
               this`isRunning, this`isPaused,
               carolingGame`completionScreen, carolingGame`completionCalled,
               carolingGame`hasCallback, carolingGame`notified, carolingGame`voice
      ensures Valid() && carolingGame.OnceOnly()
      ensures old(allowedHouses) <= allowedHouses
      ensures result.GameOver? && !old(carolingGame.completionCalled) && old(carolingGame.hasCallback) ==>
                carolingGame.notified == old(carolingGame.notified) + [ExitWithoutResult()]
      ensures old(carolingGame.completionCalled) ||
              (result.GameOver? && !old(carolingGame.hasCallback)) ==>
                carolingGame.notified == old(carolingGame.notified)
      ensures result.GameOver? ==>
                !isRunning && isPaused &&
                completedHouses == old(completedHouses) && failedHouses == old(failedHouses) &&
                houseFailures == old(houseFailures) && allowedHouses == old(allowedHouses)
      ensures result.Finished? ==> isRunning && isPaused == old(isPaused) && carolingGame.completionCalled
      ensures result.Finished? && result.success ==>
                var h := result.houseNumber;
                completedHouses == old(completedHouses) + {h} &&
                failedHouses == old(failedHouses) - {h} &&
                houseFailures == old(houseFailures) - {h} &&
                allowedHouses == old(allowedHouses) + Opened(completedHouses)
      ensures result.Finished? && !result.success ==>
                var h := result.houseNumber;
                completedHouses == old(completedHouses) - {h} &&
                failedHouses == old(failedHouses) + {h} &&
                houseFailures == old(houseFailures)[h := FailureCount(old(houseFailures), h) + 1] &&
                allowedHouses == old(allowedHouses)
    {
      if result.GameOver? {
        Stop();
        return;
      }
      var h := result.houseNumber;
      if result.success {
        completedHouses := completedHouses + {h};
        failedHouses := failedHouses - {h};
        if h in houseFailures {
          houseFailures := houseFailures - {h};
        }
        UpdateAllowedHouses();
      } else {
        failedHouses := failedHouses + {h};
        completedHouses := completedHouses - {h};
        houseFailures := houseFailures[h := FailureCount(houseFailures, h) + 1];
      }
      carolingGame.ExitGame(false, 0, 0, 0);
      isRunning := true;
    }

    /**
     * handleEnterPress at a door: the access check decides; an enterable
     * house hides the world and starts the caroling game for it.
     */
    method HandleEnterPress(house: int, roll: nat, songRoll: nat) returns (access: Access)
      requires carolingGame.Valid()
      modifies this`isRunning,
               carolingGame`currentHouse, carolingGame`hasCallback, carolingGame`notified,
               carolingGame`completionCalled, carolingGame`completionScreen,
               carolingGame`currentDifficulty, carolingGame`initialSatisfaction,
               carolingGame`currentSatisfaction, carolingGame`houseSongHistory,
               carolingGame`currentSongData
      ensures access == Access(house)
      ensures access == Allowed ==>
                !isRunning && carolingGame.currentHouse == house && carolingGame.hasCallback &&
                !carolingGame.completionCalled && carolingGame.notified == []
      ensures access != Allowed ==>
                isRunning == old(isRunning) && carolingGame.currentHouse == old(carolingGame.currentHouse) &&
                carolingGame.notified == old(carolingGame.notified)
    {
      access := Access(house);
      if access != Allowed {
        return;
      }
      isRunning := false;
      var song := carolingGame.Init(house, roll, songRoll);
    }

    /**
     * resetGameState: empties both sets and the failure counts, clears the
     * death, victory and prompt flags, reopens only the first house, and
     * restores the caroling game's lives, total score and completed list.
     */
    method ResetGameState()
      modifies this`completedHouses, this`failedHouses, this`houseFailures, this`allowedHouses,
               this`isDead, this`victoryTriggered, this`exitPromptShown,
               carolingGame`lives, carolingGame`totalScore, carolingGame`completedHouseNumbers
      ensures Valid()
      ensures completedHouses == {} && failedHouses == {} && houseFailures == map[]
      ensures allowedHouses == {FirstHouse}
      ensures !isDead && !victoryTriggered && !exitPromptShown
      ensures carolingGame.lives == carolingGame.maxLives
      ensures carolingGame.totalScore == 0 && carolingGame.completedHouseNumbers == []
    {
      completedHouses, failedHouses, houseFailures := {}, {}, map[];
      victoryTriggered, exitPromptShown, isDead := false, false, false;
      allowedHouses := {FirstHouse};
      carolingGame.lives := carolingGame.maxLives;
      carolingGame.totalScore := 0;
      carolingGame.completedHouseNumbers := [];
    }

    /**
     * checkVictoryExit: with enough score and neither the victory nor a
     * prompt under way, coming close to the exit (nearExit) shows the prompt
     * once. Its score bar is the literal 15500, the same value
     * canExitVillage uses.
     */
    method CheckVictoryExit(nearExit: bool) returns (prompted: bool)
      modifies this`exitPromptShown
      ensures prompted <==>
                carolingGame.totalScore >= Ledger.ExitThreshold && !victoryTriggered &&
                !old(exitPromptShown) && nearExit
      ensures exitPromptShown == (old(exitPromptShown) || prompted)
    {
      prompted := false;
      if carolingGame.totalScore < Ledger.ExitThreshold || victoryTriggered || exitPromptShown {
        return;
      }
      if nearExit {
        exitPromptShown := true;
        prompted := true;
      }
    }

    /** "Continue playing" (or ESC) on the exit prompt: the prompt may show again. */
    method ContinuePlaying()
      modifies this`exitPromptShown
      ensures !exitPromptShown
    {
      exitPromptShown := false;
    }

    /**
     * triggerVictorySequence: runs at most once; the first call stops the
     * world.
     */
    method TriggerVictorySequence() returns (started: bool)
      modifies this`victoryTriggered, this`isRunning
      ensures started <==> !old(victoryTriggered)
      ensures victoryTriggered
      ensures started ==> !isRunning
      ensures !started ==> isRunning == old(isRunning)
    {
      if victoryTriggered {
        return false;
      }
      victoryTriggered := true;
      isRunning := false;
      return true;
    }

    /**
     * stop: the world neither runs nor takes input, and the caroling game is
     * told to exit. When the caroling game has not yet called back (as after
     * triggerGameOver), that exit takes the callback and queues one more
     * Finished(false) result for it.
     */
    method Stop()
      requires carolingGame.OnceOnly()
      modifies this`isRunning, this`isPaused,
               carolingGame`completionScreen, carolingGame`completionCalled,
               carolingGame`hasCallback, carolingGame`notified, carolingGame`voice
      ensures !isRunning && isPaused
      ensures carolingGame.OnceOnly() && carolingGame.completionCalled
      ensures !old(carolingGame.completionCalled) && old(carolingGame.hasCallback) ==>
                !carolingGame.hasCallback &&
                carolingGame.notified == old(carolingGame.notified) + [ExitWithoutResult()]
      ensures old(carolingGame.completionCalled) || !old(carolingGame.hasCallback) ==>
                carolingGame.notified == old(carolingGame.notified)
    {
      isRunning, isPaused := false, true;
      carolingGame.ExitGame(false, 0, 0, 0);
    }

    /** The result exitGame(false) delivers: a failure with no session figures. */
    function ExitWithoutResult(): (e: CompletionEvent)
      reads carolingGame
      ensures e.Finished? && !e.success && e.needRespawn
      ensures e.houseNumber == carolingGame.currentHouse && e.lives == carolingGame.lives
    {
      Finished(false, 0, 0, 0, carolingGame.currentHouse, carolingGame.completedHouseNumbers,
               carolingGame.totalScore, carolingGame.lives,
               carolingGame.totalScore >= Ledger.ExitThreshold, true)
    }
  }

  /**
   * Once the victory sequence has started, neither the exit prompt nor a
   * second victory sequence can start.
   */
  method VictoryHappensOnce(w: Game3D, nearExit: bool) returns (again: bool, prompted: bool)
    modifies w
    ensures !again && !prompted
  {
    var first := w.TriggerVictorySequence();
    prompted := w.CheckVictoryExit(nearExit);
    again := w.TriggerVictorySequence();
  }

  /**
   * A game over as written: triggerGameOver signals GameOver without
   * consuming the callback, the world's handler calls stop(), and stop's
   * exitGame(false) queues a Finished(false) for the same callback. When
   * that result arrives, the house is recorded as failed once more, although
   * the run is over, and isRunning is set again. The world does not move:
   * stop() left isPaused set, so animate() returns at once (player.js:1781),
   * and the menu stays in front of it.
   */
  method GameOverRecordsFailure(w: Game3D) returns (second: CompletionEvent)
    requires w.Valid() && w.carolingGame.OnceOnly()
    requires w.carolingGame.hasCallback && !w.carolingGame.completionCalled && w.carolingGame.notified == []
    modifies w, w.carolingGame
    ensures w.carolingGame.notified == [GameOver, second]
    ensures second.Finished? && !second.success && second.houseNumber == w.carolingGame.currentHouse
    ensures w.carolingGame.currentHouse in w.failedHouses
    ensures w.isRunning && w.isPaused
  {
    second := SignalGameOver(w);
    w.OnCarolingGameComplete(second);
  }

  /** The first half of a game over as written: the signal and the world's stop. */
  method SignalGameOver(w: Game3D) returns (queued: CompletionEvent)
    requires w.Valid() && w.carolingGame.OnceOnly()
    requires w.carolingGame.hasCallback && !w.carolingGame.completionCalled && w.carolingGame.notified == []
    modifies w`completedHouses, w`failedHouses, w`houseFailures, w`allowedHouses,
             w`isRunning, w`isPaused, w.carolingGame`completionScreen, w.carolingGame`completionCalled,
             w.carolingGame`hasCallback, w.carolingGame`notified, w.carolingGame`voice
    ensures w.Valid() && w.carolingGame.OnceOnly() && !w.isRunning && w.isPaused
    ensures w.carolingGame.notified == [GameOver, queued]
    ensures queued.Finished? && !queued.success && queued.houseNumber == w.carolingGame.currentHouse
  {
    w.carolingGame.TriggerGameOver();
    w.OnCarolingGameComplete(GameOver);
    queued := w.carolingGame.notified[1];
  }

  /**
   * A game over with the corrected signal: the callback receives GameOver
   * and nothing after it, the world stays stopped, and no house is marked
   * failed by the end of the run.
   */
  method GameOverIsFinal(w: Game3D)
    requires w.Valid() && w.carolingGame.OnceOnly()
    requires w.carolingGame.hasCallback && !w.carolingGame.completionCalled && w.carolingGame.notified == []
    modifies w, w.carolingGame
    ensures w.carolingGame.notified == [GameOver]
    ensures !w.isRunning
    ensures w.failedHouses == old(w.failedHouses) && w.houseFailures == old(w.houseFailures)
  {
    w.carolingGame.TriggerGameOverOnce();
    w.OnCarolingGameComplete(GameOver);
  }

  /**
   * Winning house 1 opens house 2, and failing house 2 afterwards leaves it
   * open with one failure counted: a failure never closes a house.
   */
  method FirstWinOpensSecondHouse(g: CarolingGame) returns (w: Game3D)
    requires g.OnceOnly()
    modifies g
    ensures 1 in w.completedHouses && 2 in w.allowedHouses
    ensures 2 in w.failedHouses && 2 in w.houseFailures && w.houseFailures[2] == 1
  {
    w := new Game3D(g);
    w.OnCarolingGameComplete(Finished(true, 80, 1000, 10, 1, [1], 1000, 3, false, false));
    assert 2 in Opened({1});
    w.OnCarolingGameComplete(Finished(false, 0, 0, 0, 2, [1], 1000, 2, false, true));
  }
}
