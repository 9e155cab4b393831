/**
 * The village's house-order rules (Game3D in player.js): which houses the
 * unlock requirements open, whether a house may be entered, and the status
 * a door or the HUD shows for a house.
 */
module Progression {

  /** The village has houses 1 to 6; house 1 is open from the start. */
  const FirstHouse := 1
  const LastHouse := 6

  predicate IsHouse(h: int)
  {
    FirstHouse <= h <= LastHouse
  }

  /**
   * unlockRequirements: house 2 needs house 1 completed, house 3 needs
   * house 2, house 4 needs any two completed houses, house 5 needs house 4
   * and house 6 needs house 5. Other numbers have no requirement.
   */
  predicate Requirement(house: int, completed: set<int>)
  {
    match house
    case 2 => 1 in completed
    case 3 => 2 in completed
    case 4 => |completed| >= 2
    case 5 => 4 in completed
    case 6 => 5 in completed
    case _ => false
  }

  /** The houses the requirements open for the given completed set. */
  ghost function Opened(completed: set<int>): set<int>
  {
    set h | 2 <= h <= LastHouse && Requirement(h, completed)
  }

  /** Requirements only ask for more completed houses, so more completed houses open no fewer. */
  lemma RequirementMonotone(h: int, completed: set<int>, more: set<int>)
    requires completed <= more
    requires Requirement(h, completed)
    ensures Requirement(h, more)
  {
    if h == 4 {
      assert |completed| <= |more| by {
        SubsetCardinality(completed, more);
      }
    }
  }

  /** A subset has no more elements than its superset. */
  lemma SubsetCardinality(a: set<int>, b: set<int>)
    requires a <= b
    ensures |a| <= |b|
  {
    assert b == a + (b - a);
  }

  lemma OpenedMonotone(completed: set<int>, more: set<int>)
    requires completed <= more
    ensures Opened(completed) <= Opened(more)
  {
    forall h | h in Opened(completed)
      ensures h in Opened(more)
    {
      RequirementMonotone(h, completed, more);
    }
  }

  /** Every opened house is a village house other than the first, and needs some house completed. */
  lemma OpenedNeedsProgress(completed: set<int>)
    ensures forall h :: h in Opened(completed) ==> IsHouse(h) && h != FirstHouse
    ensures Opened(completed) != {} ==> completed != {}
  {
  }

  /** The whole chain opens once houses 1, 2, 4 and 5 are completed. */
  lemma ChainOpensAll(completed: set<int>)
    requires {1, 2, 4, 5} <= completed
    ensures Opened(completed) == {2, 3, 4, 5, 6}
  {
    SubsetCardinality({1, 2}, completed);
  }

  /** The answer of checkHouseAccess: allowed, already_completed or locked. */
  datatype Access = Allowed | AlreadyCompleted | NotYetAllowed

  /**
   * checkHouseAccess: a completed house is refused first, then a house not
   * yet allowed; anything else may be entered.
   */
  function CheckHouseAccess(completed: set<int>, allowed: set<int>, h: int): (a: Access)
    ensures a == Allowed <==> h !in completed && h in allowed
    ensures a == AlreadyCompleted <==> h in completed
    ensures a == NotYetAllowed <==> h !in completed && h !in allowed
  {
    if h in completed then AlreadyCompleted
    else if h !in allowed then NotYetAllowed
    else Allowed
  }

  /** What the door prompt and the HUD show for a house. */
  datatype Status = Completed | Failed | Locked | Available

  /**
   * The status priority of the door prompt and the HUD: completed before
   * failed before locked before available.
   */
  function HouseStatus(completed: set<int>, failed: set<int>, allowed: set<int>, h: int): (s: Status)
    ensures s == Completed <==> h in completed
    ensures s == Failed <==> h !in completed && h in failed
    ensures s == Locked <==> h !in completed && h !in failed && h !in allowed
    ensures s == Available <==> h !in completed && h !in failed && h in allowed
  {
    if h in completed then Completed
    else if h in failed then Failed
    else if h !in allowed then Locked
    else Available
  }

  /** The failure count the door prompt shows next to a failed house (houseFailures[h] || 0). */
  function FailureCount(failures: map<int, nat>, h: int): (n: nat)
    ensures h !in failures ==> n == 0
    ensures h in failures ==> n == failures[h]
  {
    if h in failures then failures[h] else 0
  }

  /**
   * The door status and the access check agree: an available house can be
   * entered, a completed one is refused as completed, a locked one as locked,
   * and a failed one exactly when it is allowed.
   */
  lemma StatusAgreesWithAccess(completed: set<int>, failed: set<int>, allowed: set<int>, h: int)
    ensures HouseStatus(completed, failed, allowed, h) == Available ==>
              CheckHouseAccess(completed, allowed, h) == Allowed
    ensures HouseStatus(completed, failed, allowed, h) == Completed <==>
              CheckHouseAccess(completed, allowed, h) == AlreadyCompleted
    ensures HouseStatus(completed, failed, allowed, h) == Locked ==>
              CheckHouseAccess(completed, allowed, h) == NotYetAllowed
    ensures HouseStatus(completed, failed, allowed, h) == Failed ==>
              (CheckHouseAccess(completed, allowed, h) == Allowed <==> h in allowed)
  {
  }
}
