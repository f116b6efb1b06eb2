/** The talent-point economy of one player: buying a talent, the adaptive
    point roll and the award of points.

    The player's session is a record of the stored progression fields. The
    session's talent cost is a function of the number of owned talents and its
    access rule a function of the owned set and the talent; both are given by
    the caller. Saving, advancement reports, sound effects and titles are
    recorded, in order, as events. */
module Talents {

  /** Size of the roll's sample space. */
  const Total := 800

  /** Chance never exceeds half of the sample space. */
  const Cap := Total / 2

  /** Misses the counter forgives before the chance starts to rise. */
  const Grace := 5

  type Talent = string

  datatype TalentTitle = UnlockAvailable | Progress(points: int, cost: int)

  datatype Event =
    | Saved                          // the session's data is saved
    | AdvancementGiven(talent: Talent) // the advancement for an unlocked talent is reported
    | AdvancementChecked             // the generic point advancement is reported
    | UnlockEffect                   // the "unlock available" effect plays
    | PointEffect                    // the "point gained" effect plays
    | TitleSent(title: TalentTitle)  // a title is shown to the player

  class Session {
    var talentPoints: int   // the point balance
    var talentChance: int   // the miss counter
    var talentCount: int    // the stored number of owned talents
    var rowModified: bool
    var tagModified: bool
    var talents: set<Talent>
    var events: seq<Event>
  }

  function Min(a: int, b: int): int { if a <= b then a else b }
  function Max(a: int, b: int): int { if a <= b then b else a }

  /** The success threshold of a roll, out of `Total`. A player with no
      talents and no points gets the catch-up chance of one half whatever the
      counter; otherwise the counter, less the grace, clamped to [0, 400]. */
  function Chance(noTalents: bool, points: int, counter: int): (c: int)
    ensures 0 <= c <= Cap
    ensures noTalents && points == 0 ==> c == Cap
    ensures !(noTalents && points == 0) && counter <= Grace ==> c == 0
    ensures !(noTalents && points == 0) && Grace + Cap <= counter ==> c == Cap
  {
    if noTalents && points == 0 then Cap
    else Min(Max(0, counter - Grace), Cap)
  }

  /** More misses never lower the chance. */
  lemma ChanceRatchets(noTalents: bool, points: int, c1: int, c2: int)
    requires c1 <= c2
    ensures Chance(noTalents, points, c1) <= Chance(noTalents, points, c2)
  {
  }

  /** A draw wins when it falls below the chance. */
  predicate Wins(roll: int, chance: int) {
    roll < chance
  }

  /** The draws in [0, Total) that win against `chance`. */
  function WinningRolls(chance: int): set<int> {
    set r | 0 <= r < Total && Wins(r, chance)
  }

  lemma {:induction false} WinningRollsCount(chance: int)
    requires 0 <= chance <= Total
    ensures |WinningRolls(chance)| == chance
    decreases chance
  {
    if chance > 0 {
      WinningRollsCount(chance - 1);
      assert WinningRolls(chance) == WinningRolls(chance - 1) + {chance - 1};
    } else {
      assert WinningRolls(chance) == {};
    }
  }

  /** At most half of the rolls win, and the number of winning rolls never
      falls as the counter grows. */
  lemma OddsAtMostHalf(noTalents: bool, points: int, c1: int, c2: int)
    requires c1 <= c2
    ensures 2 * |WinningRolls(Chance(noTalents, points, c2))| <= Total
    ensures |WinningRolls(Chance(noTalents, points, c1))| <= |WinningRolls(Chance(noTalents, points, c2))|
  {
    WinningRollsCount(Chance(noTalents, points, c1));
    WinningRollsCount(Chance(noTalents, points, c2));
  }

  /** With no talents and no points, exactly half of the rolls win, whatever the counter. */
  lemma CatchUpIsHalf(counter: int)
    ensures 2 * |WinningRolls(Chance(true, 0, counter))| == Total
  {
    WinningRollsCount(Cap);
  }

  /** The feedback of an award of `amount` that leaves `points`, the next
      unlock costing `cost`: nothing for an amount below 1; otherwise the
      advancement report, the effect unless the report already gave one, and
      the title, which announces an available unlock exactly when the points
      cover the cost. */
  function Feedback(amount: int, points: int, cost: int, noEffect: bool): (evs: seq<Event>)
    ensures amount < 1 <==> evs == []
    ensures amount >= 1 ==>
      && evs[0] == AdvancementChecked
      && evs[|evs| - 1] == TitleSent(if points >= cost then UnlockAvailable else Progress(points, cost))
      && (|evs| == 3 <==> !noEffect) && (noEffect ==> |evs| == 2)
    ensures amount >= 1 && !noEffect ==> evs[1] == (if points >= cost then UnlockEffect else PointEffect)
  {
    if amount < 1 then []
    else
      var unlockable := points >= cost;
      var effect := if noEffect then [] else if unlockable then [UnlockEffect] else [PointEffect];
      [AdvancementChecked] + effect + [TitleSent(if unlockable then UnlockAvailable else Progress(points, cost))]
  }

  /** Buy `talent`. The cost is read before anything changes; the purchase is
      refused, with nothing changed, when the points do not cover it, the
      talent is owned already, or it is not accessible. Otherwise the cost is
      paid, the talent added, the stored count updated and the session marked
      modified, saved and reported. */
  method Unlock(s: Session, talent: Talent, cost: nat -> int,
                canAccess: (set<Talent>, Talent) -> bool) returns (ok: bool)
    modifies s
    ensures ok <==> old(s.talentPoints) >= cost(|old(s.talents)|) && talent !in old(s.talents)
                    && canAccess(old(s.talents), talent)
    ensures !ok ==> unchanged(s)
    ensures ok ==>
      && s.talentPoints == old(s.talentPoints) - cost(|old(s.talents)|) && 0 <= s.talentPoints
      && s.talents == old(s.talents) + {talent} && |s.talents| == |old(s.talents)| + 1
      && s.talentCount == |s.talents| && s.rowModified && s.tagModified
      && s.talentChance == old(s.talentChance)
      && s.events == old(s.events) + [Saved, AdvancementGiven(talent)]
  {
    var c := cost(|s.talents|);
    if s.talentPoints < c {
      return false;
    }
    if talent in s.talents {
      return false;
    }
    if !canAccess(s.talents, talent) {
      return false;
    }
    s.talentPoints := s.talentPoints - c;
    s.talents := s.talents + {talent};
    s.talentCount := |s.talents|;
    s.rowModified := true;
    s.tagModified := true;
    s.events := s.events + [Saved];
    s.events := s.events + [AdvancementGiven(talent)];
    return true;
  }

  /** Roll for a talent point with the draw `roll` from [0, Total). The miss
      counter grows by `increase` first, in every case; the roll wins when it
      falls below the chance, and a win awards one point, which resets the
      counter. A lost roll keeps the grown counter and awards nothing.
      `noEffect` is what the advancement report answers on a win. */
  method RollPoint(s: Session, increase: int, roll: int, noEffect: bool, cost: nat -> int)
    returns (won: bool)
    requires 0 <= roll < Total
    modifies s
    ensures won <==> Wins(roll, Chance(old(s.talents) == {}, old(s.talentPoints), old(s.talentChance) + increase))
    ensures s.talents == old(s.talents) && s.talentCount == old(s.talentCount)
    ensures s.tagModified == old(s.tagModified) && s.rowModified
    ensures won ==>
      && s.talentPoints == old(s.talentPoints) + 1 && s.talentChance == 0
      && s.events == old(s.events) + [Saved] + Feedback(1, s.talentPoints, cost(|s.talents|), noEffect)
    ensures !won ==>
      && s.talentPoints == old(s.talentPoints) && s.talentChance == old(s.talentChance) + increase
      && s.events == old(s.events)
  {
    s.talentChance := s.talentChance + increase;
    s.rowModified := true;
    var chance: int;
    if s.talents == {} && s.talentPoints == 0 {
      chance := Total / 2;
    } else {
      chance := s.talentChance - Grace;
      chance := Max(0, chance);
      chance := Min(chance, Total / 2);
    }
    if roll >= chance {
      return false;
    }
    AddPoints(s, 1, noEffect, cost);
    return true;
  }

  /** Add `amount` points (possibly negative). Zero changes nothing. Any other
      amount updates the balance, resets the miss counter and saves; only a
      positive amount is followed by feedback. */
  method AddPoints(s: Session, amount: int, noEffect: bool, cost: nat -> int)
    modifies s
    ensures amount == 0 ==> unchanged(s)
    ensures amount != 0 ==>
      && s.talentPoints == old(s.talentPoints) + amount && s.talentChance == 0 && s.rowModified
      && s.talents == old(s.talents) && s.talentCount == old(s.talentCount)
      && s.tagModified == old(s.tagModified)
      && s.events == old(s.events) + [Saved] + Feedback(amount, s.talentPoints, cost(|s.talents|), noEffect)
  {
    if amount == 0 {
      return;
    }
    var points := s.talentPoints + amount;
    s.talentPoints := points;
    s.talentChance := 0;
    s.rowModified := true;
    s.events := s.events + [Saved];
    if amount < 1 {
      return;
    }
    s.events := s.events + [AdvancementChecked];
    var c := cost(|s.talents|);
    if points >= c {
      if !noEffect {
        s.events := s.events + [UnlockEffect];
      }
      s.events := s.events + [TitleSent(UnlockAvailable)];
    } else {
      if !noEffect {
        s.events := s.events + [PointEffect];
      }
      s.events := s.events + [TitleSent(Progress(points, c))];
    }
  }
}
