/**
 * Slayer boss kinds and the score of one slayer snapshot
 * (src/guildData/guildEvent.go). A snapshot holds, per boss, the kill and
 * attempt counters and the experience the Hypixel API reported at one fetch;
 * its score weights kills and experience per boss. Floating point is modelled
 * by exact reals.
 */
module SlayerScore {
  import opened Text
  import opened Collections

  /** `BossType`: an integer; 0 to 5 name the six slayer bosses. */
  type BossType = int

  const Zombie: BossType := 0
  const Spider: BossType := 1
  const Wolf: BossType := 2
  const Enderman: BossType := 3
  const Vampire: BossType := 4
  const Blaze: BossType := 5

  predicate IsBoss(b: BossType) {
    Zombie <= b <= Blaze
  }

  /** `BossType.String`: the lower-case boss name, or the number for any other value. */
  function BossTypeString(b: BossType): string {
    if b == Zombie then "zombie"
    else if b == Spider then "spider"
    else if b == Wolf then "wolf"
    else if b == Enderman then "enderman"
    else if b == Vampire then "vampire"
    else if b == Blaze then "blaze"
    else Itoa(b)
  }

  /**
   * `ParseBossTypeString`: the boss whose name equals the lower-cased input,
   * with `true`; otherwise the zero boss (`Zombie`) with `false`, which is
   * what a missed Go map lookup returns.
   */
  function ParseBossTypeString(s: string): (r: (BossType, bool))
    ensures r.1 ==> IsBoss(r.0)
    ensures !r.1 ==> r.0 == Zombie
  {
    var key := Lower(s);
    if key == "zombie" then (Zombie, true)
    else if key == "spider" then (Spider, true)
    else if key == "wolf" then (Wolf, true)
    else if key == "enderman" then (Enderman, true)
    else if key == "vampire" then (Vampire, true)
    else if key == "blaze" then (Blaze, true)
    else (Zombie, false)
  }

  /** A lower-case string is its own lower-casing. */
  lemma LowerOfLowercase(s: string)
    requires forall i :: 0 <= i < |s| ==> !('A' <= s[i] <= 'Z')
    ensures Lower(s) == s
  {
  }

  /** Every boss's name parses back to that boss. */
  lemma BossNameRoundTrip(b: BossType)
    requires IsBoss(b)
    ensures ParseBossTypeString(BossTypeString(b)) == (b, true)
  {
    LowerOfLowercase(BossTypeString(b));
  }

  /** A successful parse names the boss whose name is the lower-cased input. */
  lemma ParseInverse(s: string)
    requires ParseBossTypeString(s).1
    ensures BossTypeString(ParseBossTypeString(s).0) == Lower(s)
  {
  }

  /** Parsing ignores ASCII case. */
  lemma ParseIgnoresCase(s: string)
    ensures ParseBossTypeString(Lower(s)) == ParseBossTypeString(s)
  {
    LowerIdempotent(s);
  }

  /** The rendering of any other boss value is a number, which never parses. */
  lemma UnknownBossNameDoesNotParse(b: BossType)
    requires !IsBoss(b)
    ensures ParseBossTypeString(BossTypeString(b)) == (Zombie, false)
  {
    var l := Lower(Itoa(b));
    assert l[0] == LowerChar(Itoa(b)[0]);
    assert IsDigit(l[0]) || l[0] == '-';
  }

  // ------------------------------------------------------------------ data

  /** `SlayerBossData`: the counters of one boss at one fetch. */
  datatype BossData = BossData(
    id: string,
    bossKillsTier0: int, bossKillsTier1: int, bossKillsTier2: int, bossKillsTier3: int, bossKillsTier4: int,
    bossAttemptsTier0: int, bossAttemptsTier1: int, bossAttemptsTier2: int, bossAttemptsTier3: int,
    bossAttemptsTier4: int,
    xp: int)

  /** `SlayerEventData`: one snapshot of a participant's slayer progress; `fetchDate` is in Unix nanoseconds. */
  datatype SlayerEventData = SlayerEventData(id: string, fetchDate: int, bossData: map<BossType, BossData>)

  function Kills(d: BossData): int {
    d.bossKillsTier0 + d.bossKillsTier1 + d.bossKillsTier2 + d.bossKillsTier3 + d.bossKillsTier4
  }

  /** The kill divisor of a boss; any other boss value is weighted 1. */
  function Divisor(b: BossType): (r: real)
    ensures r >= 1.0
  {
    if b == Blaze then 935.0455
    else if b == Enderman then 996.3003
    else if b == Spider then 7019.57
    else if b == Vampire then 935.0455
    else if b == Wolf then 2982.06
    else if b == Zombie then 9250.0
    else 1.0
  }

  /** The experience multiplier of a boss; any other boss value is weighted 1. */
  function XpMultiplier(b: BossType): (r: real)
    ensures r >= 1.0
  {
    if b == Blaze then 10.0
    else if b == Enderman then 10.0
    else if b == Spider then 3.6
    else if b == Vampire then 10.0
    else if b == Wolf then 10.0
    else if b == Zombie then 1.6
    else 1.0
  }

  /** The kill points one boss contributes. */
  function KillTerm(b: BossType, d: BossData): real {
    Kills(d) as real / (Divisor(b) * 5.0)
  }

  /** The weighted experience one boss contributes, before scaling. */
  function XpTerm(b: BossType, d: BossData): real {
    d.xp as real * XpMultiplier(b)
  }

  predicate NonNegativeCounters(s: SlayerEventData) {
    forall b :: b in s.bossData ==> Kills(s.bossData[b]) >= 0 && s.bossData[b].xp >= 0
  }

  /**
   * `calculatePoints`: one hundred times the sum of the bosses' kill points
   * plus their weighted experience in millions.
   */
  function CalculatePoints(s: SlayerEventData): (r: real)
    ensures s.bossData == map[] ==> r == 0.0
    ensures NonNegativeCounters(s) ==> r >= 0.0
  {
    var killPoints := SumMap(s.bossData, KillTerm);
    var slayerXp := SumMap(s.bossData, XpTerm);
    if NonNegativeCounters(s) then
      SumMapNonNegative(s.bossData, KillTerm);
      SumMapNonNegative(s.bossData, XpTerm);
      (killPoints + slayerXp / 1_000_000.0) * 100.0
    else
      (killPoints + slayerXp / 1_000_000.0) * 100.0
  }

  /**
   * `calculatePoints` as the Go code runs it: one loop over the bosses in the
   * order the Go map hands them out, summing kill points and weighted
   * experience; any order gives the score `CalculatePoints` defines.
   */
  method CalculatePointsInOrder(s: SlayerEventData, order: seq<BossType>) returns (points: real)
    requires IsEnumeration(order, s.bossData.Keys)
    ensures points == CalculatePoints(s)
  {
    var totalPoints, slayerXp := SumTwoInOrder(s.bossData, order, KillTerm, XpTerm);
    totalPoints := totalPoints + slayerXp / 1_000_000.0;
    points := totalPoints * 100.0;
  }

  /** Two bosses with the same kill total and experience score the same. */
  predicate SameKillsAndXp(d1: BossData, d2: BossData) {
    Kills(d1) == Kills(d2) && d1.xp == d2.xp
  }

  /** The score reads only kill totals and experience: ids, attempts, the fetch date and the tier split are ignored. */
  lemma PointsIgnoreAttemptsAndIds(s1: SlayerEventData, s2: SlayerEventData)
    requires s1.bossData.Keys == s2.bossData.Keys
    requires forall b :: b in s1.bossData ==> SameKillsAndXp(s1.bossData[b], s2.bossData[b])
    ensures CalculatePoints(s1) == CalculatePoints(s2)
  {
    SumMapCongruent(s1.bossData, s2.bossData, KillTerm, KillTerm);
    SumMapCongruent(s1.bossData, s2.bossData, XpTerm, XpTerm);
  }

  /** A boss added to a snapshot adds exactly its own weighted terms to the score. */
  lemma AddBossAddsItsTerms(s: SlayerEventData, b: BossType, d: BossData)
    requires b !in s.bossData
    ensures CalculatePoints(s.(bossData := s.bossData[b := d]))
         == CalculatePoints(s) + 100.0 * (KillTerm(b, d) + XpTerm(b, d) / 1_000_000.0)
  {
    SumMapInsert(s.bossData, b, d, KillTerm);
    SumMapInsert(s.bossData, b, d, XpTerm);
  }

  /** A boss value outside the six bosses still counts, with divisor and multiplier 1. */
  lemma UnknownBossCountsWithUnitWeights(s: SlayerEventData, b: BossType, d: BossData)
    requires b !in s.bossData && !IsBoss(b)
    ensures CalculatePoints(s.(bossData := s.bossData[b := d]))
         == CalculatePoints(s) + 100.0 * (Kills(d) as real / 5.0 + d.xp as real / 1_000_000.0)
  {
    AddBossAddsItsTerms(s, b, d);
  }

  /**
   * The Zombie weights: 46250 kills (9250 times 5) are worth one point and
   * 625000 experience (one million over 1.6) another, so the snapshot scores 200.
   */
  lemma ZombieWeights(id: string, fetchDate: int, d: BossData)
    requires Kills(d) == 46250 && d.xp == 625000
    ensures CalculatePoints(SlayerEventData(id, fetchDate, map[Zombie := d])) == 200.0
  {
    var empty := SlayerEventData(id, fetchDate, map[]);
    AddBossAddsItsTerms(empty, Zombie, d);
    assert empty.(bossData := empty.bossData[Zombie := d]) == SlayerEventData(id, fetchDate, map[Zombie := d]);
  }
}
