/**
 * The earlier TypeScript slayer scorer (src/utils/utilsFunction.ts): a
 * participant's points are the tier-weighted growth of boss attempts since
 * the stored profile, collected in a JavaScript `Map` keyed by Discord id and
 * re-ordered by points, highest first, with a stable sort.
 *
 * JSON objects are sequences of entries in `Object.keys` order; an absent
 * counter is `None`. The profile request is a per-participant input: it
 * either rejects, or yields no member data (a `TypeError` on the non-null
 * assertion), or yields the member's `slayer_bosses`.
 */
module TsScoring {
  import opened Wrappers
  import opened Text
  import opened Collections
  import opened Sorting

  type Snowflake = string

  /** The counters of one boss in `slayer_bosses`. */
  datatype BossCounters = BossCounters(
    attemptsTier0: Option<int>, attemptsTier1: Option<int>, attemptsTier2: Option<int>,
    attemptsTier3: Option<int>, attemptsTier4: Option<int>,
    killsTier0: Option<int>, killsTier1: Option<int>, killsTier2: Option<int>,
    killsTier3: Option<int>, killsTier4: Option<int>,
    xp: Option<int>)

  /** A `slayer_bosses` object, keys in `Object.keys` order. */
  type SlayerBosses = seq<(string, BossCounters)>

  /** One row of the `slayerPoints` table. */
  datatype PointsInfo = PointsInfo(tier0: int, tier1: int, tier2: int, tier3: int, tier4: int, xp: int)

  /** The `slayerPoints` table. */
  const SlayerPoints: map<string, PointsInfo> := map[
    "zombie" := PointsInfo(1, 2, 3, 4, 5, 1),
    "spider" := PointsInfo(1, 2, 3, 4, 5, 1),
    "wolf" := PointsInfo(1, 2, 3, 4, 5, 1),
    "enderman" := PointsInfo(1, 2, 3, 4, 5, 1),
    "blaze" := PointsInfo(1, 2, 3, 4, 5, 1),
    "vampire" := PointsInfo(1, 2, 3, 4, 5, 1)
  ]

  /** `boss_attempts_tier_<t> || 0`. */
  function Attempts(b: BossCounters, t: nat): int
    requires t < 5
  {
    var a := if t == 0 then b.attemptsTier0
             else if t == 1 then b.attemptsTier1
             else if t == 2 then b.attemptsTier2
             else if t == 3 then b.attemptsTier3
             else b.attemptsTier4;
    a.GetOr(0)
  }

  /** The five statements of the inner loop for one boss. */
  function BossDelta(newBoss: BossCounters, oldBoss: BossCounters, info: PointsInfo): int {
    (Attempts(newBoss, 0) - Attempts(oldBoss, 0)) * info.tier0
    + (Attempts(newBoss, 1) - Attempts(oldBoss, 1)) * info.tier1
    + (Attempts(newBoss, 2) - Attempts(oldBoss, 2)) * info.tier2
    + (Attempts(newBoss, 3) - Attempts(oldBoss, 3)) * info.tier3
    + (Attempts(newBoss, 4) - Attempts(oldBoss, 4)) * info.tier4
  }

  /** The reference score of one boss: attempts growth at tier t weighs t + 1. */
  function TierWeighted(newBoss: BossCounters, oldBoss: BossCounters, t: nat): int
    requires t <= 5
    decreases 5 - t
  {
    if t == 5 then 0 else (t + 1) * (Attempts(newBoss, t) - Attempts(oldBoss, t)) + TierWeighted(newBoss, oldBoss, t + 1)
  }

  /** The reference score of a participant over the bosses of the new data, all of which must be known. */
  function ReferenceScore(newBosses: SlayerBosses, stored: map<string, BossCounters>): int
    requires forall i :: 0 <= i < |newBosses| ==> newBosses[i].0 in stored
  {
    if newBosses == [] then 0
    else TierWeighted(newBosses[0].1, stored[newBosses[0].0], 0) + ReferenceScore(newBosses[1..], stored)
  }

  /** Every row of the table weighs tier t by t + 1 (and experience by 1). */
  lemma TableIsUniform(boss: string)
    requires boss in SlayerPoints
    ensures SlayerPoints[boss] == PointsInfo(1, 2, 3, 4, 5, 1)
  {
  }

  /** The boss keys the loop can score: present in the stored profile and in the table. */
  predicate Scorable(newBosses: SlayerBosses, stored: map<string, BossCounters>) {
    forall i :: 0 <= i < |newBosses| ==> newBosses[i].0 in stored && newBosses[i].0 in SlayerPoints
  }

  /**
   * The loop over `Object.keys(newSlayerData)`. A key absent from the stored
   * profile or from the table makes a property read of `undefined` throw.
   */
  function ScoreBosses(newBosses: SlayerBosses, stored: map<string, BossCounters>): (r: Result<int>)
    ensures r.Ok? <==> Scorable(newBosses, stored)
    ensures r.Ok? ==> r.value == ReferenceScore(newBosses, stored)
    decreases |newBosses|
  {
    if newBosses == [] then Ok(0)
    else
      var (key, newBoss) := newBosses[0];
      assert forall i :: 0 <= i < |newBosses| - 1 ==> newBosses[1..][i] == newBosses[i + 1];
      if key !in stored then Err("TypeError: Cannot read properties of undefined")
      else if key !in SlayerPoints then Err("TypeError: Cannot read properties of undefined")
      else
        var rest :- ScoreBosses(newBosses[1..], stored);
        Ok(BossDelta(newBoss, stored[key], SlayerPoints[key]) + rest)
  }

  /** Unchanged attempt counters give no points, whatever happened to kills and experience. */
  lemma {:induction false} UnchangedAttemptsScoreZero(newBosses: SlayerBosses, stored: map<string, BossCounters>)
    requires Scorable(newBosses, stored)
    requires forall i, t :: 0 <= i < |newBosses| && 0 <= t < 5 ==>
      Attempts(newBosses[i].1, t) == Attempts(stored[newBosses[i].0], t)
    ensures ScoreBosses(newBosses, stored) == Ok(0)
  {
    if newBosses != [] {
      var rest := newBosses[1..];
      assert forall i :: 0 <= i < |rest| ==> rest[i] == newBosses[i + 1];
      UnchangedAttemptsScoreZero(rest, stored);
      assert forall t :: 0 <= t < 5 ==> Attempts(newBosses[0].1, t) == Attempts(stored[newBosses[0].0], t);
    }
  }

  /** The score reads only attempt counters: kills and experience on either side never matter. */
  lemma {:induction false} KillsAndXpIgnored(a: SlayerBosses, b: SlayerBosses, stored: map<string, BossCounters>)
    requires |a| == |b|
    requires forall i :: 0 <= i < |a| ==> a[i].0 == b[i].0
    requires forall i, t :: 0 <= i < |a| && 0 <= t < 5 ==> Attempts(a[i].1, t) == Attempts(b[i].1, t)
    ensures ScoreBosses(a, stored) == ScoreBosses(b, stored)
  {
    if a != [] {
      assert forall i :: 0 <= i < |a| - 1 ==> a[1..][i] == a[i + 1] && b[1..][i] == b[i + 1];
      KillsAndXpIgnored(a[1..], b[1..], stored);
      assert forall t :: 0 <= t < 5 ==> Attempts(a[0].1, t) == Attempts(b[0].1, t);
    }
  }

  /** The growth is not clamped: one fewer tier-0 attempt than stored scores -1. */
  lemma DecreaseScoresNegative(oldBoss: BossCounters, newBoss: BossCounters)
    requires oldBoss.attemptsTier0 == Some(1) && newBoss.attemptsTier0 == None
    requires oldBoss.attemptsTier1 == newBoss.attemptsTier1 && oldBoss.attemptsTier2 == newBoss.attemptsTier2
    requires oldBoss.attemptsTier3 == newBoss.attemptsTier3 && oldBoss.attemptsTier4 == newBoss.attemptsTier4
    ensures ScoreBosses([("zombie", newBoss)], map["zombie" := oldBoss]) == Ok(-1)
  {
    var s := [("zombie", newBoss)];
    assert s[1..] == [];
  }

  // ------------------------------------------------------------ participants

  /** A registered participant: Discord id, Minecraft UUID, and the stored `slayer_bosses`. */
  datatype TsUser = TsUser(id: Snowflake, uuid: string, stored: map<string, BossCounters>)

  /** The answer to a participant's profile request. */
  datatype Fetch = Rejected(reason: string) | NoMember | Member(slayerBosses: SlayerBosses)

  /** One participant's points, or the exception its iteration throws. */
  function UserScore(user: TsUser, fetch: Fetch): (r: Result<int>)
    ensures r.Ok? <==> fetch.Member? && Scorable(fetch.slayerBosses, user.stored)
    ensures r.Ok? ==> r.value == ReferenceScore(fetch.slayerBosses, user.stored)
  {
    match fetch
    case Rejected(reason) => Err(reason)
    case NoMember => Err("TypeError: Cannot read properties of undefined")
    case Member(bosses) => ScoreBosses(bosses, user.stored)
  }

  /** Participant `i` is the first whose iteration throws, with `error`. */
  predicate FirstFailure(users: seq<TsUser>, fetches: seq<Fetch>, i: int, error: string)
    requires |fetches| == |users|
  {
    && 0 <= i < |users|
    && UserScore(users[i], fetches[i]) == Err(error)
    && forall j :: 0 <= j < i ==> UserScore(users[j], fetches[j]).Ok?
  }

  /** The points of every participant in order, or the first exception. */
  function Scores(users: seq<TsUser>, fetches: seq<Fetch>): (r: Result<seq<int>>)
    requires |fetches| == |users|
    ensures r.Ok? <==> forall i :: 0 <= i < |users| ==> UserScore(users[i], fetches[i]).Ok?
    ensures r.Ok? ==> |r.value| == |users|
    ensures r.Ok? ==> forall i :: 0 <= i < |users| ==> r.value[i] == UserScore(users[i], fetches[i]).value
    ensures r.Err? ==> exists i :: FirstFailure(users, fetches, i, r.error)
    decreases |users|
  {
    if users == [] then Ok([])
    else
      var first := UserScore(users[0], fetches[0]);
      if first.Err? then
        assert FirstFailure(users, fetches, 0, first.error);
        Err(first.error)
      else
        assert forall i :: 0 <= i < |users| - 1 ==> users[1..][i] == users[i + 1] && fetches[1..][i] == fetches[i + 1];
        var rest := Scores(users[1..], fetches[1..]);
        if rest.Err? then
          FailureShift(users, fetches, rest.error);
          Err(rest.error)
        else
          Ok([first.value] + rest.value)
  }

  /** A failure first in the tail, after a head that scores, is first in the whole. */
  lemma FailureShift(users: seq<TsUser>, fetches: seq<Fetch>, error: string)
    requires |fetches| == |users| > 0
    requires UserScore(users[0], fetches[0]).Ok?
    requires exists i :: FirstFailure(users[1..], fetches[1..], i, error)
    ensures exists i :: FirstFailure(users, fetches, i, error)
  {
    var i :| FirstFailure(users[1..], fetches[1..], i, error);
    assert users[1..][i] == users[i + 1] && fetches[1..][i] == fetches[i + 1];
    forall j | 0 <= j < i + 1
      ensures UserScore(users[j], fetches[j]).Ok?
    {
      if j > 0 {
        assert users[1..][j - 1] == users[j] && fetches[1..][j - 1] == fetches[j];
      }
    }
    assert FirstFailure(users, fetches, i + 1, error);
  }

  // ------------------------------------------------------- the results map

  /** A JavaScript `Map` from id to points, entries in insertion order. */
  type ScoreMap = seq<(Snowflake, int)>

  predicate HasKey(m: ScoreMap, k: Snowflake) {
    exists i :: 0 <= i < |m| && m[i].0 == k
  }

  predicate DistinctKeys(m: ScoreMap) {
    forall i, j :: 0 <= i < j < |m| ==> m[i].0 != m[j].0
  }

  /** `Map.prototype.set`: a present key keeps its position and takes the new value; a new key goes last. */
  function MapSet(m: ScoreMap, k: Snowflake, v: int): (r: ScoreMap)
    ensures HasKey(m, k) ==> |r| == |m|
    ensures !HasKey(m, k) ==> r == m + [(k, v)]
    ensures forall i :: 0 <= i < |m| ==> r[i] == (if m[i].0 == k then (k, v) else m[i])
  {
    if HasKey(m, k) then Replace(m, k, v) else m + [(k, v)]
  }

  /** Every entry keyed `k` takes the value `v`; the others are kept. */
  function Replace(m: ScoreMap, k: Snowflake, v: int): (r: ScoreMap)
    ensures |r| == |m|
    ensures forall i :: 0 <= i < |m| ==> r[i] == (if m[i].0 == k then (k, v) else m[i])
  {
    if m == [] then [] else [if m[0].0 == k then (k, v) else m[0]] + Replace(m[1..], k, v)
  }

  /** The index of the first `k` in `ids`. */
  function FirstIndex(ids: seq<Snowflake>, k: Snowflake): (i: nat)
    requires k in ids
    ensures i < |ids| && ids[i] == k && k !in ids[..i]
  {
    if ids[0] == k then 0 else 1 + FirstIndex(ids[1..], k)
  }

  /** The index of the last `k` in `ids`. */
  function LastIndex(ids: seq<Snowflake>, k: Snowflake): (i: nat)
    requires k in ids
    ensures i < |ids| && ids[i] == k && k !in ids[i + 1..]
  {
    if ids[|ids| - 1] == k then |ids| - 1
    else
      assert k in ids[..|ids| - 1] by {
        assert ids == ids[..|ids| - 1] + [ids[|ids| - 1]];
      }
      var i := LastIndex(ids[..|ids| - 1], k);
      assert ids[i + 1..] == ids[..|ids| - 1][i + 1..] + [ids[|ids| - 1]];
      i
  }

  /** The `usersMap.set(user.id, data)` calls, in order. */
  function BuildMap(ids: seq<Snowflake>, scores: seq<int>): ScoreMap
    requires |scores| == |ids|
    decreases |ids|
  {
    if ids == [] then [] else MapSet(BuildMap(ids[..|ids| - 1], scores[..|ids| - 1]), ids[|ids| - 1], scores[|ids| - 1])
  }

  /** The map has one entry per distinct id. */
  lemma {:induction false} BuildMapKeys(ids: seq<Snowflake>, scores: seq<int>)
    requires |scores| == |ids|
    ensures DistinctKeys(BuildMap(ids, scores))
    ensures forall k :: HasKey(BuildMap(ids, scores), k) <==> k in ids
    decreases |ids|
  {
    if ids != [] {
      var n := |ids| - 1;
      var prev := BuildMap(ids[..n], scores[..n]);
      BuildMapKeys(ids[..n], scores[..n]);
      assert ids == ids[..n] + [ids[n]];
      var m := MapSet(prev, ids[n], scores[n]);
      assert forall i :: 0 <= i < |m| ==> m[i].0 == (if i < |prev| then prev[i].0 else ids[n]);
      forall k
        ensures HasKey(m, k) <==> k in ids
      {
        if HasKey(prev, k) {
          var i :| 0 <= i < |prev| && prev[i].0 == k;
          assert m[i].0 == k;
        }
        if k == ids[n] && !HasKey(prev, k) {
          assert m[|prev|].0 == k;
        }
      }
    }
  }

  /** Each entry holds the points of the last occurrence of its id. */
  lemma {:induction false} BuildMapValues(ids: seq<Snowflake>, scores: seq<int>)
    requires |scores| == |ids|
    ensures forall i :: 0 <= i < |BuildMap(ids, scores)| ==>
      var e := BuildMap(ids, scores)[i]; e.0 in ids && e.1 == scores[LastIndex(ids, e.0)]
    decreases |ids|
  {
    if ids != [] {
      var n := |ids| - 1;
      var prev := BuildMap(ids[..n], scores[..n]);
      BuildMapValues(ids[..n], scores[..n]);
      assert ids == ids[..n] + [ids[n]];
      var m := MapSet(prev, ids[n], scores[n]);
      forall i | 0 <= i < |m|
        ensures m[i].0 in ids && m[i].1 == scores[LastIndex(ids, m[i].0)]
      {
        if m[i].0 != ids[n] {
          assert i < |prev| && m[i] == prev[i];
          assert scores[..n][LastIndex(ids[..n], m[i].0)] == scores[LastIndex(ids[..n], m[i].0)];
        }
      }
    }
  }

  /** The entries of `m` are keyed by ids of `ids`, in the order those first appear. */
  predicate InFirstOrder(m: ScoreMap, ids: seq<Snowflake>) {
    && (forall i :: 0 <= i < |m| ==> m[i].0 in ids)
    && forall i, j :: 0 <= i < j < |m| ==>
         m[i].0 in ids && m[j].0 in ids && FirstIndex(ids, m[i].0) < FirstIndex(ids, m[j].0)
  }

  /** The entries are in the order their ids first appear. */
  lemma {:induction false} BuildMapOrder(ids: seq<Snowflake>, scores: seq<int>)
    requires |scores| == |ids|
    ensures InFirstOrder(BuildMap(ids, scores), ids)
    decreases |ids|
  {
    if ids != [] {
      var n := |ids| - 1;
      BuildMapOrder(ids[..n], scores[..n]);
      BuildMapKeys(ids[..n], scores[..n]);
      MapSetKeepsOrder(BuildMap(ids[..n], scores[..n]), ids[..n], ids[n], scores[n]);
      assert ids == ids[..n] + [ids[n]];
    }
  }

  lemma MapSetKeepsOrder(prev: ScoreMap, prefix: seq<Snowflake>, x: Snowflake, v: int)
    requires InFirstOrder(prev, prefix)
    requires forall k :: HasKey(prev, k) <==> k in prefix
    ensures InFirstOrder(MapSet(prev, x, v), prefix + [x])
  {
    var m := MapSet(prev, x, v);
    MapSetKeysIn(prev, prefix, x, v);
    forall i, j | 0 <= i < j < |m|
      ensures FirstIndex(prefix + [x], m[i].0) < FirstIndex(prefix + [x], m[j].0)
    {
      MapSetPairInOrder(prev, prefix, x, v, i, j);
    }
  }

  lemma MapSetKeysIn(prev: ScoreMap, prefix: seq<Snowflake>, x: Snowflake, v: int)
    requires forall i :: 0 <= i < |prev| ==> prev[i].0 in prefix
    ensures forall i :: 0 <= i < |MapSet(prev, x, v)| ==> MapSet(prev, x, v)[i].0 in prefix + [x]
  {
    var m := MapSet(prev, x, v);
    forall i | 0 <= i < |m|
      ensures m[i].0 in prefix + [x]
    {
      if i < |prev| {
        assert m[i].0 == prev[i].0 || m[i].0 == x;
      } else {
        assert m == prev + [(x, v)];
      }
    }
  }

  lemma MapSetPairInOrder(prev: ScoreMap, prefix: seq<Snowflake>, x: Snowflake, v: int, i: nat, j: nat)
    requires InFirstOrder(prev, prefix)
    requires forall k :: HasKey(prev, k) <==> k in prefix
    requires i < j < |MapSet(prev, x, v)|
    ensures MapSet(prev, x, v)[i].0 in prefix + [x] && MapSet(prev, x, v)[j].0 in prefix + [x]
    ensures FirstIndex(prefix + [x], MapSet(prev, x, v)[i].0) < FirstIndex(prefix + [x], MapSet(prev, x, v)[j].0)
  {
    var m := MapSet(prev, x, v);
    FirstIndexExtend(prefix, x);
    assert i < |prev| && m[i].0 == prev[i].0;
    assert prev[i].0 in prefix;
    if j < |prev| {
      assert m[j].0 == prev[j].0 && prev[j].0 in prefix;
    } else {
      assert !HasKey(prev, x) && m[j].0 == x;
      assert FirstIndex(prefix, prev[i].0) < |prefix|;
    }
  }

  lemma {:induction false} FirstIndexExtend(prefix: seq<Snowflake>, x: Snowflake)
    ensures forall k :: k in prefix ==> FirstIndex(prefix + [x], k) == FirstIndex(prefix, k)
    ensures x !in prefix ==> FirstIndex(prefix + [x], x) == |prefix|
  {
    if prefix != [] {
      assert (prefix + [x])[1..] == prefix[1..] + [x];
      FirstIndexExtend(prefix[1..], x);
    }
  }

  function Ids(users: seq<TsUser>): (ids: seq<Snowflake>)
    ensures |ids| == |users| && forall i :: 0 <= i < |users| ==> ids[i] == users[i].id
  {
    seq(|users|, i requires 0 <= i < |users| => users[i].id)
  }

  function Points(e: (Snowflake, int)): real {
    e.1 as real
  }

  /**
   * `calcSlayerEvent`: every participant's points, one entry per distinct
   * id holding the points of its last occurrence, ordered by points with
   * the highest first; entries with equal points keep their insertion order.
   * Any exception rejects the whole call.
   */
  function CalcSlayerEvent(users: seq<TsUser>, fetches: seq<Fetch>): (r: Result<ScoreMap>)
    requires |fetches| == |users|
    ensures r.Ok? <==> forall i :: 0 <= i < |users| ==> UserScore(users[i], fetches[i]).Ok?
    ensures r.Ok? ==>
      && DistinctKeys(r.value)
      && (forall k :: HasKey(r.value, k) <==> exists i :: 0 <= i < |users| && users[i].id == k)
      && (forall i :: 0 <= i < |r.value| ==>
            (r.value[i].0 in Ids(users)
             && r.value[i].1 == UserScore(users[LastIndex(Ids(users), r.value[i].0)],
                                          fetches[LastIndex(Ids(users), r.value[i].0)]).value))
      && NonIncreasing(r.value, Points)
  {
    var scores :- Scores(users, fetches);
    var ids := Ids(users);
    var m := BuildMap(ids, scores);
    BuildMapKeys(ids, scores);
    BuildMapValues(ids, scores);
    var sorted := SortDesc(m, Points);
    SortedKeepsEntries(m, sorted);
    Ok(sorted)
  }

  /** Sorting a map's entries keeps its entries, so its keys stay distinct. */
  lemma SortedKeepsEntries(m: ScoreMap, sorted: ScoreMap)
    requires DistinctKeys(m) && multiset(sorted) == multiset(m)
    ensures forall i :: 0 <= i < |sorted| ==> sorted[i] in m
    ensures forall k :: HasKey(sorted, k) <==> HasKey(m, k)
    ensures DistinctKeys(sorted)
  {
    assert forall i :: 0 <= i < |sorted| ==> sorted[i] in multiset(m);
    forall k | HasKey(m, k)
      ensures HasKey(sorted, k)
    {
      var i :| 0 <= i < |m| && m[i].0 == k;
      assert m[i] in multiset(sorted);
    }
    forall i, j | 0 <= i < j < |sorted|
      ensures sorted[i].0 != sorted[j].0
    {
      var a :| 0 <= a < |m| && m[a] == sorted[i];
      var b :| 0 <= b < |m| && m[b] == sorted[j];
      DistinctKeysCountOnce(m, a);
      TwoOccurrences(sorted, i, j);
      assert sorted[i] != sorted[j];
      assert a != b;
    }
  }

  lemma TwoOccurrences<T>(s: seq<T>, i: nat, j: nat)
    requires i < j < |s|
    ensures s[i] == s[j] ==> multiset(s)[s[i]] >= 2
  {
    assert s == s[..i] + [s[i]] + s[i + 1..j] + [s[j]] + s[j + 1..];
  }

  lemma {:induction false} DistinctKeysCountOnce(m: ScoreMap, a: nat)
    requires DistinctKeys(m) && a < |m|
    ensures multiset(m)[m[a]] == 1
  {
    var e := m[a];
    var prefix, suffix := m[..a], m[a + 1..];
    assert m == prefix + [e] + suffix;
    KeyAbsent(prefix, e) by {
      assert forall k :: 0 <= k < |prefix| ==> prefix[k] == m[k];
    }
    KeyAbsent(suffix, e) by {
      assert forall k :: 0 <= k < |suffix| ==> suffix[k] == m[a + 1 + k];
    }
    assert multiset(m) == multiset(prefix) + multiset{e} + multiset(suffix);
  }

  /** An entry whose key no entry of `s` has does not occur in `s`. */
  lemma KeyAbsent(s: ScoreMap, e: (Snowflake, int))
    requires forall k :: 0 <= k < |s| ==> s[k].0 != e.0
    ensures multiset(s)[e] == 0
  {
  }

  /** Entries with equal points leave the sort in insertion order. */
  lemma TiesKeepInsertionOrder(users: seq<TsUser>, fetches: seq<Fetch>, c: real)
    requires |fetches| == |users|
    requires forall i :: 0 <= i < |users| ==> UserScore(users[i], fetches[i]).Ok?
    ensures CalcSlayerEvent(users, fetches).Ok? && Scores(users, fetches).Ok?
    ensures var scores := Scores(users, fetches).value;
      WithKey(CalcSlayerEvent(users, fetches).value, Points, c) == WithKey(BuildMap(Ids(users), scores), Points, c)
  {
    FilterStable(BuildMap(Ids(users), Scores(users, fetches).value), Points, c);
  }

  // ----------------------------------------------------------- leaderboard

  /** One leaderboard line without its newline: `<n>: <@<id>>: <points> points`. */
  function Line(n: int, e: (Snowflake, int)): string {
    Itoa(n) + ": <@" + e.0 + ">: " + Itoa(e.1) + " points"
  }

  /** The leaderboard text of `prettieEndOfSlayerEventEmbed`, numbering entries from `n`. */
  function LeaderboardFrom(entries: ScoreMap, n: int): string
    decreases |entries|
  {
    if entries == [] then "" else Line(n, entries[0]) + "\n" + LeaderboardFrom(entries[1..], n + 1)
  }

  function Leaderboard(entries: ScoreMap): string {
    LeaderboardFrom(entries, 1)
  }

  /** No id contains a line break. */
  predicate SingleLineIds(entries: ScoreMap) {
    forall i :: 0 <= i < |entries| ==> '\n' !in entries[i].0
  }

  lemma LineHasNoBreak(n: int, e: (Snowflake, int))
    requires '\n' !in e.0
    ensures '\n' !in Line(n, e)
  {
    var a := Itoa(n);
    var b := Itoa(e.1);
    assert forall i :: 0 <= i < |a| ==> a[i] != '\n';
    assert forall i :: 0 <= i < |b| ==> b[i] != '\n';
  }

  /** `lines` are the leaderboard lines of `entries` numbered from `n`, then the empty remainder. */
  predicate LinesOf(lines: seq<string>, entries: ScoreMap, n: int) {
    && |lines| == |entries| + 1
    && (forall i :: 0 <= i < |entries| ==> lines[i] == Line(n + i, entries[i]))
    && lines[|entries|] == ""
  }

  /**
   * Splitting the leaderboard at line breaks gives one line per entry, the
   * i-th numbered n + i, followed by the empty text after the last break.
   */
  lemma {:induction false} LeaderboardLines(entries: ScoreMap, n: int)
    requires SingleLineIds(entries)
    ensures LinesOf(Split(LeaderboardFrom(entries, n), '\n'), entries, n)
    decreases |entries|
  {
    if entries == [] {
      assert Split("", '\n') == [""];
    } else {
      var rest := entries[1..];
      var head := Line(n, entries[0]);
      var tail := LeaderboardFrom(rest, n + 1);
      assert SingleLineIds(rest) by {
        assert forall i :: 0 <= i < |rest| ==> rest[i] == entries[i + 1];
      }
      LeaderboardLines(rest, n + 1);
      LineHasNoBreak(n, entries[0]);
      assert LeaderboardFrom(entries, n) == head + ['\n'] + tail;
      SplitAfterPrefix(head, '\n', tail);
      LinesCons(Split(tail, '\n'), entries[0], rest, n);
      assert [entries[0]] + rest == entries;
    }
  }

  lemma LinesCons(tailLines: seq<string>, e: (Snowflake, int), rest: ScoreMap, n: int)
    requires LinesOf(tailLines, rest, n + 1)
    ensures LinesOf([Line(n, e)] + tailLines, [e] + rest, n)
  {
    var lines := [Line(n, e)] + tailLines;
    var entries := [e] + rest;
    forall i | 0 <= i < |entries|
      ensures lines[i] == Line(n + i, entries[i])
    {
      if i > 0 {
        assert lines[i] == tailLines[i - 1];
        assert entries[i] == rest[i - 1];
      }
    }
  }
}
