/** The stats provider (a deterministic mock of the remote feed), the patch tier table and the
    heuristic win-probability analysis of the draft. */
module GridService {
  import opened Types
  import opened Ranking

  datatype GridStats = GridStats(championId: string, winRate: int, pickRate: int, gamesPlayed: int)

  /** The mock provider's seed: the code of the id's first character plus the id's length. */
  function Seed(id: string): nat
    requires |id| > 0
  {
    id[0] as int + |id|
  }

  /** Mock stats of one champion: win rate 48 + seed mod 7, pick rate 5 + seed mod 20 and
      100 + 10 * seed games. */
  function MockStats(id: string): (g: GridStats)
    requires |id| > 0
    ensures g.championId == id
    ensures 48 <= g.winRate <= 54
    ensures 5 <= g.pickRate <= 24
    ensures g.gamesPlayed > 100 && g.gamesPlayed % 10 == 0
  {
    var seed := Seed(id);
    GridStats(id, 48 + seed % 7, 5 + seed % 20, 100 + seed * 10)
  }

  /** Every win rate from 48 to 54 occurs for some one-character id; 55 never does. */
  lemma MockWinRateRange(w: int)
    requires 48 <= w <= 54
    ensures MockStats([(w - 48 + 6) as char]).winRate == w
  {
    var id := [(w - 48 + 6) as char];
    assert Seed(id) == w - 48 + 7;
  }

  /** Builds the stats record for `ids`, one entry per id. */
  method MockGridResponse(ids: seq<string>) returns (stats: map<string, GridStats>)
    requires forall id :: id in ids ==> |id| > 0
    ensures stats.Keys == set id | id in ids
    ensures forall id :: id in ids ==> stats[id] == MockStats(id)
  {
    stats := map[];
    var i := 0;
    while i < |ids|
      invariant 0 <= i <= |ids|
      invariant stats.Keys == set id | id in ids[..i]
      invariant forall id :: id in stats ==> |id| > 0 && stats[id] == MockStats(id)
    {
      stats := stats[ids[i] := MockStats(ids[i])];
      assert ids[..i + 1] == ids[..i] + [ids[i]];
      i := i + 1;
    }
    assert ids[..|ids|] == ids;
  }

  function WinRate(c: Champion): int
    requires |c.id| > 0
  {
    MockStats(c.id).winRate
  }

  // ---------------------------------------------------------------------------------------
  // Patch data

  /** Patch-table win rate: 46 + (code of the id's first character) mod 10. */
  function PatchWinRate(c: Champion): (wr: int)
    requires |c.id| > 0
    ensures 46 <= wr <= 55
  {
    46 + (c.id[0] as int) % 10
  }

  /** Tier of a win rate: S above 53, A above 51, D below 48, B otherwise; C is never given. */
  function TierFor(wr: int): (t: Tier)
    ensures (t == S) <==> wr > 53
    ensures (t == A) <==> 51 < wr <= 53
    ensures (t == B) <==> 48 <= wr <= 51
    ensures (t == D) <==> wr < 48
    ensures t != C
  {
    if wr > 53 then S
    else if wr > 51 then A
    else if wr < 48 then D
    else B
  }

  predicate PatchReady(catalog: seq<Champion>)
  {
    forall c :: c in catalog ==> |c.id| > 0 && |c.roles| > 0
  }

  /** The patch row of one champion, listed under its first role. */
  function PatchRow(c: Champion): (p: PatchStats)
    requires |c.id| > 0 && |c.roles| > 0
    ensures p.championName == c.name && p.role == c.roles[0]
    ensures p.winRate == PatchWinRate(c) && p.tier == TierFor(p.winRate)
    ensures 2 <= p.pickRate <= 16 && 1 <= p.banRate <= 30
  {
    var seed := c.id[0] as int;
    var wr := 46 + seed % 10;
    PatchStats(c.name, c.roles[0], wr, 2 + seed % 15, 1 + seed % 30, TierFor(wr))
  }

  /** The rows in catalog order, before sorting. */
  function PatchRows(catalog: seq<Champion>): (rows: seq<PatchStats>)
    requires PatchReady(catalog)
    ensures |rows| == |catalog| && forall k :: 0 <= k < |catalog| ==> rows[k] == PatchRow(catalog[k])
  {
    seq(|catalog|, k requires 0 <= k < |catalog| => PatchRow(catalog[k]))
  }

  function ByWinRate(rows: seq<PatchStats>): (r: seq<Keyed<PatchStats>>)
    ensures |r| == |rows| && forall k :: 0 <= k < |rows| ==> r[k] == Keyed(rows[k], rows[k].winRate)
  {
    seq(|rows|, k requires 0 <= k < |rows| => Keyed(rows[k], rows[k].winRate))
  }

  /** Sorting keeps every row keyed by its own win rate and tiered by it. */
  lemma SortedPatchRows(catalog: seq<Champion>)
    requires PatchReady(catalog)
    ensures var s := SortDesc(ByWinRate(PatchRows(catalog)));
      forall k :: 0 <= k < |s| ==> s[k].key == s[k].item.winRate && s[k].item.tier == TierFor(s[k].item.winRate)
  {
    var keyed := ByWinRate(PatchRows(catalog));
    var s := SortDesc(keyed);
    SortDescSorted(keyed);
    forall k | 0 <= k < |s|
      ensures s[k].key == s[k].item.winRate && s[k].item.tier == TierFor(s[k].item.winRate)
    {
      assert s[k] in multiset(keyed);
      var m :| 0 <= m < |keyed| && keyed[m] == s[k];
    }
  }

  /** The patch table: one row per catalog champion, highest win rate first, ties in catalog
      order, and no row in tier C. The patch version does not affect the mock. */
  method GetPatchData(catalog: seq<Champion>, patchVersion: string) returns (rows: seq<PatchStats>)
    requires PatchReady(catalog)
    ensures rows == Items(SortDesc(ByWinRate(PatchRows(catalog))))
    ensures multiset(rows) == multiset(PatchRows(catalog))
    ensures forall i, j :: 0 <= i < j < |rows| ==> rows[i].winRate >= rows[j].winRate
    ensures forall k :: 0 <= k < |rows| ==> rows[k].tier != C && rows[k].tier == TierFor(rows[k].winRate)
  {
    var keyed := ByWinRate(PatchRows(catalog));
    var sorted := SortedCopy(keyed);
    rows := Items(sorted);
    SortDescItems(keyed);
    assert Items(keyed) == PatchRows(catalog);
    SortedPatchRows(catalog);
  }

  // ---------------------------------------------------------------------------------------
  // Heuristic analysis

  datatype HeuristicResult = HeuristicResult(blueWinProbability: int, strategicInsight: string,
                                             opponentThreats: seq<string>)

  const BlueEdgeInsight: string := "Blue team has secured multiple hard counters, giving them a significant edge."
  const RedEdgeInsight: string := "Red team has effectively countered Blue's composition."
  const SkillInsight: string := "Matchups are skill-dependent with no hard counters yet."
  const EvenInsight: string := "Draft is even."
  const CounterPickTag: string := "(Counter Pick!)"

  /** Sum over `picks` of (win rate - 50); every pick adds between -2 and +4. */
  function BaseScore(picks: seq<Champion>): (s: int)
    requires IdsNonEmpty(picks)
    ensures -2 * |picks| <= s <= 4 * |picks|
  {
    if picks == [] then 0
    else BaseScore(picks[..|picks| - 1]) + (WinRate(picks[|picks| - 1]) - 50)
  }

  /** How many of `enemies` champion `c` counters. */
  function CountersIn(c: Champion, enemies: seq<Champion>): (n: nat)
    ensures n <= |enemies|
    ensures n == 0 <==> forall e :: e in enemies ==> !Counters(c, e)
  {
    if enemies == [] then 0
    else
      var init := enemies[..|enemies| - 1];
      assert enemies == init + [enemies[|enemies| - 1]];
      CountersIn(c, init) + (if Counters(c, enemies[|enemies| - 1]) then 1 else 0)
  }

  /** The number of ordered pairs (x, y) with x in `xs`, y in `ys` and x countering y. */
  function CounterPairs(xs: seq<Champion>, ys: seq<Champion>): (n: nat)
    ensures n <= |xs| * |ys|
  {
    if xs == [] then 0
    else
      var init := xs[..|xs| - 1];
      assert |init| * |ys| + |ys| == |xs| * |ys|;
      CounterPairs(init, ys) + CountersIn(xs[|xs| - 1], ys)
  }

  /** +4 per blue pick countering a red pick, -4 per red pick countering a blue pick. */
  function CounterDelta(blue: seq<Champion>, red: seq<Champion>): (d: int)
    ensures d % 4 == 0
    ensures -4 * (|blue| * |red|) <= d <= 4 * (|blue| * |red|)
  {
    assert |red| * |blue| == |blue| * |red|;
    4 * CounterPairs(blue, red) - 4 * CounterPairs(red, blue)
  }

  function Clamp(x: int, lo: int, hi: int): (r: int)
    requires lo <= hi
    ensures lo <= r <= hi
    ensures x < lo ==> r == lo
    ensures x > hi ==> r == hi
    ensures lo <= x <= hi ==> r == x
  {
    if x < lo then lo else if x > hi then hi else x
  }

  /** The unclamped estimate 50 + (blue score - red score) + counter delta. */
  function RawScore(blue: seq<Champion>, red: seq<Champion>): (r: int)
    requires IdsNonEmpty(blue) && IdsNonEmpty(red)
    ensures blue == [] && red == [] ==> r == 50
    ensures 50 - 2 * |blue| - 4 * |red| - 4 * (|blue| * |red|) <= r
    ensures r <= 50 + 4 * |blue| + 2 * |red| + 4 * (|blue| * |red|)
  {
    50 + (BaseScore(blue) - BaseScore(red)) + CounterDelta(blue, red)
  }

  /** Blue's win probability: the raw estimate held within [10, 90]. */
  function WinProbability(blue: seq<Champion>, red: seq<Champion>): (p: int)
    requires IdsNonEmpty(blue) && IdsNonEmpty(red)
    ensures 10 <= p <= 90
  {
    Clamp(RawScore(blue, red), 10, 90)
  }

  /** The insight is chosen by the first rule that applies: a blue counter edge above 5, a red
      edge below -5, at least one blue pick, or else an even draft. */
  function Insight(counterDelta: int, bluePickCount: nat): (s: string)
    ensures s == BlueEdgeInsight <==> counterDelta > 5
    ensures s == RedEdgeInsight <==> counterDelta < -5
    ensures s == SkillInsight <==> -5 <= counterDelta <= 5 && bluePickCount > 0
    ensures s == EvenInsight <==> -5 <= counterDelta <= 5 && bluePickCount == 0
  {
    if counterDelta > 5 then BlueEdgeInsight
    else if counterDelta < -5 then RedEdgeInsight
    else if bluePickCount > 0 then SkillInsight
    else EvenInsight
  }

  predicate CountersAny(r: Champion, blues: seq<Champion>)
  {
    exists b :: b in blues && Counters(r, b)
  }

  /** +10 for countering some blue pick, +5 for a win rate above 52. */
  function ThreatScore(r: Champion, blues: seq<Champion>): (s: int)
    requires |r.id| > 0
    ensures 0 <= s <= 15 && s % 5 == 0
    ensures s > 5 <==> CountersAny(r, blues)
  {
    (if CountersAny(r, blues) then 10 else 0) + (if WinRate(r) > 52 then 5 else 0)
  }

  /** The red pick's name and a space, then the counter-pick tag when it counters a blue
      pick. */
  function ThreatLabel(r: Champion, blues: seq<Champion>): (t: string)
    ensures |t| > |r.name| && t[..|r.name|] == r.name && t[|r.name|] == ' '
    ensures t[|r.name| + 1..] == CounterPickTag <==> CountersAny(r, blues)
    ensures !CountersAny(r, blues) ==> |t| == |r.name| + 1
  {
    r.name + " " + (if CountersAny(r, blues) then CounterPickTag else "")
  }

  /** The labels of the red picks whose threat score exceeds 5, in red slot order. */
  function Threats(reds: seq<Champion>, blues: seq<Champion>): (t: seq<string>)
    requires IdsNonEmpty(reds)
    ensures |t| <= |reds|
    ensures |t| == 0 <==> forall r :: r in reds ==> !CountersAny(r, blues)
  {
    if reds == [] then []
    else
      var r := reds[|reds| - 1];
      Threats(reds[..|reds| - 1], blues) + (if ThreatScore(r, blues) > 5 then [ThreatLabel(r, blues)] else [])
  }

  /** Reference definition: the red picks that counter some blue pick, tagged as counter picks. */
  function CounterPickLabels(reds: seq<Champion>, blues: seq<Champion>): seq<string>
  {
    if reds == [] then []
    else
      var r := reds[0];
      (if CountersAny(r, blues) then [r.name + " " + CounterPickTag] else []) + CounterPickLabels(reds[1..], blues)
  }

  lemma {:induction false} CounterPickLabelsAppend(a: seq<Champion>, b: seq<Champion>, blues: seq<Champion>)
    ensures CounterPickLabels(a + b, blues) == CounterPickLabels(a, blues) + CounterPickLabels(b, blues)
  {
    if a == [] {
      assert a + b == b;
    } else {
      var head := if CountersAny(a[0], blues) then [a[0].name + " " + CounterPickTag] else [];
      CounterPickLabelsAppend(a[1..], b, blues);
      assert (a + b)[0] == a[0] && (a + b)[1..] == a[1..] + b;
      assert CounterPickLabels(a + b, blues) == head + CounterPickLabels(a[1..] + b, blues);
      assert CounterPickLabels(a, blues) == head + CounterPickLabels(a[1..], blues);
    }
  }

  /** A red pick is a threat exactly when it counters a blue pick: a high win rate alone scores
      5, which never passes the threshold. */
  lemma {:induction false} ThreatsAreCounterPicks(reds: seq<Champion>, blues: seq<Champion>)
    requires IdsNonEmpty(reds)
    ensures Threats(reds, blues) == CounterPickLabels(reds, blues)
  {
    if reds != [] {
      var init, r := reds[..|reds| - 1], reds[|reds| - 1];
      ThreatsAreCounterPicks(init, blues);
      assert reds == init + [r];
      CounterPickLabelsAppend(init, [r], blues);
      assert CounterPickLabels([r], blues) == (if CountersAny(r, blues) then [r.name + " " + CounterPickTag] else []);
    }
  }

  /** The specification of the analysis: only filled pick slots count. */
  function Analysis(slots: seq<DraftSlot>): (r: HeuristicResult)
    requires SlotIdsNonEmpty(slots)
    ensures 10 <= r.blueWinProbability <= 90
    ensures |r.opponentThreats| <= 3
  {
    var blue := FilledOf(slots, Blue, Pick);
    var red := FilledOf(slots, Red, Pick);
    FilledOfIdsNonEmpty(slots, Blue, Pick);
    FilledOfIdsNonEmpty(slots, Red, Pick);
    HeuristicResult(WinProbability(blue, red), Insight(CounterDelta(blue, red), |blue|),
                    Take(Threats(red, blue), 3))
  }

  /** The stats record holds the mock stats of every champion in `picks`. */
  predicate StatsCover(stats: map<string, GridStats>, picks: seq<Champion>)
  {
    forall c :: c in picks ==> |c.id| > 0 && c.id in stats && stats[c.id] == MockStats(c.id)
  }

  method MockStatsOf(picks: seq<Champion>) returns (stats: map<string, GridStats>)
    requires IdsNonEmpty(picks)
    ensures StatsCover(stats, picks)
  {
    stats := MockGridResponse(IdsOf(picks));
    forall c | c in picks
      ensures c.id in stats
    {
      var k :| 0 <= k < |picks| && picks[k] == c;
      assert IdsOf(picks)[k] == c.id;
    }
  }

  /** Adds (win rate - 50) of each pick to a running score. */
  method SumWinRateOffsets(picks: seq<Champion>, stats: map<string, GridStats>) returns (score: int)
    requires IdsNonEmpty(picks) && StatsCover(stats, picks)
    ensures score == BaseScore(picks)
  {
    score := 0;
    var i := 0;
    while i < |picks|
      invariant 0 <= i <= |picks|
      invariant score == BaseScore(picks[..i])
    {
      score := score + (stats[picks[i].id].winRate - 50);
      assert picks[..i + 1][..i] == picks[..i];
      i := i + 1;
    }
    assert picks[..i] == picks;
  }

  /** Adds `weight` to `delta` for every pair (x, y) where x counters y. */
  method AddCounterWeights(xs: seq<Champion>, ys: seq<Champion>, delta: int, weight: int) returns (d: int)
    ensures d == delta + weight * CounterPairs(xs, ys)
  {
    d := delta;
    ghost var pairs := 0;
    var i := 0;
    while i < |xs|
      invariant 0 <= i <= |xs|
      invariant pairs == CounterPairs(xs[..i], ys)
      invariant d == delta + weight * pairs
    {
      ghost var hits := CountersIn(xs[i], ys);
      d := AddCountersOf(xs[i], ys, d, weight);
      assert xs[..i + 1][..i] == xs[..i];
      assert CounterPairs(xs[..i + 1], ys) == pairs + hits;
      Distribute(weight, pairs, hits);
      pairs := pairs + hits;
      i := i + 1;
    }
    assert xs[..i] == xs;
  }

  lemma Distribute(w: int, a: int, b: int)
    ensures w * (a + b) == w * a + w * b
  {
  }

  /** The inner loop: adds `weight` to `delta` for every champion of `ys` that `x` counters. */
  method AddCountersOf(x: Champion, ys: seq<Champion>, delta: int, weight: int) returns (d: int)
    ensures d == delta + weight * CountersIn(x, ys)
  {
    d := delta;
    var j := 0;
    while j < |ys|
      invariant 0 <= j <= |ys|
      invariant d == delta + weight * CountersIn(x, ys[..j])
    {
      ghost var hits := CountersIn(x, ys[..j]);
      assert ys[..j + 1][..j] == ys[..j];
      assert CountersIn(x, ys[..j + 1]) == hits + (if ys[j].id in x.counters then 1 else 0);
      if ys[j].id in x.counters {
        Distribute(weight, hits, 1);
        d := d + weight;
      }
      j := j + 1;
    }
    assert ys[..j] == ys;
  }

  /** Pushes the label of each red pick whose threat score exceeds 5. */
  method CollectThreats(reds: seq<Champion>, blues: seq<Champion>, redStats: map<string, GridStats>)
    returns (threats: seq<string>)
    requires IdsNonEmpty(reds) && StatsCover(redStats, reds)
    ensures threats == Threats(reds, blues)
  {
    threats := [];
    var i := 0;
    while i < |reds|
      invariant 0 <= i <= |reds|
      invariant threats == Threats(reds[..i], blues)
    {
      var redChamp := reds[i];
      var threatScore := 0;
      var countersBlue := exists b :: b in blues && b.id in redChamp.counters;
      if countersBlue {
        threatScore := threatScore + 10;
      }
      if redStats[redChamp.id].winRate > 52 {
        threatScore := threatScore + 5;
      }
      if threatScore > 5 {
        threats := threats + [redChamp.name + " " + (if countersBlue then CounterPickTag else "")];
      }
      assert reds[..i + 1][..i] == reds[..i];
      i := i + 1;
    }
    assert reds[..i] == reds;
  }

  /** The heuristic analysis, computed the way the source does: running scores over the picks,
      nested loops over the counter pairs, a first-match insight and a pushed threat list cut
      to three. */
  method GetHeuristicAnalysis(slots: seq<DraftSlot>, config: SimulationConfig) returns (r: HeuristicResult)
    requires SlotIdsNonEmpty(slots)
    ensures r == Analysis(slots)
  {
    var bluePicks := FilledOf(slots, Blue, Pick);
    var redPicks := FilledOf(slots, Red, Pick);
    FilledOfIdsNonEmpty(slots, Blue, Pick);
    FilledOfIdsNonEmpty(slots, Red, Pick);

    var blueStats := MockStatsOf(bluePicks);
    var redStats := MockStatsOf(redPicks);

    var blueScore := SumWinRateOffsets(bluePicks, blueStats);
    var redScore := SumWinRateOffsets(redPicks, redStats);

    var counterDelta := AddCounterWeights(bluePicks, redPicks, 0, 4);
    counterDelta := AddCounterWeights(redPicks, bluePicks, counterDelta, -4);

    var blueWinProb := 50 + (blueScore - redScore) + counterDelta;
    blueWinProb := if blueWinProb > 90 then 90 else blueWinProb;
    blueWinProb := if blueWinProb < 10 then 10 else blueWinProb;

    var insight := EvenInsight;
    if counterDelta > 5 {
      insight := BlueEdgeInsight;
    } else if counterDelta < -5 {
      insight := RedEdgeInsight;
    } else if |bluePicks| > 0 {
      insight := SkillInsight;
    }

    var threats := CollectThreats(redPicks, bluePicks, redStats);
    r := HeuristicResult(blueWinProb, insight, Take(threats, 3));
  }

  // ---------------------------------------------------------------------------------------
  // Properties of the analysis

  /** With no pick on either side the draft is exactly even. */
  lemma EmptyDraftIsEven(slots: seq<DraftSlot>)
    requires SlotIdsNonEmpty(slots)
    requires forall s :: s in slots ==> s.kind == Ban || s.champion == None
    ensures Analysis(slots) == HeuristicResult(50, EvenInsight, [])
  {
    FilledOfNone(slots, Blue, Pick);
    FilledOfNone(slots, Red, Pick);
  }

  /** Swapping the teams mirrors the estimate around 50. */
  lemma WinProbabilitySwap(blue: seq<Champion>, red: seq<Champion>)
    requires IdsNonEmpty(blue) && IdsNonEmpty(red)
    ensures WinProbability(red, blue) == 100 - WinProbability(blue, red)
    ensures CounterDelta(red, blue) == -CounterDelta(blue, red)
  {
  }

  /** One pick each, the blue pick countering the red one and not countered back: the estimate
      is 54 plus the win-rate gap, 54 itself when the win rates are equal, and the skill
      insight (a single counter is worth 4, not above 5). Swapping the sides gives 46. */
  lemma SingleCounterMatchup(x: Champion, y: Champion)
    requires |x.id| > 0 && |y.id| > 0
    requires Counters(x, y) && !Counters(y, x)
    ensures WinProbability([x], [y]) == 54 + WinRate(x) - WinRate(y)
    ensures WinRate(x) == WinRate(y) ==> WinProbability([x], [y]) == 54 && WinProbability([y], [x]) == 46
    ensures Insight(CounterDelta([x], [y]), 1) == SkillInsight
  {
    assert CountersIn(x, [y]) == 1 by {
      assert [y][..0] == [];
    }
    assert CountersIn(y, [x]) == 0;
    assert CounterPairs([x], [y]) == 1 by {
      assert [x][..0] == [];
    }
    assert CounterPairs([y], [x]) == 0 by {
      assert [y][..0] == [];
    }
    assert BaseScore([x]) == WinRate(x) - 50 by {
      assert [x][..0] == [];
    }
    assert BaseScore([y]) == WinRate(y) - 50 by {
      assert [y][..0] == [];
    }
  }

  /** Bans, the active flag and slots of no pick never change the analysis: re-filling a ban
      slot leaves it as it was. */
  lemma BansDoNotAffectAnalysis(slots: seq<DraftSlot>, i: nat, c: Option<Champion>)
    requires SlotIdsNonEmpty(slots) && i < |slots| && slots[i].kind == Ban
    requires c.Some? ==> |c.value.id| > 0
    ensures SlotIdsNonEmpty(slots[i := slots[i].(champion := c)])
    ensures Analysis(slots[i := slots[i].(champion := c)]) == Analysis(slots)
  {
    var s := slots[i].(champion := c);
    FilledOfUpdate(slots, i, s, Blue, Pick);
    FilledOfUpdate(slots, i, s, Red, Pick);
  }
}
