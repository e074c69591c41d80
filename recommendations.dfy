/** Smart recommendations: what to pick or ban next, given the board and the slot being edited.
    There are three exclusive branches: no slot is active (best win rates overall), the active
    slot is already filled (counters to its champion), and the active slot is empty (contextual
    scoring against the enemy picks). */
module Recommendations {
  import opened Types
  import opened Ranking
  import opened Text
  import opened GridService

  // ---------------------------------------------------------------------------------------
  // Inputs

  /** The random offsets drawn for the direct-counter scores: one per result, each in [0, 8]. */
  predicate JitterReady(jitter: seq<int>)
  {
    |jitter| >= 3 && forall k :: 0 <= k < |jitter| ==> 0 <= jitter[k] <= 8
  }

  /** The catalog champions whose id is on no slot (pick or ban, either team), in catalog order. */
  function Available(catalog: seq<Champion>, slots: seq<DraftSlot>): (r: seq<Champion>)
    ensures |r| <= |catalog|
    ensures forall c :: c in r <==> c in catalog && c.id !in UsedIds(slots)
    ensures IdsNonEmpty(catalog) ==> IdsNonEmpty(r)
  {
    if catalog == [] then []
    else
      var init, c := catalog[..|catalog| - 1], catalog[|catalog| - 1];
      assert catalog == init + [c];
      Available(init, slots) + (if c.id in UsedIds(slots) then [] else [c])
  }

  /** Each champion keyed by its mock win rate. */
  function ByMockWinRate(cs: seq<Champion>): (r: seq<Keyed<Champion>>)
    requires IdsNonEmpty(cs)
    ensures |r| == |cs| && forall k :: 0 <= k < |cs| ==> r[k] == Keyed(cs[k], WinRate(cs[k]))
  {
    seq(|cs|, k requires 0 <= k < |cs| => Keyed(cs[k], WinRate(cs[k])))
  }

  /** The (at most) three champions of `cs` with the highest win rate, best first, ties in input
      order. */
  function TopByWinRate(cs: seq<Champion>): (r: seq<Champion>)
    requires IdsNonEmpty(cs)
    ensures |r| == if |cs| < 3 then |cs| else 3
    ensures forall c :: c in r ==> c in cs
    ensures multiset(r) <= multiset(cs)
    ensures forall i, j :: 0 <= i < j < |r| ==> WinRate(r[i]) >= WinRate(r[j])
  {
    var keyed := ByMockWinRate(cs);
    var sorted := SortDesc(keyed);
    KeyedByWinRate(cs);
    TopItemsSubMultiset(keyed, 3);
    assert Items(keyed) == cs;
    Items(Take(sorted, 3))
  }

  /** After sorting, every entry is still a champion of `cs` keyed by its win rate, and the keys
      descend. */
  lemma KeyedByWinRate(cs: seq<Champion>)
    requires IdsNonEmpty(cs)
    ensures var s := SortDesc(ByMockWinRate(cs));
      SortedDesc(s) && forall x :: x in s ==> x.item in cs && x.key == WinRate(x.item)
  {
    SortDescSorted(ByMockWinRate(cs));
    SortDescMembers(ByMockWinRate(cs));
  }

  /** Nothing left out beats the last champion kept: a champion of `cs` whose win rate exceeds
      the third best is among the three. */
  lemma TopByWinRateIsBest(cs: seq<Champion>, c: Champion)
    requires IdsNonEmpty(cs) && c in cs && |cs| > 0
    requires WinRate(c) > WinRate(TopByWinRate(cs)[|TopByWinRate(cs)| - 1])
    ensures c in TopByWinRate(cs)
  {
    var keyed := ByMockWinRate(cs);
    var top := Take(SortDesc(keyed), 3);
    var m :| 0 <= m < |cs| && cs[m] == c;
    assert keyed[m] == Keyed(c, WinRate(c));
    KeyedByWinRate(cs);
    var last := top[|top| - 1];
    assert last == SortDesc(keyed)[|top| - 1];
    assert last.key == WinRate(last.item);
    TopOfSortDesc(keyed, 3, keyed[m]);
    var k :| 0 <= k < |top| && top[k] == keyed[m];
    assert Items(top)[k] == c;
  }

  /** The champions of `cs` that counter `target`, in order. */
  function CountersOf(cs: seq<Champion>, target: Champion): (r: seq<Champion>)
    ensures |r| <= |cs|
    ensures forall c :: c in r <==> c in cs && Counters(c, target)
    ensures |r| == 0 <==> forall c :: c in cs ==> !Counters(c, target)
  {
    if cs == [] then []
    else
      var init, c := cs[..|cs| - 1], cs[|cs| - 1];
      assert cs == init + [c];
      CountersOf(init, target) + (if Counters(c, target) then [c] else [])
  }

  // ---------------------------------------------------------------------------------------
  // Branches one and two: no active slot, or an active slot already filled

  /** A comfort recommendation of `c` scored by its win rate, the reason quoting that rate. */
  function GlobalRec(c: Champion): (r: Recommendation)
    requires |c.id| > 0
    ensures r.championName == c.name && r.kind == Comfort
    ensures r.score == WinRate(c) && 48 <= r.score <= 54
    ensures |r.reasoning| > 28 && r.reasoning[..28] == "Highest available win rate ("
    ensures r.reasoning[28..] == NatToString(r.score) + "%) in current patch."
  {
    Recommendation(c.name, WinRate(c),
                   "Highest available win rate (" + NatToString(WinRate(c)) + "%) in current patch.", Comfort)
  }

  function GlobalRecs(cs: seq<Champion>): (r: seq<Recommendation>)
    requires IdsNonEmpty(cs)
    ensures |r| == |cs| && forall k :: 0 <= k < |cs| ==> r[k] == GlobalRec(cs[k])
    ensures forall k :: 0 <= k < |r| ==> r[k].championName == cs[k].name && r[k].score == WinRate(cs[k])
    ensures forall k :: 0 <= k < |r| ==> r[k].kind == Comfort && 48 <= r[k].score <= 54
  {
    seq(|cs|, k requires 0 <= k < |cs| => GlobalRec(cs[k]))
  }

  function CounterRecs(cs: seq<Champion>, target: Champion, jitter: seq<int>): (r: seq<Recommendation>)
    requires |cs| <= 3 && JitterReady(jitter)
    ensures |r| == |cs|
    ensures forall k :: 0 <= k < |r| ==> r[k].kind == Counter && 90 <= r[k].score <= 98
    ensures forall k :: 0 <= k < |cs| ==>
      r[k] == Recommendation(cs[k].name, 90 + jitter[k], "Direct counter to " + target.name + " based on Grid data.", Counter)
  {
    seq(|cs|, k requires 0 <= k < |cs| =>
      Recommendation(cs[k].name, 90 + jitter[k], "Direct counter to " + target.name + " based on Grid data.", Counter))
  }

  /** A comfort recommendation of `c` scored by its win rate, the reason naming the target. */
  function FallbackRec(c: Champion, target: Champion): (r: Recommendation)
    requires |c.id| > 0
    ensures r.championName == c.name && r.kind == Comfort
    ensures r.score == WinRate(c) && 48 <= r.score <= 54
    ensures |r.reasoning| > 28 + |target.name| && r.reasoning[..28] == "No direct counter found for "
    ensures r.reasoning[28..28 + |target.name|] == target.name
    ensures Contains(r.reasoning, c.name)
  {
    var lead := "No direct counter found for " + target.name + ", but ";
    var tail := " is a strong meta pick.";
    assert OccursAt(c.name, c.name, 0);
    ContainsInfix(lead, c.name, tail, c.name, 0);
    Recommendation(c.name, WinRate(c), lead + c.name + tail, Comfort)
  }

  function FallbackRecs(cs: seq<Champion>, target: Champion): (r: seq<Recommendation>)
    requires IdsNonEmpty(cs)
    ensures |r| == |cs| && forall k :: 0 <= k < |cs| ==> r[k] == FallbackRec(cs[k], target)
    ensures forall k :: 0 <= k < |r| ==> r[k].kind == Comfort && 48 <= r[k].score <= 54
  {
    seq(|cs|, k requires 0 <= k < |cs| => FallbackRec(cs[k], target))
  }

  // ---------------------------------------------------------------------------------------
  // Branch three: an empty active slot

  /** A candidate with its contextual score, reason and label. */
  datatype Scored = Scored(champ: Champion, score: int, reason: string, kind: RecType)

  function ChampOf(s: Scored): Champion
  {
    s.champ
  }

  /** The champions of a list of scored candidates, in order. */
  function Champs(ss: seq<Scored>): (r: seq<Champion>)
    ensures |r| == |ss| && forall k :: 0 <= k < |ss| ==> r[k] == ss[k].champ
  {
    Map(ChampOf, ss)
  }

  /** The enemy picks `c` counters, in slot order. */
  function CounteredEnemies(c: Champion, enemies: seq<Champion>): (r: seq<Champion>)
    ensures |r| == CountersIn(c, enemies)
    ensures forall e :: e in r <==> e in enemies && Counters(c, e)
  {
    if enemies == [] then []
    else
      var init, e := enemies[..|enemies| - 1], enemies[|enemies| - 1];
      assert enemies == init + [e];
      CounteredEnemies(c, init) + (if Counters(c, e) then [e] else [])
  }

  function NameOf(c: Champion): string
  {
    c.name
  }

  function Names(cs: seq<Champion>): (r: seq<string>)
    ensures |r| == |cs| && forall k :: 0 <= k < |cs| ==> r[k] == cs[k].name
  {
    Map(NameOf, cs)
  }

  function RecNameOf(x: Recommendation): string
  {
    x.championName
  }

  /** The champion names of a list of recommendations, in order. */
  function RecNames(rs: seq<Recommendation>): (r: seq<string>)
    ensures |r| == |rs| && forall k :: 0 <= k < |rs| ==> r[k] == rs[k].championName
  {
    Map(RecNameOf, rs)
  }

  /** Some enemy pick counters `c`. */
  predicate CounteredByAny(c: Champion, enemies: seq<Champion>)
  {
    exists e :: e in enemies && Counters(e, c)
  }

  /** Some champion of `picks` carries `tag`. */
  predicate TagIn(tag: string, picks: seq<Champion>)
  {
    exists p :: p in picks && tag in p.tags
  }

  /** +5 for a FollowUp champion after an Engage ally, +3 for Teamfight with Teamfight; only
      for a pick slot. */
  function SynergyBonus(c: Champion, mine: seq<Champion>, kind: SlotType): (b: int)
    ensures 0 <= b <= 8
    ensures kind == Ban ==> b == 0
    ensures kind == Pick ==> b == (if TagIn("Engage", mine) && "FollowUp" in c.tags then 5 else 0)
                                 + (if TagIn("Teamfight", mine) && "Teamfight" in c.tags then 3 else 0)
  {
    if kind == Pick then
      (if TagIn("Engage", mine) && "FollowUp" in c.tags then 5 else 0)
      + (if TagIn("Teamfight", mine) && "Teamfight" in c.tags then 3 else 0)
    else 0
  }

  /** Win rate, +25 per countered enemy pick, -30 once if any enemy pick counters it, plus the
      synergy bonus. */
  function ContextScore(c: Champion, enemies: seq<Champion>, mine: seq<Champion>, kind: SlotType): (s: int)
    requires |c.id| > 0
    ensures s >= 18
  {
    WinRate(c) + 25 * CountersIn(c, enemies) - (if CounteredByAny(c, enemies) then 30 else 0)
    + SynergyBonus(c, mine, kind)
  }

  /** The scored candidate: a counter when it counters an enemy pick (its reason lists them), a
      comfort pick otherwise. */
  function Evaluate(c: Champion, enemies: seq<Champion>, mine: seq<Champion>, kind: SlotType): (s: Scored)
    requires |c.id| > 0
    ensures s.champ == c && s.score == ContextScore(c, enemies, mine, kind)
    ensures s.kind == Counter <==> CountersIn(c, enemies) > 0
    ensures s.kind != Synergy
  {
    var hit := CounteredEnemies(c, enemies);
    Scored(c, ContextScore(c, enemies, mine, kind), Reason(c, hit), if |hit| > 0 then Counter else Comfort)
  }

  /** The text shown with a candidate: the enemy picks it counters, or else its win rate. */
  function Reason(c: Champion, hit: seq<Champion>): (t: string)
    requires |c.id| > 0
    ensures |t| > 16 && t[|t| - 1] == '.'
    ensures |hit| > 0 ==> t[..16] == "Hard counter to "
    ensures |hit| == 0 ==> |t| > 18 && t[..12] == "Solid pick (" && t[|t| - 6..] == "% WR)."
                           && t[12..|t| - 6] == NatToString(WinRate(c))
    ensures forall e :: e in hit ==> Contains(t, e.name)
  {
    if |hit| > 0 then
      NamesContained(hit, "Hard counter to ", ".");
      "Hard counter to " + Join(Names(hit), ", ") + "."
    else "Solid pick (" + NatToString(WinRate(c)) + "% WR)."
  }

  /** Every champion of `hit` is named in its comma-separated list, whatever surrounds it. */
  lemma NamesContained(hit: seq<Champion>, before: string, after: string)
    ensures forall e :: e in hit ==> Contains(before + Join(Names(hit), ", ") + after, e.name)
  {
    forall e | e in hit
      ensures Contains(before + Join(Names(hit), ", ") + after, e.name)
    {
      var k :| 0 <= k < |hit| && hit[k] == e;
      JoinContains(Names(hit), ", ", k);
      var i: nat :| i <= |Join(Names(hit), ", ")| && OccursAt(Join(Names(hit), ", "), e.name, i);
      ContainsInfix(before, Join(Names(hit), ", "), after, e.name, i);
    }
  }

  function EvaluateAll(cs: seq<Champion>, enemies: seq<Champion>, mine: seq<Champion>, kind: SlotType)
    : (r: seq<Keyed<Scored>>)
    requires IdsNonEmpty(cs)
    ensures |r| == |cs|
    ensures forall k :: 0 <= k < |cs| ==>
      r[k] == Keyed(Evaluate(cs[k], enemies, mine, kind), ContextScore(cs[k], enemies, mine, kind))
  {
    seq(|cs|, k requires 0 <= k < |cs| =>
      Keyed(Evaluate(cs[k], enemies, mine, kind), ContextScore(cs[k], enemies, mine, kind)))
  }

  /** The three best-scored candidates, best first, ties in catalog order. */
  function TopScored(cs: seq<Champion>, enemies: seq<Champion>, mine: seq<Champion>, kind: SlotType)
    : (r: seq<Scored>)
    requires IdsNonEmpty(cs)
    ensures |r| == if |cs| < 3 then |cs| else 3
    ensures forall k :: 0 <= k < |r| ==> r[k].champ in cs && r[k].score >= 18 && r[k].kind != Synergy
    ensures forall i, j :: 0 <= i < j < |r| ==> r[i].score >= r[j].score
  {
    var sorted := SortDesc(EvaluateAll(cs, enemies, mine, kind));
    KeyedByContextScore(cs, enemies, mine, kind);
    Items(Take(sorted, 3))
  }

  /** The champions kept are a sub-multiset of the candidates: none is listed twice unless it
      is a candidate twice. */
  lemma TopScoredNoRepeats(cs: seq<Champion>, enemies: seq<Champion>, mine: seq<Champion>, kind: SlotType)
    requires IdsNonEmpty(cs)
    ensures multiset(Champs(TopScored(cs, enemies, mine, kind))) <= multiset(cs)
  {
    var keyed := EvaluateAll(cs, enemies, mine, kind);
    var top := TopScored(cs, enemies, mine, kind);
    assert top == Items(Take(SortDesc(keyed), 3));
    TopItemsSubMultiset(keyed, 3);
    MapSubMultiset(ChampOf, top, Items(keyed));
    assert Champs(Items(keyed)) == cs;
  }

  lemma KeyedByContextScore(cs: seq<Champion>, enemies: seq<Champion>, mine: seq<Champion>, kind: SlotType)
    requires IdsNonEmpty(cs)
    ensures var s := SortDesc(EvaluateAll(cs, enemies, mine, kind));
      SortedDesc(s) && forall k :: 0 <= k < |s| ==>
        s[k].item.champ in cs && s[k].item == Evaluate(s[k].item.champ, enemies, mine, kind)
        && s[k].key == s[k].item.score && s[k].item.score >= 18 && s[k].item.kind != Synergy
  {
    var keyed := EvaluateAll(cs, enemies, mine, kind);
    var s := SortDesc(keyed);
    SortDescSorted(keyed);
    forall k | 0 <= k < |s|
      ensures s[k].item.champ in cs && s[k].item == Evaluate(s[k].item.champ, enemies, mine, kind)
      ensures s[k].key == s[k].item.score && s[k].item.score >= 18 && s[k].item.kind != Synergy
    {
      SortDescEntry(keyed, k);
      var m :| 0 <= m < |keyed| && keyed[m] == s[k];
      EvaluatedAt(cs, enemies, mine, kind, m);
    }
  }

  /** Entry `m` of the evaluations is the evaluation of `cs[m]`, keyed by its score. */
  lemma EvaluatedAt(cs: seq<Champion>, enemies: seq<Champion>, mine: seq<Champion>, kind: SlotType, m: nat)
    requires IdsNonEmpty(cs) && m < |cs|
    ensures var x := EvaluateAll(cs, enemies, mine, kind)[m];
      x.item.champ == cs[m] && cs[m] in cs && x.item == Evaluate(cs[m], enemies, mine, kind)
      && x.key == x.item.score == ContextScore(cs[m], enemies, mine, kind)
      && x.item.score >= 18 && x.item.kind != Synergy
  {
    assert cs[m] in cs;
  }

  /** Each kept candidate carries its own evaluation: score, reason and label. */
  lemma TopScoredEvaluated(cs: seq<Champion>, enemies: seq<Champion>, mine: seq<Champion>, kind: SlotType,
                           k: nat)
    requires IdsNonEmpty(cs) && k < |TopScored(cs, enemies, mine, kind)|
    ensures var x := TopScored(cs, enemies, mine, kind)[k];
      x == Evaluate(x.champ, enemies, mine, kind)
  {
    var top := Take(SortDesc(EvaluateAll(cs, enemies, mine, kind)), 3);
    KeyedByContextScore(cs, enemies, mine, kind);
    assert TopScored(cs, enemies, mine, kind)[k] == top[k].item;
  }

  /** Nothing left out outscores the last candidate kept. */
  lemma TopScoredIsBest(cs: seq<Champion>, enemies: seq<Champion>, mine: seq<Champion>, kind: SlotType,
                        c: Champion)
    requires IdsNonEmpty(cs) && c in cs
    requires ContextScore(c, enemies, mine, kind)
             > TopScored(cs, enemies, mine, kind)[|TopScored(cs, enemies, mine, kind)| - 1].score
    ensures Evaluate(c, enemies, mine, kind) in TopScored(cs, enemies, mine, kind)
  {
    var keyed := EvaluateAll(cs, enemies, mine, kind);
    var top := Take(SortDesc(keyed), 3);
    var m :| 0 <= m < |cs| && cs[m] == c;
    OutscoresLastKey(cs, enemies, mine, kind, m);
    TopItemAt(keyed, 3, m);
    EvaluatedAt(cs, enemies, mine, kind, m);
  }

  /** Candidate `m` outscoring the last kept candidate outranks the last of the top three keys. */
  lemma OutscoresLastKey(cs: seq<Champion>, enemies: seq<Champion>, mine: seq<Champion>, kind: SlotType, m: nat)
    requires IdsNonEmpty(cs) && m < |cs|
    requires ContextScore(cs[m], enemies, mine, kind)
             > TopScored(cs, enemies, mine, kind)[|TopScored(cs, enemies, mine, kind)| - 1].score
    ensures var keyed := EvaluateAll(cs, enemies, mine, kind);
      keyed[m].key > Take(SortDesc(keyed), 3)[|Take(SortDesc(keyed), 3)| - 1].key
  {
    EvaluatedAt(cs, enemies, mine, kind, m);
    LastScoreIsLastKey(cs, enemies, mine, kind);
  }

  lemma LastScoreIsLastKey(cs: seq<Champion>, enemies: seq<Champion>, mine: seq<Champion>, kind: SlotType)
    requires IdsNonEmpty(cs) && |cs| > 0
    ensures var top := Take(SortDesc(EvaluateAll(cs, enemies, mine, kind)), 3);
      |TopScored(cs, enemies, mine, kind)| == |top| > 0 &&
      TopScored(cs, enemies, mine, kind)[|top| - 1].score == top[|top| - 1].key
  {
    var keyed := EvaluateAll(cs, enemies, mine, kind);
    var top := Take(SortDesc(keyed), 3);
    KeyedByContextScore(cs, enemies, mine, kind);
    assert TopScored(cs, enemies, mine, kind) == Items(top);
    assert top[|top| - 1] == SortDesc(keyed)[|top| - 1];
  }

  function Min(a: int, b: int): (m: int)
    ensures m <= a && m <= b && (m == a || m == b)
  {
    if a < b then a else b
  }

  function ContextRecs(ss: seq<Scored>): (r: seq<Recommendation>)
    ensures |r| == |ss|
    ensures forall k :: 0 <= k < |ss| ==>
      r[k] == Recommendation(ss[k].champ.name, Min(99, ss[k].score), ss[k].reason, ss[k].kind)
  {
    seq(|ss|, k requires 0 <= k < |ss| =>
      Recommendation(ss[k].champ.name, Min(99, ss[k].score), ss[k].reason, ss[k].kind))
  }

  // ---------------------------------------------------------------------------------------
  // The recommendation function

  /** What the recommender returns for the board `slots`, the active slot `active` and the
      random draws `jitter`. */
  function Smart(catalog: seq<Champion>, slots: seq<DraftSlot>, active: Option<DraftSlot>, jitter: seq<int>)
    : (r: seq<Recommendation>)
    requires IdsNonEmpty(catalog) && JitterReady(jitter)
    ensures |r| <= 3
    ensures forall k :: 0 <= k < |r| ==> r[k].kind != Synergy && 18 <= r[k].score <= 99
  {
    var avail := Available(catalog, slots);
    match active
    case None => NoActiveRecs(avail)
    case Some(a) =>
      if a.champion.Some? then FilledSlotRecs(avail, a.champion.value, jitter)
      else EmptySlotRecs(avail, slots, a)
  }

  /** Branch one: the best win rates among the available champions. */
  function NoActiveRecs(avail: seq<Champion>): (r: seq<Recommendation>)
    requires IdsNonEmpty(avail)
    ensures |r| <= 3
    ensures forall k :: 0 <= k < |r| ==> r[k].kind == Comfort && 48 <= r[k].score <= 54
  {
    GlobalRecs(TopByWinRate(avail))
  }

  /** Branch two: the best available counters of `target`, or the comfort fallback when there
      is none. */
  function FilledSlotRecs(avail: seq<Champion>, target: Champion, jitter: seq<int>): (r: seq<Recommendation>)
    requires IdsNonEmpty(avail) && JitterReady(jitter)
    ensures |r| <= 3
    ensures forall k :: 0 <= k < |r| ==> r[k].kind != Synergy && 48 <= r[k].score <= 98
  {
    var counters := CountersOf(avail, target);
    if |counters| > 0 then CounterRecs(TopByWinRate(counters), target, jitter)
    else FallbackRecs(TopByWinRate(avail), target)
  }

  /** Branch three: the best contextual scores against the enemy picks of the slot's team. */
  function EmptySlotRecs(avail: seq<Champion>, slots: seq<DraftSlot>, a: DraftSlot): (r: seq<Recommendation>)
    requires IdsNonEmpty(avail)
    ensures |r| <= 3
    ensures forall k :: 0 <= k < |r| ==> r[k].kind != Synergy && 18 <= r[k].score <= 99
  {
    var enemies := FilledOf(slots, Opponent(a.team), Pick);
    var mine := FilledOf(slots, a.team, Pick);
    ContextRecs(TopScored(avail, enemies, mine, a.kind))
  }

  // ---------------------------------------------------------------------------------------
  // Properties of the recommendations

  /** Every recommended champion is a catalog champion that is on no slot, pick or ban. */
  lemma NeverRecommendsUsed(catalog: seq<Champion>, slots: seq<DraftSlot>, active: Option<DraftSlot>,
                            jitter: seq<int>, k: nat)
    requires IdsNonEmpty(catalog) && JitterReady(jitter)
    requires k < |Smart(catalog, slots, active, jitter)|
    ensures exists c :: c in catalog && c.id !in UsedIds(slots)
                        && c.name == Smart(catalog, slots, active, jitter)[k].championName
  {
    var avail := Available(catalog, slots);
    var r := Smart(catalog, slots, active, jitter);
    if active.None? || (active.value.champion.Some? && |CountersOf(avail, active.value.champion.value)| == 0) {
      var top := TopByWinRate(avail);
      assert top[k] in avail;
    } else if active.value.champion.Some? {
      var top := TopByWinRate(CountersOf(avail, active.value.champion.value));
      assert top[k] in avail;
    } else {
      var a := active.value;
      var top := TopScored(avail, FilledOf(slots, Opponent(a.team), Pick), FilledOf(slots, a.team, Pick), a.kind);
      assert top[k] in top;
      assert top[k].champ in avail;
    }
  }

  /** With no active slot: up to three comfort picks, one per available champion up to three,
      best win rate first; an available champion whose win rate beats the last one listed is
      listed. */
  lemma NoActiveSlot(catalog: seq<Champion>, slots: seq<DraftSlot>, jitter: seq<int>)
    requires IdsNonEmpty(catalog) && JitterReady(jitter)
    ensures var r := Smart(catalog, slots, None, jitter);
            var avail := Available(catalog, slots);
      && |r| == (if |avail| < 3 then |avail| else 3)
      && (forall k :: 0 <= k < |r| ==> r[k].kind == Comfort)
      && (forall i, j :: 0 <= i < j < |r| ==> r[i].score >= r[j].score)
      && (forall c :: c in avail && |r| > 0 && WinRate(c) > r[|r| - 1].score ==>
            exists k :: 0 <= k < |r| && r[k].championName == c.name)
      && multiset(RecNames(r)) <= multiset(Names(avail))
  {
    var avail := Available(catalog, slots);
    assert Smart(catalog, slots, None, jitter) == GlobalRecs(TopByWinRate(avail));
    GlobalTopFacts(avail);
  }

  /** The comfort picks of branch one: their number, label and order, and no better champion
      left out. */
  lemma GlobalTopFacts(avail: seq<Champion>)
    requires IdsNonEmpty(avail)
    ensures var r := GlobalRecs(TopByWinRate(avail));
      && |r| == (if |avail| < 3 then |avail| else 3)
      && (forall k :: 0 <= k < |r| ==> r[k].kind == Comfort)
      && (forall i, j :: 0 <= i < j < |r| ==> r[i].score >= r[j].score)
      && (forall c :: c in avail && |r| > 0 && WinRate(c) > r[|r| - 1].score ==>
            exists k :: 0 <= k < |r| && r[k].championName == c.name)
      && multiset(RecNames(r)) <= multiset(Names(avail))
  {
    var top := TopByWinRate(avail);
    var r := GlobalRecs(top);
    MapSubMultiset(NameOf, top, avail);
    assert RecNames(r) == Names(top);
    forall c | c in avail && |r| > 0 && WinRate(c) > r[|r| - 1].score
      ensures exists k :: 0 <= k < |r| && r[k].championName == c.name
    {
      GlobalTopListed(avail, c);
    }
  }

  /** A champion whose win rate beats the last comfort pick is among the comfort picks. */
  lemma GlobalTopListed(avail: seq<Champion>, c: Champion)
    requires IdsNonEmpty(avail) && c in avail
    requires |GlobalRecs(TopByWinRate(avail))| > 0
    requires WinRate(c) > GlobalRecs(TopByWinRate(avail))[|GlobalRecs(TopByWinRate(avail))| - 1].score
    ensures var r := GlobalRecs(TopByWinRate(avail));
      exists k :: 0 <= k < |r| && r[k].championName == c.name
  {
    var top := TopByWinRate(avail);
    var r := GlobalRecs(top);
    TopByWinRateIsBest(avail, c);
    var k :| 0 <= k < |top| && top[k] == c;
    assert r[k].championName == c.name;
  }

  /** A filled active slot whose champion some available champion counters: only such
      counters are recommended, labelled as counters and scored 90 to 98. */
  lemma FilledSlotWithCounters(catalog: seq<Champion>, slots: seq<DraftSlot>, a: DraftSlot, jitter: seq<int>)
    requires IdsNonEmpty(catalog) && JitterReady(jitter)
    requires a.champion.Some?
    requires exists c :: c in catalog && c.id !in UsedIds(slots) && Counters(c, a.champion.value)
    ensures var r := Smart(catalog, slots, Some(a), jitter);
      && 0 < |r|
      && forall k :: 0 <= k < |r| ==>
           && r[k].kind == Counter && 90 <= r[k].score <= 98
           && exists c :: c in catalog && c.id !in UsedIds(slots) && Counters(c, a.champion.value)
                          && c.name == r[k].championName
  {
    var target := a.champion.value;
    var avail := Available(catalog, slots);
    var counters := CountersOf(avail, target);
    var c :| c in catalog && c.id !in UsedIds(slots) && Counters(c, target);
    assert c in counters;
    var top := TopByWinRate(counters);
    assert Smart(catalog, slots, Some(a), jitter) == FilledSlotRecs(avail, target, jitter);
    assert FilledSlotRecs(avail, target, jitter) == CounterRecs(top, target, jitter);
    forall k | 0 <= k < |top|
      ensures top[k] in catalog && top[k].id !in UsedIds(slots) && Counters(top[k], target)
    {
      assert top[k] in counters;
    }
  }

  /** A filled active slot whose champion no available champion counters: the comfort
      fallback, best win rate first. */
  lemma FilledSlotWithoutCounters(catalog: seq<Champion>, slots: seq<DraftSlot>, a: DraftSlot, jitter: seq<int>)
    requires IdsNonEmpty(catalog) && JitterReady(jitter)
    requires a.champion.Some?
    requires forall c :: c in catalog && c.id !in UsedIds(slots) ==> !Counters(c, a.champion.value)
    ensures var r := Smart(catalog, slots, Some(a), jitter);
            var avail := Available(catalog, slots);
      && |r| == (if |avail| < 3 then |avail| else 3)
      && (forall k :: 0 <= k < |r| ==> r[k].kind == Comfort)
      && (forall i, j :: 0 <= i < j < |r| ==> r[i].score >= r[j].score)
  {
    var avail := Available(catalog, slots);
    assert |CountersOf(avail, a.champion.value)| == 0;
    assert Smart(catalog, slots, Some(a), jitter) == FilledSlotRecs(avail, a.champion.value, jitter);
    assert FilledSlotRecs(avail, a.champion.value, jitter) == FallbackRecs(TopByWinRate(avail), a.champion.value);
  }

  /** An empty active slot: each result is an available champion with its contextual score
      capped at 99, labelled a counter exactly when it counters an enemy pick; best first. */
  lemma EmptyActiveSlot(catalog: seq<Champion>, slots: seq<DraftSlot>, a: DraftSlot, jitter: seq<int>)
    requires IdsNonEmpty(catalog) && JitterReady(jitter)
    requires a.champion.None?
    ensures var r := Smart(catalog, slots, Some(a), jitter);
            var enemies := FilledOf(slots, Opponent(a.team), Pick);
            var mine := FilledOf(slots, a.team, Pick);
      && (forall k :: 0 <= k < |r| ==> IsContextRecOf(r[k], Available(catalog, slots), enemies, mine, a.kind))
      && (forall i, j :: 0 <= i < j < |r| ==> r[i].score >= r[j].score)
  {
    var enemies := FilledOf(slots, Opponent(a.team), Pick);
    var mine := FilledOf(slots, a.team, Pick);
    var avail := Available(catalog, slots);
    assert Smart(catalog, slots, Some(a), jitter) == EmptySlotRecs(avail, slots, a);
    ContextRecsOfTop(avail, enemies, mine, a.kind);
  }

  lemma ContextRecsOfTop(cs: seq<Champion>, enemies: seq<Champion>, mine: seq<Champion>, kind: SlotType)
    requires IdsNonEmpty(cs)
    ensures var r := ContextRecs(TopScored(cs, enemies, mine, kind));
      && (forall k :: 0 <= k < |r| ==> IsContextRecOf(r[k], cs, enemies, mine, kind))
      && (forall i, j :: 0 <= i < j < |r| ==> r[i].score >= r[j].score)
  {
    var r := ContextRecs(TopScored(cs, enemies, mine, kind));
    forall k | 0 <= k < |r|
      ensures IsContextRecOf(r[k], cs, enemies, mine, kind)
    {
      ContextRecAt(cs, enemies, mine, kind, k);
    }
    ContextRecsSorted(TopScored(cs, enemies, mine, kind));
  }

  /** `x` recommends some champion of `cs` with its contextual score capped at 99, labelled a
      counter exactly when it counters an enemy pick. */
  ghost predicate IsContextRecOf(x: Recommendation, cs: seq<Champion>, enemies: seq<Champion>,
                                 mine: seq<Champion>, kind: SlotType)
    requires IdsNonEmpty(cs)
  {
    exists c :: c in cs && x.championName == c.name
      && x.score == Min(99, ContextScore(c, enemies, mine, kind))
      && x.kind == (if CountersIn(c, enemies) > 0 then Counter else Comfort)
  }

  /** Capping at 99 keeps the best-first order. */
  lemma ContextRecsSorted(ss: seq<Scored>)
    requires forall i, j :: 0 <= i < j < |ss| ==> ss[i].score >= ss[j].score
    ensures var r := ContextRecs(ss); forall i, j :: 0 <= i < j < |r| ==> r[i].score >= r[j].score
  {
  }

  /** Recommendation `k` is an available champion's capped score and label. */
  lemma ContextRecAt(cs: seq<Champion>, enemies: seq<Champion>, mine: seq<Champion>, kind: SlotType, k: nat)
    requires IdsNonEmpty(cs) && k < |TopScored(cs, enemies, mine, kind)|
    ensures IsContextRecOf(ContextRecs(TopScored(cs, enemies, mine, kind))[k], cs, enemies, mine, kind)
  {
    var top := TopScored(cs, enemies, mine, kind);
    TopScoredEvaluated(cs, enemies, mine, kind, k);
    var c := top[k].champ;
    assert c in cs;
  }

  /** The penalty for being countered is flat: once some enemy pick counters a candidate, a
      further enemy pick changes its score only by the +25 for countering it. */
  lemma {:induction false} PenaltyIsFlat(c: Champion, enemies: seq<Champion>, e: Champion, mine: seq<Champion>,
                                         kind: SlotType)
    requires |c.id| > 0 && CounteredByAny(c, enemies)
    ensures ContextScore(c, enemies + [e], mine, kind)
            == ContextScore(c, enemies, mine, kind) + (if Counters(c, e) then 25 else 0)
  {
    var more := enemies + [e];
    assert more[..|more| - 1] == enemies;
    var x :| x in enemies && Counters(x, c);
    assert x in more;
  }

  // ---------------------------------------------------------------------------------------
  // The procedure

  /** Keys each champion by the win rate read from the stats record. */
  method KeyByStats(cs: seq<Champion>, stats: map<string, GridStats>) returns (keyed: seq<Keyed<Champion>>)
    requires IdsNonEmpty(cs) && StatsCover(stats, cs)
    ensures keyed == ByMockWinRate(cs)
  {
    keyed := [];
    var i := 0;
    while i < |cs|
      invariant 0 <= i <= |cs|
      invariant keyed == ByMockWinRate(cs[..i])
    {
      keyed := keyed + [Keyed(cs[i], stats[cs[i].id].winRate)];
      i := i + 1;
    }
    assert cs[..i] == cs;
  }

  /** Scores one candidate the way the source does: start from its win rate, then adjust the
      score, label and reason step by step. */
  method ScoreCandidate(champ: Champion, enemies: seq<Champion>, mine: seq<Champion>, kind: SlotType,
                        stats: map<string, GridStats>) returns (s: Scored)
    requires StatsCover(stats, [champ])
    ensures s == Evaluate(champ, enemies, mine, kind)
  {
    var score := stats[champ.id].winRate;
    var reason := "";
    var recType := Comfort;

    var enemiesCountered := CounteredEnemies(champ, enemies);
    if |enemiesCountered| > 0 {
      score := score + 25 * |enemiesCountered|;
      recType := Counter;
      reason := "Hard counter to " + Join(Names(enemiesCountered), ", ") + ".";
      assert reason == Reason(champ, enemiesCountered) && reason != "";
    }

    var counteredBy := exists e :: e in enemies && champ.id in e.counters;
    if counteredBy {
      score := score - 30;
    }
    assert counteredBy == CounteredByAny(champ, enemies);

    if kind == Pick {
      var engage := exists p :: p in mine && "Engage" in p.tags;
      var teamfight := exists p :: p in mine && "Teamfight" in p.tags;
      if engage && "FollowUp" in champ.tags {
        score := score + 5;
      }
      if teamfight && "Teamfight" in champ.tags {
        score := score + 3;
      }
      assert engage == TagIn("Engage", mine) && teamfight == TagIn("Teamfight", mine);
    }
    assert score == ContextScore(champ, enemies, mine, kind);

    if reason == "" {
      reason := "Solid pick (" + NatToString(stats[champ.id].winRate) + "% WR).";
      assert reason == Reason(champ, enemiesCountered);
    }
    s := Scored(champ, score, reason, recType);
  }

  method ScoreCandidates(cs: seq<Champion>, enemies: seq<Champion>, mine: seq<Champion>, kind: SlotType,
                         stats: map<string, GridStats>) returns (scored: seq<Keyed<Scored>>)
    requires IdsNonEmpty(cs) && StatsCover(stats, cs)
    ensures scored == EvaluateAll(cs, enemies, mine, kind)
  {
    ghost var all := EvaluateAll(cs, enemies, mine, kind);
    scored := [];
    var i := 0;
    while i < |cs|
      invariant 0 <= i <= |cs|
      invariant scored == all[..i]
    {
      var s := ScoreCandidate(cs[i], enemies, mine, kind, stats);
      EvaluatedAt(cs, enemies, mine, kind, i);
      PrefixSnoc(all, scored, Keyed(s, s.score));
      scored := scored + [Keyed(s, s.score)];
      i := i + 1;
    }
    assert all[..i] == all;
  }

  /** Sorts a copy of `cs` by win rate (highest first, stable) and keeps three. */
  method RankByWinRate(cs: seq<Champion>, stats: map<string, GridStats>) returns (top: seq<Champion>)
    requires IdsNonEmpty(cs) && StatsCover(stats, cs)
    ensures top == TopByWinRate(cs)
  {
    var keyed := KeyByStats(cs, stats);
    var sorted := SortedCopy(keyed);
    top := Items(Take(sorted, 3));
  }

  /** Scores every candidate, sorts a copy by score (highest first, stable) and keeps three. */
  method RankInContext(cs: seq<Champion>, enemies: seq<Champion>, mine: seq<Champion>, kind: SlotType,
                       stats: map<string, GridStats>) returns (top: seq<Scored>)
    requires IdsNonEmpty(cs) && StatsCover(stats, cs)
    ensures top == TopScored(cs, enemies, mine, kind)
  {
    var scoredChampions := ScoreCandidates(cs, enemies, mine, kind, stats);
    var sorted := SortedCopy(scoredChampions);
    top := Items(Take(sorted, 3));
  }

  /** The recommender: filters out used champions, reads the mock stats, then ranks in the branch
      the active slot selects. */
  method GetSmartRecommendations(catalog: seq<Champion>, slots: seq<DraftSlot>, active: Option<DraftSlot>,
                                 jitter: seq<int>) returns (recs: seq<Recommendation>)
    requires IdsNonEmpty(catalog) && JitterReady(jitter)
    ensures recs == Smart(catalog, slots, active, jitter)
  {
    var avail := Available(catalog, slots);
    var stats := MockStatsOf(avail);

    if active.None? {
      var top := RankByWinRate(avail, stats);
      recs := GlobalRecs(top);
    } else if active.value.champion.Some? {
      var target := active.value.champion.value;
      var specificCounters := CountersOf(avail, target);
      if |specificCounters| > 0 {
        assert StatsCover(stats, specificCounters);
        var top := RankByWinRate(specificCounters, stats);
        recs := CounterRecs(top, target, jitter);
      } else {
        var top := RankByWinRate(avail, stats);
        recs := FallbackRecs(top, target);
      }
    } else {
      var a := active.value;
      var enemyPicks := FilledOf(slots, Opponent(a.team), Pick);
      var myPicks := FilledOf(slots, a.team, Pick);
      var top := RankInContext(avail, enemyPicks, myPicks, a.kind, stats);
      recs := ContextRecs(top);
    }
  }
}
