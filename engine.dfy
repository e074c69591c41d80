/** The backend engine's stat lookup, the empty case and bonus loop of its synergy index, its
    next-pick prediction and its pocket-pick alerts. */
module Engine {
  import opened Ranking
  import opened Api

  /** A stored stat: a role list or a number. */
  datatype StatValue = RoleList(roles: seq<string>) | Number(x: real)

  /** The engine's mock stats table. */
  const ChampionStats: map<string, map<string, StatValue>> := map[
    "Aatrox" := map["roles" := RoleList(["Top"]), "patch_pick_rate" := Number(0.12), "win_rate" := Number(0.51)],
    "Ahri" := map["roles" := RoleList(["Mid"]), "patch_pick_rate" := Number(0.15), "win_rate" := Number(0.49)],
    "LeeSin" := map["roles" := RoleList(["Jungle"]), "patch_pick_rate" := Number(0.20), "win_rate" := Number(0.48)],
    "Thresh" := map["roles" := RoleList(["Support"]), "patch_pick_rate" := Number(0.10), "win_rate" := Number(0.50)],
    "Jinx" := map["roles" := RoleList(["Bot"]), "patch_pick_rate" := Number(0.18), "win_rate" := Number(0.52)]
  ]

  /** The lookup's default when the caller gives none. */
  const DefaultStat: StatValue := Number(0.05)

  /** The stored value of `key` for `champId`, or `default` when the champion or the key is
      missing. */
  function GetStat(champId: string, key: string, default: StatValue): (v: StatValue)
    ensures champId in ChampionStats && key in ChampionStats[champId] ==> v == ChampionStats[champId][key]
    ensures champId !in ChampionStats || key !in ChampionStats[champId] ==> v == default
  {
    if champId in ChampionStats && key in ChampionStats[champId] then ChampionStats[champId][key] else default
  }

  /** The table's win rates all lie between 48% and 52%; an unknown champion gets the
      caller's default. */
  lemma StoredWinRates(champId: string, default: StatValue)
    ensures champId in ChampionStats ==>
      GetStat(champId, "win_rate", default).Number? && 0.48 <= GetStat(champId, "win_rate", default).x <= 0.52
    ensures champId !in ChampionStats ==> GetStat(champId, "win_rate", default) == default
    ensures GetStat("Aatrox", "win_rate", default) == Number(0.51)
    ensures GetStat("Ahri", "win_rate", default) == Number(0.49)
    ensures GetStat("LeeSin", "win_rate", default) == Number(0.48)
    ensures GetStat("Thresh", "win_rate", default) == Number(0.50)
    ensures GetStat("Jinx", "win_rate", default) == Number(0.52)
  {
  }

  // ---------------------------------------------------------------------------------------
  // Synergy index

  /** The pair bonus one champion earns when its partner is on the same team. */
  function PairBonus(champ: string, teamPicks: seq<string>): (b: real)
    ensures b == 0.0 || b == 12.0 || b == 15.0 || b == 20.0
  {
    (if champ == "Yasuo" && "Malphite" in teamPicks then 15.0 else 0.0)
    + (if champ == "Lulu" && "Jinx" in teamPicks then 12.0 else 0.0)
    + (if champ == "Xayah" && "Rakan" in teamPicks then 20.0 else 0.0)
  }

  const Proficiency: real := 1.2

  /** The bonus sum after the first `n` champions: add that champion's pair bonus, then scale
      by the proficiency weight. */
  function SynergySumAfter(teamPicks: seq<string>, n: nat): (s: real)
    requires n <= |teamPicks|
    ensures s >= 0.0
  {
    if n == 0 then 0.0
    else (SynergySumAfter(teamPicks, n - 1) + PairBonus(teamPicks[n - 1], teamPicks)) * Proficiency
  }

  /** No pair partner on the team, no bonus. */
  lemma {:induction false} NoPairsNoBonus(teamPicks: seq<string>, n: nat)
    requires n <= |teamPicks|
    requires forall k :: 0 <= k < |teamPicks| ==> PairBonus(teamPicks[k], teamPicks) == 0.0
    ensures SynergySumAfter(teamPicks, n) == 0.0
  {
    if n > 0 {
      NoPairsNoBonus(teamPicks, n - 1);
    }
  }

  /** The bonus loop of the synergy index. */
  method SynergySum(teamPicks: seq<string>) returns (synergySum: real)
    ensures synergySum == SynergySumAfter(teamPicks, |teamPicks|)
  {
    synergySum := 0.0;
    var i := 0;
    while i < |teamPicks|
      invariant 0 <= i <= |teamPicks|
      invariant synergySum == SynergySumAfter(teamPicks, i)
    {
      var champ := teamPicks[i];
      if champ == "Yasuo" && "Malphite" in teamPicks {
        synergySum := synergySum + 15.0;
      }
      if champ == "Lulu" && "Jinx" in teamPicks {
        synergySum := synergySum + 12.0;
      }
      if champ == "Xayah" && "Rakan" in teamPicks {
        synergySum := synergySum + 20.0;
      }
      synergySum := synergySum * Proficiency;
      i := i + 1;
    }
  }

  /** The synergy index: 0 for an empty team; otherwise 50 plus the patch term plus the bonus
      sum, held within [0, 100]. The patch term (a logarithm of the average pick rate) is given
      by the caller. */
  function SynergyIndex(teamPicks: seq<string>, patchTerm: real): (s: real)
    ensures teamPicks == [] ==> s == 0.0
    ensures 0.0 <= s <= 100.0
  {
    if teamPicks == [] then 0.0
    else
      var total := 50.0 + patchTerm + SynergySumAfter(teamPicks, |teamPicks|);
      if total < 0.0 then 0.0 else if total > 100.0 then 100.0 else total
  }

  // ---------------------------------------------------------------------------------------
  // Next-pick prediction

  const PossiblePicks: seq<string> := ["Maokai", "Sejuani", "Azir", "Varus", "Nautilus", "Renekton", "Vi"]
  const PredictionReason: string := "Fills missing role & High Meta Prio"

  /** The random confidences drawn for the candidates: enough of them, each in [60, 95]. */
  predicate DrawsReady(draws: seq<int>)
  {
    |draws| >= |PossiblePicks| && forall k :: 0 <= k < |draws| ==> 60 <= draws[k] <= 95
  }

  /** Every name on either team or banned. */
  function Taken(bluePicks: seq<string>, redPicks: seq<string>, bans: seq<string>): (t: set<string>)
    ensures forall n :: n in t <==> n in bluePicks || n in redPicks || n in bans
  {
    set n | n in bluePicks + redPicks + bans
  }

  /** The untaken names in list order, the k-th of them with the k-th draw as its confidence. */
  function CandidatesFrom(names: seq<string>, taken: set<string>, draws: seq<int>): (r: seq<Keyed<Prediction>>)
    requires |draws| >= |names|
    ensures |r| <= |names|
    ensures forall x :: x in r ==>
      x.item.champion in names && x.item.champion !in taken && x.item.confidence in draws
      && x.key == x.item.confidence && x.item.reason == PredictionReason
  {
    if names == [] then []
    else if names[0] in taken then CandidatesFrom(names[1..], taken, draws)
    else [Keyed(Prediction(names[0], draws[0], PredictionReason), draws[0])] + CandidatesFrom(names[1..], taken, draws[1..])
  }

  /** The draws are consumed in order: the k-th candidate carries the k-th draw. */
  lemma {:induction false} CandidatesDraws(names: seq<string>, taken: set<string>, draws: seq<int>)
    requires |draws| >= |names|
    ensures var r := CandidatesFrom(names, taken, draws);
      forall k :: 0 <= k < |r| ==> r[k].item.confidence == draws[k] && r[k].key == draws[k]
  {
    if names != [] {
      if names[0] in taken {
        CandidatesDraws(names[1..], taken, draws);
      } else {
        CandidatesDraws(names[1..], taken, draws[1..]);
        var r := CandidatesFrom(names, taken, draws);
        var rest := CandidatesFrom(names[1..], taken, draws[1..]);
        assert r == [Keyed(Prediction(names[0], draws[0], PredictionReason), draws[0])] + rest;
        forall k | 0 <= k < |r|
          ensures r[k].item.confidence == draws[k] && r[k].key == draws[k]
        {
          if k > 0 {
            assert r[k] == rest[k - 1] && draws[1..][k - 1] == draws[k];
          }
        }
      }
    }
  }

  /** Every untaken name becomes a candidate. */
  lemma {:induction false} CandidatesCoverUntaken(names: seq<string>, taken: set<string>, draws: seq<int>, n: string)
    requires |draws| >= |names| && n in names && n !in taken
    ensures exists x :: x in CandidatesFrom(names, taken, draws) && x.item.champion == n
  {
    if names[0] != n {
      CandidatesCoverUntaken(names[1..], taken, draws[if names[0] in taken then 0 else 1..], n);
      var x :| x in CandidatesFrom(names[1..], taken, draws[if names[0] in taken then 0 else 1..]) && x.item.champion == n;
      assert x in CandidatesFrom(names, taken, draws);
    } else {
      assert CandidatesFrom(names, taken, draws)[0].item.champion == n;
    }
  }

  /** The prediction: the two most confident candidates, ties in list order. */
  function Predictions(bluePicks: seq<string>, redPicks: seq<string>, bans: seq<string>, draws: seq<int>)
    : (r: seq<Prediction>)
    requires DrawsReady(draws)
    ensures var free := Untaken(PossiblePicks, Taken(bluePicks, redPicks, bans));
      |r| == if |free| < 2 then |free| else 2
  {
    var taken := Taken(bluePicks, redPicks, bans);
    PossiblePicksDistinct();
    CandidatesCount(PossiblePicks, taken, draws);
    Items(Take(SortDesc(CandidatesFrom(PossiblePicks, taken, draws)), 2))
  }

  /** The names of the list nobody has taken. */
  function Untaken(names: seq<string>, taken: set<string>): (u: set<string>)
    ensures forall n :: n in u <==> n in names && n !in taken
  {
    set n | n in names && n !in taken
  }

  /** From a list without repeats, there is one candidate per untaken name. */
  lemma {:induction false} CandidatesCount(names: seq<string>, taken: set<string>, draws: seq<int>)
    requires |draws| >= |names| && Distinct(names)
    ensures |CandidatesFrom(names, taken, draws)| == |Untaken(names, taken)|
  {
    if names == [] {
      assert Untaken(names, taken) == {};
    } else {
      var rest := names[1..];
      assert Distinct(rest) by {
        forall i, j | 0 <= i < j < |rest|
          ensures rest[i] != rest[j]
        {
          assert rest[i] == names[i + 1] && rest[j] == names[j + 1];
        }
      }
      assert names[0] !in rest by {
        forall j | 0 <= j < |rest|
          ensures rest[j] != names[0]
        {
          assert rest[j] == names[j + 1];
        }
      }
      assert names == [names[0]] + rest;
      if names[0] in taken {
        assert Untaken(names, taken) == Untaken(rest, taken);
        CandidatesCount(rest, taken, draws);
      } else {
        assert Untaken(names, taken) == Untaken(rest, taken) + {names[0]};
        CandidatesCount(rest, taken, draws[1..]);
      }
    }
  }

  /** Each prediction is an untaken name from the fixed list with a confidence in [60, 95], and
      they come most confident first. */
  lemma PredictionsAreUntakenCandidates(bluePicks: seq<string>, redPicks: seq<string>, bans: seq<string>,
                                        draws: seq<int>)
    requires DrawsReady(draws)
    ensures var r := Predictions(bluePicks, redPicks, bans, draws);
      && (forall k :: 0 <= k < |r| ==>
            && r[k].champion in PossiblePicks
            && r[k].champion !in bluePicks && r[k].champion !in redPicks && r[k].champion !in bans
            && 60 <= r[k].confidence <= 95)
      && (forall i, j :: 0 <= i < j < |r| ==> r[i].confidence >= r[j].confidence)
  {
    var taken := Taken(bluePicks, redPicks, bans);
    var cands := CandidatesFrom(PossiblePicks, taken, draws);
    var sorted := SortDesc(cands);
    SortDescSorted(cands);
    SortDescMembers(cands);
    var top := Take(sorted, 2);
    forall k | 0 <= k < |top|
      ensures top[k] in cands
    {
      assert top[k] == sorted[k];
    }
  }

  /** No champion is predicted twice. */
  lemma PredictionsDistinct(bluePicks: seq<string>, redPicks: seq<string>, bans: seq<string>, draws: seq<int>)
    requires DrawsReady(draws)
    ensures var r := Predictions(bluePicks, redPicks, bans, draws);
      forall i, j :: 0 <= i < j < |r| ==> r[i].champion != r[j].champion
  {
    var cands := CandidatesFrom(PossiblePicks, Taken(bluePicks, redPicks, bans), draws);
    PossiblePicksDistinct();
    CandidatesDistinct(PossiblePicks, Taken(bluePicks, redPicks, bans), draws);
    TopItemsSubMultiset(cands, 2);
    assert Predictions(bluePicks, redPicks, bans, draws) == Items(Take(SortDesc(cands), 2));
    DistinctChampionsKept(Items(Take(SortDesc(cands), 2)), cands);
  }

  lemma PossiblePicksDistinct()
    ensures Distinct(PossiblePicks)
  {
  }

  /** Predictions drawn without repetition from predictions with distinct names have distinct
      names. */
  lemma DistinctChampionsKept(r: seq<Prediction>, cands: seq<Keyed<Prediction>>)
    requires multiset(r) <= multiset(Items(cands))
    requires DistinctChampions(cands)
    ensures forall i, j :: 0 <= i < j < |r| ==> r[i].champion != r[j].champion
  {
    var all := Items(cands);
    assert Distinct(all);
    DistinctSub(r, all);
    forall i, j | 0 <= i < j < |r|
      ensures r[i].champion != r[j].champion
    {
      assert r[i] in multiset(all) && r[j] in multiset(all);
      var a :| 0 <= a < |all| && all[a] == r[i];
      var b :| 0 <= b < |all| && all[b] == r[j];
    }
  }

  /** No two candidates share a name. */
  ghost predicate DistinctChampions(c: seq<Keyed<Prediction>>)
  {
    forall i, j :: 0 <= i < j < |c| ==> c[i].item.champion != c[j].item.champion
  }

  /** From a list without repeats, no two candidates share a name. */
  lemma {:induction false} CandidatesDistinct(names: seq<string>, taken: set<string>, draws: seq<int>)
    requires |draws| >= |names| && Distinct(names)
    ensures DistinctChampions(CandidatesFrom(names, taken, draws))
  {
    if names != [] {
      var rest := names[1..];
      assert Distinct(rest) by {
        forall i, j | 0 <= i < j < |rest|
          ensures rest[i] != rest[j]
        {
          assert rest[i] == names[i + 1] && rest[j] == names[j + 1];
        }
      }
      if names[0] in taken {
        assert CandidatesFrom(names, taken, draws) == CandidatesFrom(rest, taken, draws);
        CandidatesDistinct(rest, taken, draws);
      } else {
        assert CandidatesFrom(names, taken, draws)
          == [Keyed(Prediction(names[0], draws[0], PredictionReason), draws[0])]
             + CandidatesFrom(rest, taken, draws[1..]);
        CandidatesDistinct(rest, taken, draws[1..]);
        ConsDistinct(Keyed(Prediction(names[0], draws[0], PredictionReason), draws[0]),
                     CandidatesFrom(rest, taken, draws[1..]), rest);
      }
    }
  }

  /** A candidate whose name the rest cannot carry keeps the names distinct. */
  lemma ConsDistinct(head: Keyed<Prediction>, tail: seq<Keyed<Prediction>>, rest: seq<string>)
    requires DistinctChampions(tail) && head.item.champion !in rest
    requires forall x :: x in tail ==> x.item.champion in rest
    ensures DistinctChampions([head] + tail)
  {
    var c := [head] + tail;
    forall i, j | 0 <= i < j < |c|
      ensures c[i].item.champion != c[j].item.champion
    {
      assert c[j] == tail[j - 1] && tail[j - 1] in tail;
      if i > 0 {
        assert c[i] == tail[i - 1];
      }
    }
  }

  /** Nothing left out is more confident than the last prediction kept. */
  lemma PredictionsAreMostConfident(bluePicks: seq<string>, redPicks: seq<string>, bans: seq<string>,
                                    draws: seq<int>, x: Keyed<Prediction>)
    requires DrawsReady(draws)
    requires x in CandidatesFrom(PossiblePicks, Taken(bluePicks, redPicks, bans), draws)
    requires |Predictions(bluePicks, redPicks, bans, draws)| > 0
    requires x.item.confidence
             > Predictions(bluePicks, redPicks, bans, draws)[|Predictions(bluePicks, redPicks, bans, draws)| - 1].confidence
    ensures x.item in Predictions(bluePicks, redPicks, bans, draws)
  {
    var cands := CandidatesFrom(PossiblePicks, Taken(bluePicks, redPicks, bans), draws);
    var top := Take(SortDesc(cands), 2);
    SortDescMembers(cands);
    assert top[|top| - 1] in SortDesc(cands);
    TopItemsOfSortDesc(cands, 2, x);
  }

  /** The candidate loop: one draw per untaken name, in list order. */
  method CollectCandidates(names: seq<string>, takenChamps: set<string>, draws: seq<int>)
    returns (candidates: seq<Keyed<Prediction>>)
    requires |draws| >= |names|
    ensures candidates == CandidatesFrom(names, takenChamps, draws)
  {
    candidates := [];
    var i, used := 0, 0;
    while i < |names|
      invariant 0 <= used <= i <= |names|
      invariant candidates + CandidatesFrom(names[i..], takenChamps, draws[used..])
                == CandidatesFrom(names, takenChamps, draws)
    {
      var p := names[i];
      CandidatesStep(names, takenChamps, draws, i, used, candidates);
      if p !in takenChamps {
        var confidence := draws[used];
        candidates := candidates + [Keyed(Prediction(p, confidence, PredictionReason), confidence)];
        used := used + 1;
      }
      i := i + 1;
    }
    assert CandidatesFrom(names[i..], takenChamps, draws[used..]) == [];
  }

  /** One step of the candidate loop: the name at `i` either is skipped or takes draw `used`,
      and the candidates so far plus those of the remaining names stay the whole list. */
  lemma CandidatesStep(names: seq<string>, taken: set<string>, draws: seq<int>, i: nat, used: nat,
                       done: seq<Keyed<Prediction>>)
    requires used <= i < |names| && |draws| >= |names|
    requires done + CandidatesFrom(names[i..], taken, draws[used..]) == CandidatesFrom(names, taken, draws)
    ensures names[i] in taken ==>
      done + CandidatesFrom(names[i + 1..], taken, draws[used..]) == CandidatesFrom(names, taken, draws)
    ensures names[i] !in taken ==>
      (done + [Keyed(Prediction(names[i], draws[used], PredictionReason), draws[used])])
      + CandidatesFrom(names[i + 1..], taken, draws[used + 1..]) == CandidatesFrom(names, taken, draws)
  {
    assert names[i..][1..] == names[i + 1..];
    assert draws[used..][1..] == draws[used + 1..];
    if names[i] !in taken {
      var head := Keyed(Prediction(names[i], draws[used], PredictionReason), draws[used]);
      var rest := CandidatesFrom(names[i + 1..], taken, draws[used + 1..]);
      assert CandidatesFrom(names[i..], taken, draws[used..]) == [head] + rest;
      assert (done + [head]) + rest == done + ([head] + rest);
    }
  }

  /** The prediction: the taken set, the candidate loop, then a stable sort by confidence and
      the first two. The team to move does not affect the result. */
  method PredictNextPick(bluePicks: seq<string>, redPicks: seq<string>, bans: seq<string>, nextTeam: string,
                         draws: seq<int>) returns (r: seq<Prediction>)
    requires DrawsReady(draws)
    ensures r == Predictions(bluePicks, redPicks, bans, draws)
  {
    var takenChamps := Taken(bluePicks, redPicks, bans);
    var candidates := CollectCandidates(PossiblePicks, takenChamps, draws);
    var sorted := SortedCopy(candidates);
    r := Items(Take(sorted, 2));
  }

  // ---------------------------------------------------------------------------------------
  // Pocket picks

  const KnownPockets: seq<string> := ["Draven", "Bard", "Riven", "Nidalee"]

  /** The one-trick alert on `pick`: its message names the pick. */
  function OneTrickAlert(pick: string): (a: Alert)
    ensures a.champion == pick && a.alertType == "ONE-TRICK ALERT"
    ensures |a.message| > 23 + |pick| && a.message[23..23 + |pick|] == pick
  {
    Alert(pick, "ONE-TRICK ALERT", "Opponent has 80% WR on " + pick + " in SoloQ. Respect ban required next game.")
  }

  /** The mastery alert on `pick`: its message names the pick. */
  function MasteryAlert(pick: string): (a: Alert)
    ensures a.champion == pick && a.alertType == "MASTERY ALERT"
    ensures |a.message| > 22 + |pick| && a.message[22..22 + |pick|] == pick
  {
    Alert(pick, "MASTERY ALERT", "Player proficiency on " + pick + " is in top 1%.")
  }

  /** One one-trick alert per enemy pick on the pocket list, in pick order. */
  function OneTrickAlerts(picks: seq<string>): (r: seq<Alert>)
    ensures |r| <= |picks|
    ensures forall a :: a in r ==> a.alertType == "ONE-TRICK ALERT" && a.champion in picks && a.champion in KnownPockets
    ensures r == [] <==> forall p :: p in picks ==> p !in KnownPockets
    ensures forall k :: 0 <= k < |picks| && picks[k] in KnownPockets ==> OneTrickAlert(picks[k]) in r
  {
    if picks == [] then []
    else
      var init, p := picks[..|picks| - 1], picks[|picks| - 1];
      assert picks == init + [p];
      assert forall k :: 0 <= k < |init| ==> picks[k] == init[k];
      OneTrickAlerts(init) + (if p in KnownPockets then [OneTrickAlert(p)] else [])
  }

  /** How many of the picks are on the pocket list, counted from the front. */
  function PocketCount(picks: seq<string>): nat
  {
    if picks == [] then 0
    else (if picks[0] in KnownPockets then 1 else 0) + PocketCount(picks[1..])
  }

  lemma {:induction false} PocketCountSnoc(picks: seq<string>, p: string)
    ensures PocketCount(picks + [p]) == PocketCount(picks) + (if p in KnownPockets then 1 else 0)
  {
    if picks != [] {
      assert (picks + [p])[1..] == picks[1..] + [p];
      PocketCountSnoc(picks[1..], p);
    }
  }

  /** Exactly one one-trick alert per pocket pick. */
  lemma {:induction false} OneTrickAlertsCount(picks: seq<string>)
    ensures |OneTrickAlerts(picks)| == PocketCount(picks)
  {
    if picks != [] {
      var init := picks[..|picks| - 1];
      assert picks == init + [picks[|picks| - 1]];
      OneTrickAlertsCount(init);
      PocketCountSnoc(init, picks[|picks| - 1]);
    }
  }

  /** The alerts follow the picks: those for a first group of picks come before those for the
      rest. */
  lemma {:induction false} OneTrickAlertsAppend(a: seq<string>, b: seq<string>)
    ensures OneTrickAlerts(a + b) == OneTrickAlerts(a) + OneTrickAlerts(b)
  {
    if b != [] {
      var init, p := b[..|b| - 1], b[|b| - 1];
      assert b == init + [p];
      assert a + b == (a + init) + [p];
      assert (a + b)[..|a + b| - 1] == a + init;
      OneTrickAlertsAppend(a, init);
    } else {
      assert a + b == a;
    }
  }

  /** The pocket-pick loop, then the mastery alert on the first pick when nothing was flagged
      and the enemy has more than one pick. */
  method CheckPocketPicks(enemyTeamPicks: seq<string>) returns (alerts: seq<Alert>)
    ensures alerts == OneTrickAlerts(enemyTeamPicks)
                      + (if OneTrickAlerts(enemyTeamPicks) == [] && |enemyTeamPicks| > 1
                         then [MasteryAlert(enemyTeamPicks[0])] else [])
  {
    alerts := [];
    var i := 0;
    while i < |enemyTeamPicks|
      invariant 0 <= i <= |enemyTeamPicks|
      invariant alerts == OneTrickAlerts(enemyTeamPicks[..i])
    {
      var pick := enemyTeamPicks[i];
      if pick in KnownPockets {
        alerts := alerts + [OneTrickAlert(pick)];
      }
      assert enemyTeamPicks[..i + 1][..i] == enemyTeamPicks[..i];
      i := i + 1;
    }
    assert enemyTeamPicks[..i] == enemyTeamPicks;
    if alerts == [] && |enemyTeamPicks| > 1 {
      alerts := alerts + [MasteryAlert(enemyTeamPicks[0])];
    }
  }

  /** A mastery alert appears exactly when no enemy pick is a known pocket and there are at
      least two picks; it names the first pick and is the only alert. */
  lemma MasteryAlertRule(enemyTeamPicks: seq<string>)
    ensures var alerts := OneTrickAlerts(enemyTeamPicks)
                          + (if OneTrickAlerts(enemyTeamPicks) == [] && |enemyTeamPicks| > 1
                             then [MasteryAlert(enemyTeamPicks[0])] else []);
      && ((exists a :: a in alerts && a.alertType == "MASTERY ALERT") <==>
            (forall p :: p in enemyTeamPicks ==> p !in KnownPockets) && |enemyTeamPicks| > 1)
      && (forall a :: a in alerts && a.alertType == "MASTERY ALERT" ==>
            alerts == [a] && a.champion == enemyTeamPicks[0])
  {
    var tricks := OneTrickAlerts(enemyTeamPicks);
    assert |"ONE-TRICK ALERT"| != |"MASTERY ALERT"|;
    if tricks == [] && |enemyTeamPicks| > 1 {
      assert tricks + [MasteryAlert(enemyTeamPicks[0])] == [MasteryAlert(enemyTeamPicks[0])];
    } else {
      assert tricks + [] == tricks;
    }
  }
}
