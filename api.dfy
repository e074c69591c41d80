/** The analysis request the board sends and the offline fallback that stands in for the
    backend's response when it cannot be reached. */
module Api {
  import opened Types
  import opened Text
  import opened GridService

  /** A predicted enemy pick. */
  datatype Prediction = Prediction(champion: string, confidence: int, reason: string)

  /** A warning about one champion; `alertType` is the label shown with it. */
  datatype Alert = Alert(champion: string, alertType: string, message: string)

  /** The backend's answer, in the shape the board reads. */
  datatype AnalysisResponse = AnalysisResponse(blueWinProbability: int, blueSynergyScore: int,
                                               redSynergyScore: int, predictions: seq<Prediction>,
                                               alerts: seq<Alert>)

  /** The four id lists posted to the backend. */
  datatype AnalysisRequest = AnalysisRequest(bluePicks: seq<string>, redPicks: seq<string>,
                                             blueBans: seq<string>, redBans: seq<string>)

  /** The ids of the filled slots of each team and kind, in board order. */
  function BuildRequest(slots: seq<DraftSlot>): (q: AnalysisRequest)
    ensures q.bluePicks == IdsOf(FilledOf(slots, Blue, Pick)) && q.redPicks == IdsOf(FilledOf(slots, Red, Pick))
    ensures q.blueBans == IdsOf(FilledOf(slots, Blue, Ban)) && q.redBans == IdsOf(FilledOf(slots, Red, Ban))
    ensures |q.bluePicks| + |q.redPicks| + |q.blueBans| + |q.redBans| == FilledCount(slots)
  {
    FilledOfSplit(slots);
    AnalysisRequest(IdsOf(FilledOf(slots, Blue, Pick)), IdsOf(FilledOf(slots, Red, Pick)),
                    IdsOf(FilledOf(slots, Blue, Ban)), IdsOf(FilledOf(slots, Red, Ban)))
  }

  /** Each list of the request holds exactly the ids of the champions in the filled slots of
      its team and kind. */
  lemma RequestListExact(slots: seq<DraftSlot>, team: Team, kind: SlotType)
    ensures forall id :: id in IdsOf(FilledOf(slots, team, kind)) <==>
      exists k :: 0 <= k < |slots| && FilledAs(slots[k], team, kind) && slots[k].champion.value.id == id
  {
    var cs := FilledOf(slots, team, kind);
    var ids := IdsOf(cs);
    forall id
      ensures id in ids <==>
        exists k :: 0 <= k < |slots| && FilledAs(slots[k], team, kind) && slots[k].champion.value.id == id
    {
      if id in ids {
        var m :| 0 <= m < |ids| && ids[m] == id;
        assert cs[m] in cs;
        var s :| s in slots && FilledAs(s, team, kind) && s.champion == Some(cs[m]);
        var k :| 0 <= k < |slots| && slots[k] == s;
      }
      if exists k :: 0 <= k < |slots| && FilledAs(slots[k], team, kind) && slots[k].champion.value.id == id {
        var k :| 0 <= k < |slots| && FilledAs(slots[k], team, kind) && slots[k].champion.value.id == id;
        FilledOfComplete(slots, team, kind, k);
        var m :| 0 <= m < |cs| && cs[m] == slots[k].champion.value;
        assert ids[m] == id;
      }
    }
  }

  /** How many slots hold a champion. */
  function FilledCount(slots: seq<DraftSlot>): nat
  {
    if slots == [] then 0
    else FilledCount(slots[..|slots| - 1]) + (if slots[|slots| - 1].champion.Some? then 1 else 0)
  }

  /** Every filled slot lands in exactly one of the four lists. */
  lemma {:induction false} FilledOfSplit(slots: seq<DraftSlot>)
    ensures |FilledOf(slots, Blue, Pick)| + |FilledOf(slots, Red, Pick)|
            + |FilledOf(slots, Blue, Ban)| + |FilledOf(slots, Red, Ban)| == FilledCount(slots)
  {
    if slots != [] {
      FilledOfSplit(slots[..|slots| - 1]);
    }
  }

  /** Every id in the request is the id of a champion on a slot of the matching team and kind. */
  lemma RequestIdsComeFromSlots(slots: seq<DraftSlot>, team: Team, kind: SlotType, id: string)
    requires id in IdsOf(FilledOf(slots, team, kind))
    ensures exists s :: s in slots && FilledAs(s, team, kind) && s.champion.value.id == id
  {
    var ids := IdsOf(FilledOf(slots, team, kind));
    var k :| 0 <= k < |ids| && ids[k] == id;
    assert FilledOf(slots, team, kind)[k] in FilledOf(slots, team, kind);
  }

  /** JavaScript's Math.round(p * 0.8) for an integer p: the nearest integer to 4p/5 (4p/5 is
      never halfway between two integers). */
  function Round08(p: int): (r: int)
    ensures -2 <= 5 * r - 4 * p <= 2
  {
    (4 * p + 2) / 5
  }

  /** Round08 is the only integer that close to 4p/5. */
  lemma Round08Unique(p: int, r: int)
    requires -2 <= 5 * r - 4 * p <= 2
    ensures r == Round08(p)
  {
  }

  const MetaTank: Prediction := Prediction("Maokai", 75, "Offline Mode: Meta Tank")
  const FlexPick: Prediction := Prediction("Varus", 60, "Offline Mode: Flex Pick")

  /** A threat string as an alert: the champion is the text before the first space. */
  function ThreatAlert(t: string): (a: Alert)
    ensures a.alertType == "THREAT" && a.message == t
    ensures |a.champion| <= |t| && a.champion == t[..|a.champion|] && ' ' !in a.champion
    ensures a.champion == t || t[|a.champion|] == ' '
  {
    Alert(FirstWord(t), "THREAT", t)
  }

  function ThreatAlerts(threats: seq<string>): (r: seq<Alert>)
    ensures |r| == |threats| && forall k :: 0 <= k < |threats| ==> r[k] == ThreatAlert(threats[k])
  {
    seq(|threats|, k requires 0 <= k < |threats| => ThreatAlert(threats[k]))
  }

  /** The fallback answer built from the local heuristic analysis of the board. */
  function OfflineResponse(slots: seq<DraftSlot>): (r: AnalysisResponse)
    requires SlotIdsNonEmpty(slots)
    ensures r.blueWinProbability == Analysis(slots).blueWinProbability
    ensures 10 <= r.blueWinProbability <= 90
    ensures r.blueSynergyScore + r.redSynergyScore == 80
    ensures 8 <= r.blueSynergyScore <= 72 && 8 <= r.redSynergyScore <= 72
    ensures |r.alerts| == |Analysis(slots).opponentThreats| <= 3
    ensures forall k :: 0 <= k < |r.alerts| ==>
      r.alerts[k].alertType == "THREAT" && r.alerts[k].message == Analysis(slots).opponentThreats[k]
    ensures r.alerts == ThreatAlerts(Analysis(slots).opponentThreats)
    ensures r.predictions == (if exists s :: s in slots && s.champion.Some? then [MetaTank, FlexPick] else [])
  {
    var local := Analysis(slots);
    var p := local.blueWinProbability;
    AnalysisResponse(p, Round08(p), Round08(100 - p),
                     if exists s :: s in slots && s.champion.Some? then [MetaTank, FlexPick] else [],
                     ThreatAlerts(local.opponentThreats))
  }

  /** The fallback as the client runs it: the local analysis, two canned predictions pushed
      when any slot is filled, and one alert per threat. */
  method FetchAnalysisOffline(slots: seq<DraftSlot>) returns (r: AnalysisResponse)
    requires SlotIdsNonEmpty(slots)
    ensures r == OfflineResponse(slots)
  {
    var config := SimulationConfig(Teamfight, "14.2");
    var localAnalysis := GetHeuristicAnalysis(slots, config);

    var predictions: seq<Prediction> := [];
    var anyFilled := exists s :: s in slots && s.champion.Some?;
    if anyFilled {
      predictions := predictions + [MetaTank, FlexPick];
    }

    var alerts := ThreatAlerts(localAnalysis.opponentThreats);
    var p := localAnalysis.blueWinProbability;
    r := AnalysisResponse(p, Round08(p), Round08(100 - p), predictions, alerts);
  }

  /** For a champion whose name has no space, the alert names it. */
  lemma AlertNamesThreat(c: Champion, blues: seq<Champion>)
    requires ' ' !in c.name
    ensures ThreatAlert(ThreatLabel(c, blues)).champion == c.name
  {
    FirstWordOfSpaced(c.name, if CountersAny(c, blues) then CounterPickTag else "");
  }

  /** No filled slot, no predictions; an empty board gives the even fallback. */
  lemma EmptyBoardFallback(slots: seq<DraftSlot>)
    requires forall s :: s in slots ==> s.champion.None?
    ensures OfflineResponse(slots).predictions == []
    ensures OfflineResponse(slots).blueWinProbability == 50
    ensures OfflineResponse(slots).blueSynergyScore == 40 && OfflineResponse(slots).redSynergyScore == 40
    ensures OfflineResponse(slots).alerts == []
  {
    EmptyDraftIsEven(slots);
  }
}
