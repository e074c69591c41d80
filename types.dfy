/** The data model of the draft board: teams, draft turns, champions, slots and the records the
    engine returns. */
module Types {

  datatype Option<T> = None | Some(value: T)

  datatype Team = Blue | Red
  datatype SlotType = Pick | Ban
  datatype Role = Top | Jungle | Mid | Bot | Support

  function Opponent(t: Team): (o: Team)
    ensures o != t
  {
    if t == Blue then Red else Blue
  }

  /** The turns of a tournament draft in the order they are taken, followed by COMPLETE. */
  datatype DraftPhase =
    | BlueBan1 | RedBan1 | BlueBan2 | RedBan2 | BlueBan3 | RedBan3
    | BluePick1 | RedPick1 | RedPick2 | BluePick2 | BluePick3 | RedPick3
    | RedBan4 | BlueBan4 | RedBan5 | BlueBan5
    | RedPick4 | BluePick4 | BluePick5 | RedPick5
    | Complete

  /** Who acts on a turn and what they do. */
  datatype Turn = Turn(team: Team, kind: SlotType)

  /** Every phase in declaration order; the position of a phase is its enum value. */
  const DraftOrder: seq<DraftPhase> := [
    BlueBan1, RedBan1, BlueBan2, RedBan2, BlueBan3, RedBan3,
    BluePick1, RedPick1, RedPick2, BluePick2, BluePick3, RedPick3,
    RedBan4, BlueBan4, RedBan5, BlueBan5,
    RedPick4, BluePick4, BluePick5, RedPick5,
    Complete]

  /** The numeric value the enum gives each phase. */
  function Ordinal(p: DraftPhase): (n: nat)
    ensures n <= 20
    ensures (n == 20) == (p == Complete)
  {
    match p
    case BlueBan1 => 0   case RedBan1 => 1    case BlueBan2 => 2   case RedBan2 => 3
    case BlueBan3 => 4   case RedBan3 => 5
    case BluePick1 => 6  case RedPick1 => 7   case RedPick2 => 8   case BluePick2 => 9
    case BluePick3 => 10 case RedPick3 => 11
    case RedBan4 => 12   case BlueBan4 => 13  case RedBan5 => 14   case BlueBan5 => 15
    case RedPick4 => 16  case BluePick4 => 17 case BluePick5 => 18 case RedPick5 => 19
    case Complete => 20
  }

  /** The team and action of a phase, or None for COMPLETE. */
  function TurnOf(p: DraftPhase): (t: Option<Turn>)
    ensures t.None? <==> p == Complete
  {
    match p
    case BlueBan1 => Some(Turn(Blue, Ban))   case RedBan1 => Some(Turn(Red, Ban))
    case BlueBan2 => Some(Turn(Blue, Ban))   case RedBan2 => Some(Turn(Red, Ban))
    case BlueBan3 => Some(Turn(Blue, Ban))   case RedBan3 => Some(Turn(Red, Ban))
    case BluePick1 => Some(Turn(Blue, Pick)) case RedPick1 => Some(Turn(Red, Pick))
    case RedPick2 => Some(Turn(Red, Pick))   case BluePick2 => Some(Turn(Blue, Pick))
    case BluePick3 => Some(Turn(Blue, Pick)) case RedPick3 => Some(Turn(Red, Pick))
    case RedBan4 => Some(Turn(Red, Ban))     case BlueBan4 => Some(Turn(Blue, Ban))
    case RedBan5 => Some(Turn(Red, Ban))     case BlueBan5 => Some(Turn(Blue, Ban))
    case RedPick4 => Some(Turn(Red, Pick))   case BluePick4 => Some(Turn(Blue, Pick))
    case BluePick5 => Some(Turn(Blue, Pick)) case RedPick5 => Some(Turn(Red, Pick))
    case Complete => None
  }

  /** The positions in the draft order at which `t` is the turn. */
  function TurnsTakenBy(t: Turn): set<nat>
  {
    set k: nat | k < |DraftOrder| && TurnOf(DraftOrder[k]) == Some(t)
  }

  /** The enum order lists every phase exactly once, at its ordinal, and COMPLETE comes last
      after twenty turns. */
  lemma DraftOrderIsEnumOrder()
    ensures |DraftOrder| == 21
    ensures forall p: DraftPhase :: DraftOrder[Ordinal(p)] == p
    ensures forall k :: 0 <= k < |DraftOrder| ==> Ordinal(DraftOrder[k]) == k
    ensures forall k :: 0 <= k < 20 ==> TurnOf(DraftOrder[k]).Some?
    ensures DraftOrder[20] == Complete
  {
    PhasesAtOrdinals();
    OrdinalsOfPhases();
  }

  lemma PhasesAtOrdinals()
    ensures forall p: DraftPhase :: DraftOrder[Ordinal(p)] == p
  {
  }

  lemma OrdinalsOfPhases()
    ensures forall k :: 0 <= k < |DraftOrder| ==> Ordinal(DraftOrder[k]) == k
  {
  }

  /** The draft alternates three bans each, then picks B,R,R,B,B,R, then bans R,B,R,B, then picks
      R,B,B,R. */
  function ExpectedTurns(t: Turn): set<nat>
  {
    match t
    case Turn(Blue, Ban) => {0, 2, 4, 13, 15}
    case Turn(Red, Ban) => {1, 3, 5, 12, 14}
    case Turn(Blue, Pick) => {6, 9, 10, 17, 18}
    case Turn(Red, Pick) => {7, 8, 11, 16, 19}
  }

  /** The draft order gives each team its turns exactly at the expected positions. */
  lemma TurnPositions(t: Turn)
    ensures TurnsTakenBy(t) == ExpectedTurns(t)
  {
    forall k: nat
      ensures k in TurnsTakenBy(t) <==> k in ExpectedTurns(t)
    {
      if k < |DraftOrder| {
        TurnAtPosition(k);
      }
    }
  }

  /** The turn at each position of the draft order, spelled out. */
  lemma TurnAtPosition(k: nat)
    requires k < |DraftOrder|
    ensures k < 20 ==> TurnOf(DraftOrder[k]).Some? && k in ExpectedTurns(TurnOf(DraftOrder[k]).value)
    ensures forall t :: k in ExpectedTurns(t) ==> TurnOf(DraftOrder[k]) == Some(t)
  {
  }

  /** Each team bans five times and picks five times. */
  lemma FivePicksFiveBansEach(t: Turn)
    ensures |TurnsTakenBy(t)| == 5
  {
    TurnPositions(t);
    ExpectedTurnsHaveFive(t);
  }

  lemma ExpectedTurnsHaveFive(t: Turn)
    ensures |ExpectedTurns(t)| == 5
  {
    match t
    case Turn(Blue, Ban) => assert |{0, 2, 4, 13, 15}| == 5;
    case Turn(Red, Ban) => assert |{1, 3, 5, 12, 14}| == 5;
    case Turn(Blue, Pick) => assert |{6, 9, 10, 17, 18}| == 5;
    case Turn(Red, Pick) => assert |{7, 8, 11, 16, 19}| == 5;
  }

  /** A champion; `counters` holds the ids of the champions it is strong against. */
  datatype Champion = Champion(id: string, name: string, roles: seq<Role>, tags: seq<string>,
                               counters: seq<string>)

  /** The counter relation is directed: `a` counters `b` when `b`'s id is listed by `a`. */
  predicate Counters(a: Champion, b: Champion)
  {
    b.id in a.counters
  }

  /** One turn of the board; `champion == None` means the slot is unfilled. */
  datatype DraftSlot = DraftSlot(phase: DraftPhase, team: Team, kind: SlotType,
                                 champion: Option<Champion>, isActive: bool)

  datatype RecType = Synergy | Counter | Comfort

  /** A suggested champion; the score is documented as lying between 0 and 100. */
  datatype Recommendation = Recommendation(championName: string, score: int, reasoning: string,
                                           kind: RecType)

  datatype AnalysisResult = AnalysisResult(blueWinProbability: int,
                                           recommendations: seq<Recommendation>,
                                           strategicInsight: string, opponentThreats: seq<string>)

  datatype OpponentStyle = Aggressive | Scaling | SplitPush | Teamfight
  datatype SimulationConfig = SimulationConfig(opponentStyle: OpponentStyle, patchVersion: string)

  datatype Tier = S | A | B | C | D
  datatype PatchStats = PatchStats(championName: string, role: Role, winRate: int, pickRate: int,
                                   banRate: int, tier: Tier)

  /** Catalog champions have non-empty ids (their first character seeds the mock stats). */
  predicate IdsNonEmpty(cs: seq<Champion>)
  {
    forall c :: c in cs ==> |c.id| > 0
  }

  /** Every champion placed on the board has a non-empty id. */
  predicate SlotIdsNonEmpty(slots: seq<DraftSlot>)
  {
    forall s :: s in slots && s.champion.Some? ==> |s.champion.value.id| > 0
  }

  /** Does slot `s` hold a champion for `team` as an action of kind `kind`? */
  predicate FilledAs(s: DraftSlot, team: Team, kind: SlotType)
  {
    s.team == team && s.kind == kind && s.champion.Some?
  }

  /** The champions in the filled slots of `team` and `kind`, in board order. */
  function FilledOf(slots: seq<DraftSlot>, team: Team, kind: SlotType): (r: seq<Champion>)
    ensures |r| <= |slots|
    ensures forall c :: c in r ==> exists s :: s in slots && FilledAs(s, team, kind) && s.champion == Some(c)
  {
    if slots == [] then []
    else
      var last := slots[|slots| - 1];
      FilledOf(slots[..|slots| - 1], team, kind) + (if FilledAs(last, team, kind) then [last.champion.value] else [])
  }

  /** Every champion in a filled slot of `team` and `kind` is listed by FilledOf. */
  lemma {:induction false} FilledOfComplete(slots: seq<DraftSlot>, team: Team, kind: SlotType, i: nat)
    requires i < |slots| && FilledAs(slots[i], team, kind)
    ensures slots[i].champion.value in FilledOf(slots, team, kind)
  {
    if i < |slots| - 1 {
      FilledOfComplete(slots[..|slots| - 1], team, kind, i);
    }
  }

  /** With no slot filled for `team` and `kind`, the list is empty. */
  lemma {:induction false} FilledOfNone(slots: seq<DraftSlot>, team: Team, kind: SlotType)
    requires forall s :: s in slots ==> !FilledAs(s, team, kind)
    ensures FilledOf(slots, team, kind) == []
  {
    if slots != [] {
      FilledOfNone(slots[..|slots| - 1], team, kind);
    }
  }

  lemma FilledOfIdsNonEmpty(slots: seq<DraftSlot>, team: Team, kind: SlotType)
    requires SlotIdsNonEmpty(slots)
    ensures IdsNonEmpty(FilledOf(slots, team, kind))
  {
  }

  /** The ids of `cs`, in order. */
  function IdsOf(cs: seq<Champion>): (ids: seq<string>)
    ensures |ids| == |cs| && forall k :: 0 <= k < |cs| ==> ids[k] == cs[k].id
  {
    seq(|cs|, k requires 0 <= k < |cs| => cs[k].id)
  }

  /** Changing a slot in a way that does not change whether, or with whom, it is filled for
      `team` and `kind` leaves that list unchanged. */
  lemma {:induction false} FilledOfUpdate(slots: seq<DraftSlot>, i: nat, s: DraftSlot, team: Team, kind: SlotType)
    requires i < |slots|
    requires FilledAs(s, team, kind) == FilledAs(slots[i], team, kind)
    requires FilledAs(s, team, kind) ==> s.champion == slots[i].champion
    ensures FilledOf(slots[i := s], team, kind) == FilledOf(slots, team, kind)
  {
    var n := |slots| - 1;
    if i < n {
      FilledOfUpdate(slots[..n], i, s, team, kind);
      assert slots[i := s][..n] == slots[..n][i := s];
    } else {
      assert slots[i := s][..n] == slots[..n];
    }
  }

  /** The ids of all champions on the board, picks and bans of both teams. */
  function UsedIds(slots: seq<DraftSlot>): (ids: set<string>)
    ensures forall s :: s in slots && s.champion.Some? ==> s.champion.value.id in ids
    ensures forall id :: id in ids ==> exists s :: s in slots && s.champion.Some? && s.champion.value.id == id
  {
    set s | s in slots && s.champion.Some? :: s.champion.value.id
  }
}
