/** The draft board's state and its transitions: activating a slot, selecting and clearing a
    champion, the selectable-champion filter, the per-team slot view, the win-probability history
    and the series score. */
module App {
  import opened Types
  import opened Text

  /** One point of the win-probability chart. */
  datatype ProbPoint = ProbPoint(step: nat, prob: int)

  datatype Score = Score(blue: nat, red: nat)

  /** A slot tagged with its position on the board. */
  datatype IndexedSlot = IndexedSlot(slot: DraftSlot, originalIndex: nat)

  const InitialHistory: seq<ProbPoint> := [ProbPoint(0, 50)]

  /** No slot is active. */
  predicate NoneActive(slots: seq<DraftSlot>)
  {
    forall k :: 0 <= k < |slots| ==> !slots[k].isActive
  }

  /** Two slots agree on everything but their champion and their active flag. */
  predicate SameLayout(a: DraftSlot, b: DraftSlot)
  {
    a.phase == b.phase && a.team == b.team && a.kind == b.kind
  }

  /** No champion is in two slots. */
  predicate NoDuplicates(slots: seq<DraftSlot>)
  {
    forall j, k :: 0 <= j < k < |slots| && slots[j].champion.Some? && slots[k].champion.Some? ==>
      slots[j].champion.value.id != slots[k].champion.value.id
  }

  /** The board with exactly slot `i` active and nothing else changed. */
  function WithOnlyActive(slots: seq<DraftSlot>, i: nat): (r: seq<DraftSlot>)
    ensures |r| == |slots|
    ensures forall k :: 0 <= k < |r| ==> r[k] == slots[k].(isActive := k == i)
  {
    seq(|slots|, k requires 0 <= k < |slots| => slots[k].(isActive := k == i))
  }

  /** Activating slot `i` leaves exactly that slot active and changes no champion. */
  lemma ActivateLeavesOneActive(slots: seq<DraftSlot>, i: nat)
    requires i < |slots|
    ensures var r := WithOnlyActive(slots, i);
      && (forall k :: 0 <= k < |r| ==> (r[k].isActive <==> k == i))
      && (forall k :: 0 <= k < |r| ==> r[k].champion == slots[k].champion && SameLayout(r[k], slots[k]))
      && UsedIds(r) == UsedIds(slots)
  {
    var r := WithOnlyActive(slots, i);
    forall id | id in UsedIds(slots)
      ensures id in UsedIds(r)
    {
      var s :| s in slots && s.champion.Some? && s.champion.value.id == id;
      var k :| 0 <= k < |slots| && slots[k] == s;
      assert r[k] in r;
    }
    forall id | id in UsedIds(r)
      ensures id in UsedIds(slots)
    {
      var s :| s in r && s.champion.Some? && s.champion.value.id == id;
      var k :| 0 <= k < |r| && r[k] == s;
      assert slots[k] in slots;
    }
  }

  /** The champions the picker offers: catalog champions whose lower-cased name contains the
      lower-cased search term and which are in no slot. */
  function Selectable(catalog: seq<Champion>, slots: seq<DraftSlot>, searchTerm: string): (r: seq<Champion>)
    ensures |r| <= |catalog|
    ensures forall c :: c in r <==>
      c in catalog && Contains(Lower(c.name), Lower(searchTerm)) && c.id !in UsedIds(slots)
  {
    if catalog == [] then []
    else
      var init, c := catalog[..|catalog| - 1], catalog[|catalog| - 1];
      assert catalog == init + [c];
      Selectable(init, slots, searchTerm)
      + (if Contains(Lower(c.name), Lower(searchTerm)) && c.id !in UsedIds(slots) then [c] else [])
  }

  /** The position of the first catalog champion called `name`, the one a search front to
      back finds; `None` when no champion has that name. */
  function FirstByName(catalog: seq<Champion>, name: string): (r: Option<nat>)
    ensures r.None? <==> forall c :: c in catalog ==> c.name != name
    ensures r.Some? ==>
      r.value < |catalog| && catalog[r.value].name == name
      && forall m :: 0 <= m < r.value ==> catalog[m].name != name
  {
    if catalog == [] then None
    else if catalog[0].name == name then Some(0)
    else
      match FirstByName(catalog[1..], name)
      case None => None
      case Some(k) => Some(k + 1)
  }

  /** The slots of one team and kind, in board order, each tagged with its index. */
  function TeamSlots(slots: seq<DraftSlot>, team: Team, kind: SlotType): (r: seq<IndexedSlot>)
    ensures |r| <= |slots|
  {
    if slots == [] then []
    else
      var n := |slots| - 1;
      TeamSlots(slots[..n], team, kind)
      + (if slots[n].team == team && slots[n].kind == kind then [IndexedSlot(slots[n], n)] else [])
  }

  /** The view holds exactly the slots of that team and kind, each with its true index, in
      board order. */
  lemma {:induction false} TeamSlotsExact(slots: seq<DraftSlot>, team: Team, kind: SlotType)
    ensures var r := TeamSlots(slots, team, kind);
      && (forall x :: x in r ==>
            x.originalIndex < |slots| && slots[x.originalIndex] == x.slot
            && x.slot.team == team && x.slot.kind == kind)
      && (forall k :: 0 <= k < |slots| && slots[k].team == team && slots[k].kind == kind ==>
            IndexedSlot(slots[k], k) in r)
      && (forall i, j :: 0 <= i < j < |r| ==> r[i].originalIndex < r[j].originalIndex)
  {
    if slots != [] {
      var n := |slots| - 1;
      var init := slots[..n];
      var r0 := TeamSlots(init, team, kind);
      var tail := if slots[n].team == team && slots[n].kind == kind then [IndexedSlot(slots[n], n)] else [];
      var r := TeamSlots(slots, team, kind);
      TeamSlotsExact(init, team, kind);
      assert r == r0 + tail;
      forall x | x in r
        ensures x.originalIndex < |slots| && slots[x.originalIndex] == x.slot
        ensures x.slot.team == team && x.slot.kind == kind
      {
        if x in r0 {
          assert init[x.originalIndex] == slots[x.originalIndex];
        }
      }
      forall k | 0 <= k < |slots| && slots[k].team == team && slots[k].kind == kind
        ensures IndexedSlot(slots[k], k) in r
      {
        if k < n {
          assert init[k] == slots[k];
          assert IndexedSlot(init[k], k) in r0;
        }
      }
      forall i, j | 0 <= i < j < |r|
        ensures r[i].originalIndex < r[j].originalIndex
      {
        if j >= |r0| {
          assert r[i] == r0[i] && r0[i] in r0;
        } else {
          assert r[i] == r0[i] && r[j] == r0[j];
        }
      }
    }
  }

  /** Filling slot `i` with a champion the picker offers never puts one champion in two slots. */
  lemma SelectKeepsNoDuplicates(catalog: seq<Champion>, slots: seq<DraftSlot>, searchTerm: string,
                                i: nat, c: Champion)
    requires NoDuplicates(slots) && i < |slots|
    requires c in Selectable(catalog, slots, searchTerm)
    ensures NoDuplicates(slots[i := slots[i].(champion := Some(c), isActive := false)])
  {
    var r := slots[i := slots[i].(champion := Some(c), isActive := false)];
    forall j, k | 0 <= j < k < |r| && r[j].champion.Some? && r[k].champion.Some?
      ensures r[j].champion.value.id != r[k].champion.value.id
    {
      if j == i {
        assert slots[k] in slots;
      } else if k == i {
        assert slots[j] in slots;
      }
    }
  }

  /** The draft board. `initialSlots` is the empty board a new game starts from. */
  class DraftBoard {
    const initialSlots: seq<DraftSlot>
    var slots: seq<DraftSlot>
    var activeSlotIndex: Option<nat>
    var isSelectionOpen: bool
    var searchTerm: string
    var winProbHistory: seq<ProbPoint>
    var score: Score
    var notification: Option<string>

    /** The board keeps the initial layout, at most the slot at `activeSlotIndex` is active,
        and the history's steps count up from 0. */
    ghost predicate Valid()
      reads this
    {
      && |slots| == |initialSlots|
      && (forall k :: 0 <= k < |slots| ==> SameLayout(slots[k], initialSlots[k]))
      && NoneActive(initialSlots)
      && (activeSlotIndex.Some? ==> activeSlotIndex.value < |slots|)
      && (forall k :: 0 <= k < |slots| && slots[k].isActive ==> activeSlotIndex == Some(k))
      && |winProbHistory| > 0
      && (forall k :: 0 <= k < |winProbHistory| ==> winProbHistory[k].step == k)
    }

    constructor(initial: seq<DraftSlot>)
      requires NoneActive(initial)
      ensures Valid()
      ensures initialSlots == initial && slots == initial
      ensures activeSlotIndex.None? && !isSelectionOpen && searchTerm == ""
      ensures winProbHistory == InitialHistory && score == Score(0, 0) && notification.None?
    {
      initialSlots := initial;
      slots := initial;
      activeSlotIndex := None;
      isSelectionOpen := false;
      searchTerm := "";
      winProbHistory := InitialHistory;
      score := Score(0, 0);
      notification := None;
    }

    /** Clicking slot `i`: it becomes the only active slot and the picker closes. */
    method ActivateSlot(i: nat)
      requires Valid() && i < |slots|
      modifies this
      ensures Valid()
      ensures slots == WithOnlyActive(old(slots), i) && activeSlotIndex == Some(i) && !isSelectionOpen
      ensures searchTerm == old(searchTerm) && winProbHistory == old(winProbHistory)
      ensures score == old(score) && notification == old(notification)
    {
      slots := WithOnlyActive(slots, i);
      activeSlotIndex := Some(i);
      isSelectionOpen := false;
    }

    /** Opening the picker on slot `i`: it becomes the only active slot and the picker opens. */
    method OpenSelection(i: nat)
      requires Valid() && i < |slots|
      modifies this
      ensures Valid()
      ensures slots == WithOnlyActive(old(slots), i) && activeSlotIndex == Some(i) && isSelectionOpen
      ensures searchTerm == old(searchTerm) && winProbHistory == old(winProbHistory)
      ensures score == old(score) && notification == old(notification)
    {
      slots := WithOnlyActive(slots, i);
      activeSlotIndex := Some(i);
      isSelectionOpen := true;
    }

    /** Choosing a champion: with no active slot nothing happens; otherwise the active slot gets
        the champion and is deactivated, no slot stays active, the picker closes and the search
        is cleared. */
    method ChampionSelect(c: Champion)
      requires Valid()
      modifies this
      ensures Valid()
      ensures old(activeSlotIndex).None? ==>
        slots == old(slots) && activeSlotIndex.None? && isSelectionOpen == old(isSelectionOpen)
        && searchTerm == old(searchTerm)
      ensures old(activeSlotIndex).Some? ==>
        var i := old(activeSlotIndex).value;
        slots == old(slots)[i := old(slots)[i].(champion := Some(c), isActive := false)]
        && activeSlotIndex.None? && !isSelectionOpen && searchTerm == ""
      ensures NoneActive(old(slots)) ==> NoneActive(slots)
      ensures old(activeSlotIndex).Some? ==> NoneActive(slots)
      ensures winProbHistory == old(winProbHistory) && score == old(score) && notification == old(notification)
    {
      if activeSlotIndex.None? {
        return;
      }
      var i := activeSlotIndex.value;
      slots := slots[i := slots[i].(champion := Some(c), isActive := false)];
      activeSlotIndex := None;
      isSelectionOpen := false;
      searchTerm := "";
    }

    /** Clicking a recommendation selects the first catalog champion of that name, as
        `ChampionSelect` does; with no such champion, or no active slot, nothing changes. */
    method SelectRecommended(catalog: seq<Champion>, championName: string)
      requires Valid()
      modifies this
      ensures Valid()
      ensures FirstByName(catalog, championName).None? || old(activeSlotIndex).None? ==>
        slots == old(slots) && activeSlotIndex == old(activeSlotIndex)
        && isSelectionOpen == old(isSelectionOpen) && searchTerm == old(searchTerm)
      ensures FirstByName(catalog, championName).Some? && old(activeSlotIndex).Some? ==>
        var i := old(activeSlotIndex).value;
        var c := catalog[FirstByName(catalog, championName).value];
        slots == old(slots)[i := old(slots)[i].(champion := Some(c), isActive := false)]
        && activeSlotIndex.None? && !isSelectionOpen && searchTerm == ""
      ensures forall k :: 0 <= k < |slots| && slots[k].champion != old(slots)[k].champion ==>
        slots[k].champion.Some? && slots[k].champion.value in catalog
        && slots[k].champion.value.name == championName
      ensures winProbHistory == old(winProbHistory) && score == old(score) && notification == old(notification)
    {
      var k := 0;
      while k < |catalog| && catalog[k].name != championName
        invariant 0 <= k <= |catalog|
        invariant forall m :: 0 <= m < k ==> catalog[m].name != championName
      {
        k := k + 1;
      }
      if k < |catalog| {
        assert FirstByName(catalog, championName) == Some(k);
        ChampionSelect(catalog[k]);
      }
    }

    /** Clearing slot `i` empties it and changes nothing else. */
    method ClearSlot(i: nat)
      requires Valid() && i < |slots|
      modifies this
      ensures Valid()
      ensures slots == old(slots)[i := old(slots)[i].(champion := None)]
      ensures activeSlotIndex == old(activeSlotIndex) && isSelectionOpen == old(isSelectionOpen)
      ensures searchTerm == old(searchTerm) && winProbHistory == old(winProbHistory)
      ensures score == old(score) && notification == old(notification)
    {
      slots := slots[i := slots[i].(champion := None)];
    }

    method SetSearchTerm(term: string)
      requires Valid()
      modifies this
      ensures Valid()
      ensures searchTerm == term && slots == old(slots) && activeSlotIndex == old(activeSlotIndex)
      ensures isSelectionOpen == old(isSelectionOpen) && winProbHistory == old(winProbHistory)
      ensures score == old(score) && notification == old(notification)
    {
      searchTerm := term;
    }

    /** The picker's list for the current board and search term. */
    function FilteredChampions(catalog: seq<Champion>): (r: seq<Champion>)
      reads this
      ensures forall c :: c in r <==>
        c in catalog && Contains(Lower(c.name), Lower(searchTerm)) && c.id !in UsedIds(slots)
    {
      Selectable(catalog, slots, searchTerm)
    }

    /** The slots of one team and kind with their board positions. */
    function GetTeamSlots(team: Team, kind: SlotType): (r: seq<IndexedSlot>)
      reads this
      ensures forall k :: 0 <= k < |slots| ==>
        (IndexedSlot(slots[k], k) in r <==> slots[k].team == team && slots[k].kind == kind)
      ensures forall x :: x in r ==>
        x.originalIndex < |slots| && slots[x.originalIndex] == x.slot
        && x.slot.team == team && x.slot.kind == kind
      ensures forall i, j :: 0 <= i < j < |r| ==> r[i].originalIndex < r[j].originalIndex
    {
      TeamSlotsExact(slots, team, kind);
      TeamSlots(slots, team, kind)
    }

    /** A new analysis appends one chart point, one step after the last. */
    method RecordAnalysis(prob: int)
      requires Valid()
      modifies this
      ensures Valid()
      ensures winProbHistory == old(winProbHistory) + [ProbPoint(|old(winProbHistory)|, prob)]
      ensures winProbHistory[|winProbHistory| - 1].step == old(winProbHistory)[|old(winProbHistory)| - 1].step + 1
      ensures slots == old(slots) && activeSlotIndex == old(activeSlotIndex) && searchTerm == old(searchTerm)
      ensures isSelectionOpen == old(isSelectionOpen) && score == old(score) && notification == old(notification)
    {
      var lastStep := winProbHistory[|winProbHistory| - 1].step;
      winProbHistory := winProbHistory + [ProbPoint(lastStep + 1, prob)];
    }

    /** The end of a game: the winner's score goes up by one and the victory banner shows. */
    method GameEnd(winner: Team)
      requires Valid()
      modifies this
      ensures Valid()
      ensures winner == Blue ==> score == Score(old(score).blue + 1, old(score).red)
      ensures winner == Red ==> score == Score(old(score).blue, old(score).red + 1)
      ensures notification == Some(VictoryBanner(winner))
      ensures slots == old(slots) && activeSlotIndex == old(activeSlotIndex) && searchTerm == old(searchTerm)
      ensures isSelectionOpen == old(isSelectionOpen) && winProbHistory == old(winProbHistory)
    {
      if winner == Blue {
        score := score.(blue := score.blue + 1);
      } else {
        score := score.(red := score.red + 1);
      }
      notification := Some(VictoryBanner(winner));
    }

    /** The delayed reset after a game: the empty board, the initial chart and no banner. The
        active index, picker and search are left as they were. */
    method ResetAfterGame()
      requires Valid()
      modifies this
      ensures Valid()
      ensures slots == initialSlots && winProbHistory == InitialHistory && notification.None?
      ensures NoneActive(slots)
      ensures activeSlotIndex == old(activeSlotIndex) && searchTerm == old(searchTerm)
      ensures isSelectionOpen == old(isSelectionOpen) && score == old(score)
    {
      slots := initialSlots;
      winProbHistory := InitialHistory;
      notification := None;
    }
  }

  /** The banner text: the winner's name in capitals followed by the victory message. */
  function VictoryBanner(winner: Team): (t: string)
    ensures |t| > 22 && t[|t| - 22..] == " VICTORY! Resetting..."
    ensures t[0] == 'B' <==> winner == Blue
  {
    (if winner == Blue then "BLUE" else "RED") + " VICTORY! Resetting..."
  }
}
