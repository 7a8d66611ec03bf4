/**
 * The cascading five-slot tag selector of the add-item form.
 *
 * The form shows up to five tag `<select>`s. `selectedTags` holds their values (the empty
 * string for "none", or a tag id) and `visibleTagCount` says how many are rendered: the
 * select for slot k exists only while `visibleTagCount >= k + 1`. Picking a tag in the last
 * visible select reveals the next one; picking "none" hides and clears every later one.
 *
 * The value-level functions below specify the transitions; the class `TagSelector` performs
 * them in place on a five-element array, as the component does.
 */
module AddItemTab {
  import opened Js

  /** Index of one of the five selects. */
  type SlotIndex = i: int | 0 <= i < 5

  /** The five slot values. */
  type Slots = s: seq<IdValue> | |s| == 5 witness [Blank, Blank, Blank, Blank, Blank]

  /** The selector's state: `selectedTags` and `visibleTagCount`. */
  datatype Selector = Selector(slots: Slots, visibleTagCount: int)

  /** The counter is in [1, 5] and every slot that is not rendered is empty. */
  predicate Inv(s: Selector) {
    1 <= s.visibleTagCount <= 5 &&
    forall i :: s.visibleTagCount <= i < 5 ==> s.slots[i] == Blank
  }

  /** The state the component starts in: five empty slots, one of them visible. */
  function Initial(): (s: Selector)
    ensures Inv(s)
  {
    Selector([Blank, Blank, Blank, Blank, Blank], 1)
  }

  /** Every slot after `index` emptied and `index + 1` selects shown. */
  function Truncated(s: Selector, index: SlotIndex): Selector {
    var slots := seq(5, i requires 0 <= i < 5 => if i <= index then s.slots[i] else Blank);
    assert |slots| == 5;
    Selector(slots, index + 1)
  }

  /** `onTagSelect(index)`: a truthy value in the last visible slot reveals one more slot, up to five. */
  function AfterTagSelect(s: Selector, index: SlotIndex): Selector {
    if s.slots[index].Truthy() && s.visibleTagCount < 5 && index == s.visibleTagCount - 1
    then s.(visibleTagCount := s.visibleTagCount + 1)
    else s
  }

  /** `onTagChange(index)`: a falsy value in slots 0..3 truncates; anything else is handed to `onTagSelect`. */
  function AfterTagChange(s: Selector, index: SlotIndex): Selector {
    if !s.slots[index].Truthy() && index < 4 then Truncated(s, index) else AfterTagSelect(s, index)
  }

  /** A user's pick in one select: `v-model` writes the value, then `@change` calls `onTagChange`. */
  datatype Choice = Choice(index: SlotIndex, value: IdValue)

  function AfterChoice(s: Selector, c: Choice): Selector {
    AfterTagChange(s.(slots := s.slots[c.index := c.value]), c.index)
  }

  /** The state after a series of picks. */
  function Replay(s: Selector, cs: seq<Choice>): Selector
    decreases |cs|
  {
    if cs == [] then s else Replay(AfterChoice(s, cs[0]), cs[1..])
  }

  /** Every pick is made in a select that is rendered at that moment. */
  predicate Rendered(s: Selector, cs: seq<Choice>)
    decreases |cs|
  {
    cs == [] || (cs[0].index < s.visibleTagCount && Rendered(AfterChoice(s, cs[0]), cs[1..]))
  }

  // ---------------------------------------------------------------------------------------
  // The three cases of onTagChange

  /**
   * Truncate: clearing slot k (k < 4) leaves slots 0..k as they were, empties slots k+1..4
   * and shows exactly k+1 selects, whatever the state before.
   */
  lemma ClearTruncates(s: Selector, k: SlotIndex)
    requires k < 4 && !s.slots[k].Truthy()
    ensures var r := AfterTagChange(s, k);
      r.visibleTagCount == k + 1 &&
      (forall i :: k < i < 5 ==> r.slots[i] == Blank) &&
      (forall i :: 0 <= i <= k ==> r.slots[i] == s.slots[i])
  {
  }

  /** Expand: a truthy value in the last visible slot, with fewer than five shown, reveals exactly one more and changes no slot. */
  lemma FillLastVisibleExpands(s: Selector, k: SlotIndex)
    requires s.slots[k].Truthy() && s.visibleTagCount < 5 && k == s.visibleTagCount - 1
    ensures AfterTagChange(s, k).slots == s.slots
    ensures AfterTagChange(s, k).visibleTagCount == s.visibleTagCount + 1
  {
  }

  /** No change: a truthy value anywhere but the last visible slot, or with all five shown, leaves the state as it is. */
  lemma FillElsewhereKeepsState(s: Selector, k: SlotIndex)
    requires s.slots[k].Truthy() && (k != s.visibleTagCount - 1 || s.visibleTagCount == 5)
    ensures AfterTagChange(s, k) == s
  {
  }

  /** Clearing the fifth slot changes nothing: it is not truncated, and `onTagSelect` sees a falsy value. */
  lemma ClearLastSlotKeepsState(s: Selector)
    requires !s.slots[4].Truthy()
    ensures AfterTagChange(s, 4) == s
  {
  }

  /**
   * The counter moves only as the two cases say: it grows exactly when a truthy value lands in
   * the last visible slot below five, and it shrinks exactly when a slot before the last visible
   * one is cleared.
   */
  lemma CounterMoves(s: Selector, k: SlotIndex)
    requires Inv(s) && k < s.visibleTagCount
    ensures var n := AfterTagChange(s, k).visibleTagCount;
      (n > s.visibleTagCount <==> s.slots[k].Truthy() && s.visibleTagCount < 5 && k == s.visibleTagCount - 1) &&
      (n < s.visibleTagCount <==> !s.slots[k].Truthy() && k < s.visibleTagCount - 1) &&
      (n > s.visibleTagCount ==> n == s.visibleTagCount + 1)
  {
  }

  // ---------------------------------------------------------------------------------------
  // The invariant

  /** `onTagChange` keeps the invariant whatever the slot it is called for. */
  lemma TagChangeKeepsInv(s: Selector, index: SlotIndex)
    requires Inv(s)
    ensures Inv(AfterTagChange(s, index))
  {
  }

  /** A pick in a rendered select keeps the invariant. */
  lemma ChoiceKeepsInv(s: Selector, c: Choice)
    requires Inv(s) && c.index < s.visibleTagCount
    ensures Inv(AfterChoice(s, c))
  {
    TagChangeKeepsInv(s.(slots := s.slots[c.index := c.value]), c.index);
  }

  /**
   * For any series of picks made in rendered selects, the counter stays in [1, 5] and the
   * slots that are not rendered stay empty.
   */
  lemma {:induction false} ReplayKeepsInv(s: Selector, cs: seq<Choice>)
    requires Inv(s) && Rendered(s, cs)
    ensures Inv(Replay(s, cs))
    decreases |cs|
  {
    if cs != [] {
      ChoiceKeepsInv(s, cs[0]);
      ReplayKeepsInv(AfterChoice(s, cs[0]), cs[1..]);
    }
  }

  /** Every state the form can reach from its start satisfies the invariant. */
  lemma ReachableStatesKeepInv(cs: seq<Choice>)
    requires Rendered(Initial(), cs)
    ensures Inv(Replay(Initial(), cs))
  {
    ReplayKeepsInv(Initial(), cs);
  }

  /** The template's restriction matters: a truthy value written to a hidden select would stay there, hidden. */
  lemma HiddenPickBreaksInv()
    ensures !Inv(AfterChoice(Initial(), Choice(2, Id(7))))
  {
    assert AfterChoice(Initial(), Choice(2, Id(7))).slots[2] == Id(7);
  }

  // ---------------------------------------------------------------------------------------
  // The component, updating its array in place

  class TagSelector {
    /** `selectedTags`: the reactive five-element array the selects write into. */
    const selectedTags: array<IdValue>
    var visibleTagCount: int

    ghost function Model(): Selector
      reads this, selectedTags
      requires selectedTags.Length == 5
    {
      Selector(selectedTags[..], visibleTagCount)
    }

    ghost predicate Valid()
      reads this, selectedTags
    {
      selectedTags.Length == 5 && Inv(Model())
    }

    /** `ref(['', '', '', '', ''])` and `ref(1)`: five empty slots, one select shown. */
    constructor ()
      ensures Valid() && fresh(selectedTags)
      ensures Model() == Initial()
      ensures visibleTagCount == 1 && forall i :: 0 <= i < 5 ==> selectedTags[i] == Blank
    {
      selectedTags := new IdValue[5](_ => Blank);
      visibleTagCount := 1;
      new;
      assert selectedTags[..] == Initial().slots;
    }

    /** `onTagSelect(index)`. */
    method OnTagSelect(index: SlotIndex)
      requires Valid()
      modifies this
      ensures Valid()
      ensures Model() == AfterTagSelect(old(Model()), index)
    {
      if selectedTags[index].Truthy() && visibleTagCount < 5 && index == visibleTagCount - 1 {
        visibleTagCount := visibleTagCount + 1;
      }
    }

    /** `onTagChange(index)`: empties the later slots one by one, or defers to `onTagSelect`. */
    method OnTagChange(index: SlotIndex)
      requires Valid()
      modifies this, selectedTags
      ensures Valid()
      ensures Model() == AfterTagChange(old(Model()), index)
    {
      if !selectedTags[index].Truthy() && index < 4 {
        for i := index + 1 to 5
          invariant forall j :: 0 <= j < 5 ==> selectedTags[j] == if index < j < i then Blank else old(selectedTags[j])
          invariant visibleTagCount == old(visibleTagCount)
        {
          selectedTags[i] := Blank;
        }
        visibleTagCount := index + 1;
        assert selectedTags[..] == Truncated(old(Model()), index).slots;
      } else {
        OnTagSelect(index);
      }
    }

    /** The user picks `value` in the rendered select `index`: `v-model` writes it, then `@change` fires. */
    method Choose(index: SlotIndex, value: IdValue)
      requires Valid() && index < visibleTagCount
      modifies this, selectedTags
      ensures Valid()
      ensures Model() == AfterChoice(old(Model()), Choice(index, value))
    {
      selectedTags[index] := value;
      ChoiceKeepsInv(old(Model()), Choice(index, value));
      assert Model() == old(Model()).(slots := old(Model()).slots[index := value]);
      OnTagChange(index);
    }
  }
}
