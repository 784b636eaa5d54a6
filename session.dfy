/** The page as a whole: `App` holds the item list and `receiptData`, and
    renders the receipt while `receiptData` is set and the menu, with its own
    counters, while it is null. Each user action replaces the state wholesale. */
module Session {
  import opened Wrappers
  import opened Catalog
  import opened Quantities
  import Receipts

  /** The screen on show. The counters live in the menu and exist only while it
      is mounted; the receipt screen holds the receipt it was given. */
  datatype Page = MenuPage(quantities: seq<int>) | ReceiptPage(receipt: Receipts.Receipt)

  /** The item list, the screen, and what the browser store holds under the
      item-list key. */
  datatype State = State(itemList: seq<Item>, page: Page, stored: Option<seq<Item>>)

  /** The user actions the page offers. `price` is what `Number(...)` made of
      the price field, `None` for `NaN`. */
  datatype Event =
    | QuantityClicked(index: int, delta: int)
    | GenerateClicked
    | CloseClicked
    | AddSubmitted(rawName: string, price: Option<int>)

  /** `App`'s `receiptData`: set exactly while the receipt is on show. */
  function ReceiptData(s: State): (r: Option<Receipts.Receipt>)
    ensures r.Some? <==> s.page.ReceiptPage?
  {
    match s.page
    case ReceiptPage(receipt) => Some(receipt)
    case MenuPage(_) => None
  }

  /** A freshly mounted menu: one zero counter per entry of the current list. */
  function MountMenu(itemList: seq<Item>): (p: Page)
    ensures p.MenuPage? && |p.quantities| == |itemList|
    ensures forall i :: 0 <= i < |p.quantities| ==> p.quantities[i] == 0
  {
    MenuPage(Zeros(|itemList|))
  }

  /** The page at start-up: the stored list or the defaults, `receiptData`
      null, so the menu is mounted with all counters at zero. */
  function Start(stored: Option<seq<Item>>, defaults: seq<Item>): (s: State)
    ensures ReceiptData(s) == None && s.stored == stored
    ensures stored.Some? ==> s.itemList == stored.value
    ensures stored.None? ==> s.itemList == defaults
    ensures s.page.quantities == Zeros(|s.itemList|)
  {
    var itemList := Load(stored, defaults);
    State(itemList, MountMenu(itemList), stored)
  }

  /** One user action. Actions whose buttons are not on screen change nothing.
      A successful add replaces the list and writes it to the store; the
      counters of the mounted menu keep their length. Closing the receipt
      mounts a new menu, sized to the list as it now is. The item list only
      ever grows at its end. */
  function Step(s: State, e: Event): (r: State)
    ensures s.itemList <= r.itemList
  {
    match (s.page, e)
    case (MenuPage(q), QuantityClicked(index, delta)) =>
      s.(page := MenuPage(Adjust(q, index, delta)))
    case (MenuPage(q), GenerateClicked) =>
      s.(page := ReceiptPage(Receipts.GenerateReceipt(s.itemList, q)))
    case (MenuPage(_), AddSubmitted(rawName, price)) =>
      if NewItem(rawName, price).None? then s
      else
        var itemList := AddItem(s.itemList, rawName, price);
        s.(itemList := itemList, stored := Some(itemList))
    case (ReceiptPage(_), CloseClicked) =>
      s.(page := MountMenu(s.itemList))
    case _ => s
  }

  /** The state after a sequence of actions; the item list only grows. */
  function Run(s: State, events: seq<Event>): (r: State)
    ensures s.itemList <= r.itemList
    decreases |events|
  {
    if events == [] then s else Run(Step(s, events[0]), events[1..])
  }

  /** What holds of every reachable state: the item list is what a reload
      would read, and the mounted menu's counters are non-negative and no
      longer than the list (entries added since it was mounted have none). */
  predicate Valid(s: State, defaults: seq<Item>) {
    && s.itemList == Load(s.stored, defaults)
    && (s.page.MenuPage? ==> NonNegative(s.page.quantities) && |s.page.quantities| <= |s.itemList|)
  }

  lemma StartValid(stored: Option<seq<Item>>, defaults: seq<Item>)
    ensures Valid(Start(stored, defaults), defaults)
  {
  }

  lemma StepPreservesValid(s: State, e: Event, defaults: seq<Item>)
    requires Valid(s, defaults)
    ensures Valid(Step(s, e), defaults)
  {
  }

  /** Every sequence of actions from a valid state ends in a valid state. */
  lemma {:induction false} RunPreservesValid(s: State, events: seq<Event>, defaults: seq<Item>)
    requires Valid(s, defaults)
    ensures Valid(Run(s, events), defaults)
    decreases |events|
  {
    if events != [] {
      StepPreservesValid(s, events[0], defaults);
      RunPreservesValid(Step(s, events[0]), events[1..], defaults);
    }
  }

  /** A reload after any sequence of actions shows the same item list. */
  lemma ReloadRestoresItemList(stored: Option<seq<Item>>, defaults: seq<Item>, events: seq<Event>)
    ensures var s := Run(Start(stored, defaults), events);
      Start(s.stored, defaults).itemList == s.itemList
  {
    StartValid(stored, defaults);
    RunPreservesValid(Start(stored, defaults), events, defaults);
  }

  /** Generating a receipt and closing it gives back the menu for the same
      list, with every counter reset to zero and one counter per entry. */
  lemma GenerateThenClose(s: State)
    requires s.page.MenuPage?
    ensures var shown := Step(s, GenerateClicked);
      && ReceiptData(shown) == Some(Receipts.GenerateReceipt(s.itemList, s.page.quantities))
      && var back := Step(shown, CloseClicked);
         ReceiptData(back) == None && back.itemList == s.itemList && back.page.quantities == Zeros(|s.itemList|)
  {
  }

  /** A successful add leaves the mounted menu's counters as they were: the
      new entry's buttons do nothing, and the receipt generated before the
      menu is remounted is the one for the list without the new entry. */
  lemma AddedItemUncounted(s: State, rawName: string, price: Option<int>, delta: int, defaults: seq<Item>)
    requires Valid(s, defaults) && s.page.MenuPage?
    requires NewItem(rawName, price).Some?
    ensures var added := Step(s, AddSubmitted(rawName, price));
      && |added.itemList| == |s.itemList| + 1
      && added.page == s.page
      && Step(added, QuantityClicked(|s.itemList|, delta)) == added
      && ReceiptData(Step(added, GenerateClicked)) == Some(Receipts.GenerateReceipt(s.itemList, s.page.quantities))
  {
    var added := Step(s, AddSubmitted(rawName, price));
    var q := s.page.quantities;
    AdjustOutOfRange(q, |s.itemList|, delta);
    assert added.itemList == s.itemList + [NewItem(rawName, price).value];
    Receipts.ReceiptIgnoresUncountedItems(s.itemList, [NewItem(rawName, price).value], q);
  }

  /** A rejected add changes nothing, the store included. */
  lemma RejectedAddChangesNothing(s: State, rawName: string, price: Option<int>)
    requires Trim(rawName) == [] || price.None? || price.value <= 0
    ensures Step(s, AddSubmitted(rawName, price)) == s
  {
  }

  /** A "-" or "+" click on the menu changes only the counters, to their adjusted copy. */
  lemma QuantityClickEffect(s: State, index: int, delta: int)
    requires s.page.MenuPage?
    ensures var r := Step(s, QuantityClicked(index, delta));
      && r.itemList == s.itemList && r.stored == s.stored && ReceiptData(r) == None
      && |r.page.quantities| == |s.page.quantities|
      && (forall i :: 0 <= i < |s.page.quantities| && i != index ==> r.page.quantities[i] == s.page.quantities[i])
      && (0 <= index < |s.page.quantities| ==> r.page.quantities[index] == Max(0, s.page.quantities[index] + delta))
  {
  }

  /** An accepted add appends the new entry, writes the new list to the store,
      and leaves the mounted menu's counters alone. */
  lemma AcceptedAddEffect(s: State, rawName: string, price: Option<int>)
    requires s.page.MenuPage?
    requires Trim(rawName) != [] && price.Some? && price.value > 0
    ensures var r := Step(s, AddSubmitted(rawName, price));
      && r.itemList == s.itemList + [Item(Trim(rawName), price.value)]
      && r.stored == Some(r.itemList)
      && r.page == s.page
  {
  }
}
