/** The item list of the point-of-sale page: its entries, the validation and
    append of the "Add New Item" form, and where the list comes from at start-up. */
module Catalog {
  import opened Wrappers

  /** A menu entry: a display name and a price in whole rupiah. */
  datatype Item = Item(name: string, price: int)

  /** The code points JavaScript's `String.prototype.trim` removes: the
      ECMAScript WhiteSpace (tab, vertical tab, form feed, space, no-break space,
      byte-order mark and the other Zs space separators) and LineTerminator
      (line feed, carriage return, line and paragraph separators) characters. */
  predicate IsTrimmable(c: char) {
    || c == '\t' || c == '\n' || c == '\U{000B}' || c == '\U{000C}' || c == '\r'
    || c == ' ' || c == '\U{00A0}' || c == '\U{1680}'
    || ('\U{2000}' <= c <= '\U{200A}')
    || c == '\U{2028}' || c == '\U{2029}' || c == '\U{202F}' || c == '\U{205F}'
    || c == '\U{3000}' || c == '\U{FEFF}'
  }

  /** `s` with its leading trimmable characters removed. */
  function TrimStart(s: string): (r: string)
    ensures |r| <= |s| && r == s[|s| - |r|..]
    ensures forall i :: 0 <= i < |s| - |r| ==> IsTrimmable(s[i])
    ensures r == [] || !IsTrimmable(r[0])
  {
    if s != [] && IsTrimmable(s[0]) then TrimStart(s[1..]) else s
  }

  /** `s` with its trailing trimmable characters removed. */
  function TrimEnd(s: string): (r: string)
    ensures |r| <= |s| && r == s[..|r|]
    ensures forall i :: |r| <= i < |s| ==> IsTrimmable(s[i])
    ensures r == [] || !IsTrimmable(r[|r| - 1])
  {
    if s != [] && IsTrimmable(s[|s| - 1]) then TrimEnd(s[..|s| - 1]) else s
  }

  /** JavaScript's `s.trim()`: the slice of `s` left once the trimmable
      characters at both ends are gone. */
  function Trim(s: string): (r: string)
    ensures exists a :: (0 <= a <= |s| - |r| && r == s[a..][..|r|]
                         && (forall i :: 0 <= i < a ==> IsTrimmable(s[i]))
                         && (forall i :: a + |r| <= i < |s| ==> IsTrimmable(s[i])))
    ensures r == [] || (!IsTrimmable(r[0]) && !IsTrimmable(r[|r| - 1]))
  {
    var t := TrimStart(s);
    var r := TrimEnd(t);
    var a := |s| - |t|;
    assert r == s[a..][..|r|];
    r
  }

  /** The trimmed name is empty exactly when the raw name is blank. */
  lemma TrimEmptyIffBlank(s: string)
    ensures Trim(s) == [] <==> forall i :: 0 <= i < |s| ==> IsTrimmable(s[i])
  {
  }

  /** Trimming an already trimmed name changes nothing. */
  lemma TrimIdempotent(s: string)
    ensures Trim(Trim(s)) == Trim(s)
  {
  }

  /** An entry the add-item form can produce: a non-empty trimmed name and a positive price. */
  predicate WellFormedItem(item: Item) {
    item.name != [] && Trim(item.name) == item.name && item.price > 0
  }

  predicate WellFormed(itemList: seq<Item>) {
    forall i :: 0 <= i < |itemList| ==> WellFormedItem(itemList[i])
  }

  /** The form check of `handleAddItem`: the trimmed name and the price read
      by `Number(...)`, where `None` stands for `NaN` (a non-numeric field).
      `!name` rejects the empty name; `!price` rejects `NaN` and zero; `price <= 0`
      rejects the rest of the non-positive prices. */
  function NewItem(rawName: string, price: Option<int>): (r: Option<Item>)
    ensures r.Some? <==> Trim(rawName) != [] && price.Some? && price.value > 0
    ensures r.Some? ==> r.value == Item(Trim(rawName), price.value) && WellFormedItem(r.value)
  {
    var name := Trim(rawName);
    if name == [] || price.None? || price.value == 0 || price.value <= 0 then None
    else
      TrimIdempotent(rawName);
      Some(Item(name, price.value))
  }

  /** The item list after the form is submitted: unchanged when the form is
      rejected, otherwise the new entry appended at the end. */
  function AddItem(itemList: seq<Item>, rawName: string, price: Option<int>): (r: seq<Item>)
    ensures Trim(rawName) == [] || price.None? || price.value <= 0 ==> r == itemList
    ensures Trim(rawName) != [] && price.Some? && price.value > 0 ==>
      && |r| == |itemList| + 1
      && r[..|itemList|] == itemList
      && r[|itemList|] == Item(Trim(rawName), price.value)
  {
    match NewItem(rawName, price)
    case None => itemList
    case Some(item) => itemList + [item]
  }

  /** Adding an item keeps every entry of the list well formed. */
  lemma AddItemPreservesWellFormed(itemList: seq<Item>, rawName: string, price: Option<int>)
    requires WellFormed(itemList)
    ensures WellFormed(AddItem(itemList, rawName, price))
  {
  }

  /** The item list at start-up: the stored list when the store yields one,
      otherwise the built-in defaults. `stored` is `None` when the key is absent
      or its stored text parses to a falsy value. */
  function Load(stored: Option<seq<Item>>, defaults: seq<Item>): (r: seq<Item>)
    ensures stored.Some? ==> r == stored.value
    ensures stored.None? ==> r == defaults
  {
    stored.GetOr(defaults)
  }
}
