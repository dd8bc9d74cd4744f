/** The clipboard history of ClipboardManager.kt: at most five snippets,
    newest first, without duplicates, kept in a key-value store whose keys
    `clip_0` .. `clip_4` are modelled by their index. */
module Clipboard {
  import opened TextUnits

  /** Number of slots the history is saved to and read back from. */
  const Capacity: nat := 5

  /** The key-value store: slot `i` stands for the key `clip_i`. */
  type Store = map<int, Text>

  /** The slots 0 .. n-1 that are present, in slot order. */
  function ReadSlots(store: Store, n: nat): (h: seq<Text>)
    ensures |h| <= n
  {
    if n == 0 then []
    else ReadSlots(store, n - 1) + (if n - 1 in store then [store[n - 1]] else [])
  }

  /** What `getHistory` reads back from a store. */
  function History(store: Store): (h: seq<Text>)
    ensures |h| <= Capacity
  {
    ReadSlots(store, Capacity)
  }

  /** What `forEachIndexed { putString("clip_$index", item) }` leaves in a
      freshly cleared store. */
  function Written(h: seq<Text>): (store: Store)
    ensures forall i :: i in store <==> 0 <= i < |h|
    ensures forall i | 0 <= i < |h| :: store[i] == h[i]
  {
    map i | 0 <= i < |h| :: h[i]
  }

  /** `MutableList.remove(element)`: drops the FIRST occurrence only. */
  function RemoveFirst(h: seq<Text>, t: Text): (r: seq<Text>)
    ensures t !in h ==> r == h
    ensures t in h ==> |r| == |h| - 1
  {
    if h == [] then []
    else if h[0] == t then h[1..]
    else [h[0]] + RemoveFirst(h[1..], t)
  }

  /** The list `saveToHistory` writes back for non-blank text: the old list
      without `t`, with `t` in front, cut to the capacity. */
  function Saved(h: seq<Text>, t: Text): seq<Text>
  {
    Take([t] + RemoveFirst(h, t), Capacity)
  }

  predicate NoDuplicates(h: seq<Text>)
  {
    forall i, j | 0 <= i < j < |h| :: h[i] != h[j]
  }

  /** Slots beyond `n` never change what the first `n` read back as. */
  lemma {:induction false} ReadSlotsWritten(h: seq<Text>, n: nat)
    requires n <= |h|
    ensures ReadSlots(Written(h), n) == h[..n]
  {
    if n > 0 {
      ReadSlotsWritten(h, n - 1);
      assert h[..n] == h[..n - 1] + [h[n - 1]];
    }
  }

  /** The write/read round trip of saveToHistory and getHistory. */
  lemma HistoryRoundTrip(h: seq<Text>)
    requires |h| <= Capacity
    ensures History(Written(h)) == h
  {
    var n := |h|;
    ReadSlotsWritten(h, n);
    assert h[..n] == h;
    var k := n;
    while k < Capacity
      invariant n <= k <= Capacity
      invariant ReadSlots(Written(h), k) == h
    {
      assert k !in Written(h);
      k := k + 1;
    }
  }

  class ClipboardHistory {
    /** The preferences file "clipboard_history". */
    var store: Store

    constructor (initial: Store)
      ensures store == initial
    {
      store := initial;
    }

    /** Reads `clip_0` .. `clip_4` in order, skipping absent keys. */
    method GetHistory() returns (list: seq<Text>)
      ensures list == History(store)
      ensures |list| <= Capacity
      ensures forall x | x in list :: exists i | 0 <= i < Capacity :: i in store && store[i] == x
    {
      list := [];
      for i := 0 to Capacity
        invariant list == ReadSlots(store, i)
        invariant forall x | x in list :: exists j | 0 <= j < i :: j in store && store[j] == x
      {
        if i in store {
          list := list + [store[i]];
        }
      }
    }

    /** Blank text is ignored; otherwise the store is cleared and rewritten
        with the moved-to-front, de-duplicated, truncated list. */
    method SaveToHistory(text: Text)
      modifies this
      ensures IsBlank(text) ==> store == old(store)
      ensures !IsBlank(text) ==> store == Written(Saved(old(History(store)), text))
      ensures !IsBlank(text) ==> History(store) == Saved(old(History(store)), text)
    {
      if IsBlank(text) {
        return;
      }
      var history := GetHistory();
      history := RemoveFirst(history, text);
      history := [text] + history;
      var toSave := Take(history, Capacity);
      Rewrite(toSave);
      HistoryRoundTrip(toSave);
    }

    /** One editor transaction: `clear()`, then `putString("clip_$index", item)`
        for every item, in order. */
    method Rewrite(items: seq<Text>)
      modifies this
      ensures store == Written(items)
    {
      store := map[];
      for index := 0 to |items|
        invariant store == Written(items[..index])
      {
        assert items[..index + 1] == items[..index] + [items[index]];
        store := store[index := items[index]];
      }
      assert items[..|items|] == items;
    }

    method ClearHistory()
      modifies this
      ensures store == map[]
      ensures History(store) == []
    {
      store := map[];
      HistoryRoundTrip([]);
    }
  }
}
