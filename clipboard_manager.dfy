/**
 * The clipboard history of ClipZen/ClipboardManager.swift: a poll tick that
 * compares the pasteboard's change count with the last one seen, classifies
 * the payload (a string before TIFF data), and inserts the new item at the
 * front of a history capped at fifty entries.
 */
module ClipboardHistory {
  import opened Common

  /** The item kinds of this revision (the enum at the end of ClipboardManager.swift). */
  datatype ClipboardItemType = Text | Image

  /** `content: Any`: a captured item holds either a String or Data. */
  datatype Content = StringContent(text: string) | DataContent(data: Bytes)

  /** The history entry; its timestamp is not modelled. */
  datatype ClipboardItem = ClipboardItem(id: Uuid, itemType: ClipboardItemType, content: Content)

  /** The capacity of the history. */
  const MaxItems: nat := 50

  /**
   * `Equatable` of ClipboardItem: two items are equal exactly when their ids
   * are, whatever their kind and content.
   */
  predicate SameItem(a: ClipboardItem, b: ClipboardItem): (r: bool)
    ensures r <==> a.id == b.id
  {
    a.id == b.id
  }

  /** `items.contains(where: { $0.id == id })`. */
  function HasId(items: seq<ClipboardItem>, id: Uuid): (r: bool)
    ensures r <==> exists i :: 0 <= i < |items| && items[i].id == id
  {
    if items == [] then false
    else if items[0].id == id then true
    else
      var rest := HasId(items[1..], id);
      assert rest ==> exists i :: 0 <= i < |items| && items[i].id == id by {
        if rest {
          var i :| 0 <= i < |items[1..]| && items[1..][i].id == id;
          assert items[i + 1].id == id;
        }
      }
      rest
  }

  /** The id test of `addItem` asks whether the history holds an item equal to the new one. */
  lemma {:induction false} HasIdMeansEqualPresent(items: seq<ClipboardItem>, item: ClipboardItem)
    ensures HasId(items, item.id) <==> exists x :: x in items && SameItem(x, item)
  {
    if HasId(items, item.id) {
      var i :| 0 <= i < |items| && items[i].id == item.id;
      assert items[i] in items && SameItem(items[i], item);
    }
    if exists x :: x in items && SameItem(x, item) {
      var x :| x in items && SameItem(x, item);
      var i :| 0 <= i < |items| && items[i] == x;
      assert items[i].id == item.id;
    }
  }

  ghost predicate DistinctIds(items: seq<ClipboardItem>) {
    forall i, j :: 0 <= i < j < |items| ==> items[i].id != items[j].id
  }

  /** The history invariant: at most MaxItems entries and no id twice. */
  ghost predicate WellFormed(items: seq<ClipboardItem>) {
    |items| <= MaxItems && DistinctIds(items)
  }

  /**
   * What the closure of `addItem` leaves behind: an item whose id is already
   * present is ignored; otherwise it goes in front of the previous items, and
   * the last (oldest) entry is dropped once the count passes MaxItems.
   */
  function Inserted(items: seq<ClipboardItem>, item: ClipboardItem): (r: seq<ClipboardItem>)
    ensures HasId(items, item.id) ==> r == items
    ensures !HasId(items, item.id) ==> |r| == if |items| < MaxItems then |items| + 1 else |items|
    ensures !HasId(items, item.id) ==> |r| > 0 && |r| <= |items| + 1 && r[0] == item && r[1..] == items[..|r| - 1]
  {
    if HasId(items, item.id) then items
    else
      var grown := [item] + items;
      if |grown| > MaxItems then grown[..|grown| - 1] else grown
  }

  /** Inserting keeps the history invariant. */
  lemma InsertedWellFormed(items: seq<ClipboardItem>, item: ClipboardItem)
    requires WellFormed(items)
    ensures WellFormed(Inserted(items, item))
  {
    var r := Inserted(items, item);
    if !HasId(items, item.id) {
      forall i, j | 0 <= i < j < |r| ensures r[i].id != r[j].id {
        if i == 0 {
          assert r[j] == items[j - 1];
        } else {
          assert r[i] == items[i - 1] && r[j] == items[j - 1];
        }
      }
    }
  }

  /**
   * The payload a tick records: a string when the pasteboard has one, else
   * TIFF data, else nothing.
   */
  function Observed(text: Option<string>, tiff: Option<Bytes>, id: Uuid): (r: Option<ClipboardItem>)
    ensures r.Some? <==> text.Some? || tiff.Some?
    ensures r.Some? ==> r.value.id == id
    ensures r.Some? ==> (r.value.itemType == Text <==> text.Some?)
    ensures r.Some? && text.Some? ==> r.value.content == StringContent(text.value)
    ensures r.Some? && text.None? ==> r.value.content == DataContent(tiff.value)
  {
    match text
    case Some(s) => Some(ClipboardItem(id, Text, StringContent(s)))
    case None =>
      match tiff
      case Some(d) => Some(ClipboardItem(id, Image, DataContent(d)))
      case None => None
  }

  /** The two fields of ClipboardManager. */
  datatype History = History(items: seq<ClipboardItem>, lastChangeCount: int)

  /**
   * One run of `checkForChanges` with the pasteboard's change count and
   * payload as inputs and the fresh UUID as `newId`.
   */
  function Polled(h: History, changeCount: int, text: Option<string>, tiff: Option<Bytes>, newId: Uuid): (r: History)
    ensures changeCount == h.lastChangeCount ==> r == h
    ensures changeCount != h.lastChangeCount ==> r.lastChangeCount == changeCount
    ensures changeCount != h.lastChangeCount && !(text.Some? || tiff.Some?) ==> r.items == h.items
    ensures changeCount != h.lastChangeCount && (text.Some? || tiff.Some?) ==>
              r.items == Inserted(h.items, Observed(text, tiff, newId).value)
  {
    if changeCount == h.lastChangeCount then h
    else
      match Observed(text, tiff, newId)
      case None => History(h.items, changeCount)
      case Some(item) => History(Inserted(h.items, item), changeCount)
  }

  /** A tick keeps the history invariant. */
  lemma PolledWellFormed(h: History, changeCount: int, text: Option<string>, tiff: Option<Bytes>, newId: Uuid)
    requires WellFormed(h.items)
    ensures WellFormed(Polled(h, changeCount, text, tiff, newId).items)
  {
    var o := Observed(text, tiff, newId);
    if changeCount != h.lastChangeCount && o.Some? {
      InsertedWellFormed(h.items, o.value);
    }
  }

  /** A second tick that sees the same change count adds nothing. */
  lemma PollingTwiceAddsNothing(h: History, changeCount: int, text: Option<string>, tiff: Option<Bytes>, newId: Uuid,
                                text2: Option<string>, tiff2: Option<Bytes>, newId2: Uuid)
    ensures var once := Polled(h, changeCount, text, tiff, newId);
            Polled(once, changeCount, text2, tiff2, newId2) == once
  {
  }

  /** What `copyToPasteboard` writes after clearing: (string, TIFF data). */
  function Written(item: ClipboardItem): (r: (Option<string>, Option<Bytes>))
    ensures r.0.Some? <==> item.itemType == Text && item.content.StringContent?
    ensures r.1.Some? <==> item.itemType == Image && item.content.DataContent?
    ensures r.0.Some? ==> item.content == StringContent(r.0.value)
    ensures r.1.Some? ==> item.content == DataContent(r.1.value)
  {
    match (item.itemType, item.content)
    case (Text, StringContent(s)) => (Some(s), None)
    case (Image, DataContent(d)) => (None, Some(d))
    case _ => (None, None)
  }

  /** Writing an item back and then observing the pasteboard gives the same kind and content. */
  lemma CopyThenObserve(item: ClipboardItem, id: Uuid)
    requires Written(item) != (None, None)
    ensures Observed(Written(item).0, Written(item).1, id) == Some(ClipboardItem(id, item.itemType, item.content))
  {
  }

  /**
   * `copyToPasteboard` does not touch `lastChangeCount`, and clearing the
   * pasteboard moves its change count on: the next tick records the restored
   * item again, as a new entry at the front.
   */
  lemma {:induction false} RestoredItemIsCapturedAgain(h: History, item: ClipboardItem, newId: Uuid)
    requires WellFormed(h.items)
    requires Written(item) != (None, None)
    requires !HasId(h.items, newId)
    ensures var after := Polled(h, h.lastChangeCount + 1, Written(item).0, Written(item).1, newId);
            after.lastChangeCount == h.lastChangeCount + 1 &&
            after.items[0] == ClipboardItem(newId, item.itemType, item.content) &&
            |after.items| == if |h.items| < MaxItems then |h.items| + 1 else MaxItems
  {
    CopyThenObserve(item, newId);
  }

  /** `s` with its elements in reverse order. */
  function Reversed(s: seq<ClipboardItem>): (r: seq<ClipboardItem>)
    ensures |r| == |s|
  {
    if s == [] then [] else [s[|s| - 1]] + Reversed(s[..|s| - 1])
  }

  lemma {:induction false} ReversedAt(s: seq<ClipboardItem>, k: nat)
    requires k < |s|
    ensures Reversed(s)[k] == s[|s| - 1 - k]
  {
    if k > 0 {
      ReversedAt(s[..|s| - 1], k - 1);
    }
  }

  /** The first `n` elements of `s`, or all of them when there are fewer. */
  function Take(s: seq<ClipboardItem>, n: nat): (r: seq<ClipboardItem>)
    ensures |r| == if |s| < n then |s| else n
    ensures r == s[..|r|]
  {
    if |s| < n then s else s[..n]
  }

  /** The history after capturing `news` one after the other, oldest first. */
  function InsertAll(items: seq<ClipboardItem>, news: seq<ClipboardItem>): seq<ClipboardItem>
  {
    if news == [] then items else Inserted(InsertAll(items, news[..|news| - 1]), news[|news| - 1])
  }

  /**
   * FIFO eviction: after capturing items with fresh, distinct ids, the history
   * holds exactly the MaxItems most recent ones, newest first.
   */
  lemma {:induction false} InsertAllKeepsNewest(items: seq<ClipboardItem>, news: seq<ClipboardItem>)
    requires WellFormed(items) && DistinctIds(news)
    requires forall k :: 0 <= k < |news| ==> !HasId(items, news[k].id)
    ensures InsertAll(items, news) == Take(Reversed(news) + items, MaxItems)
  {
    if news != [] {
      var older, x := news[..|news| - 1], news[|news| - 1];
      OlderCapturesFresh(items, news, older);
      InsertAllKeepsNewest(items, older);
      NewestIsFresh(items, news);
      calc {
        InsertAll(items, news);
        Inserted(InsertAll(items, older), x);
        Inserted(Take(Reversed(older) + items, MaxItems), x);
        { InsertedFreshTake(Reversed(older) + items, x); }
        Take([x] + (Reversed(older) + items), MaxItems);
        { ReversedSnoc(news, items); }
        Take(Reversed(news) + items, MaxItems);
      }
    }
  }

  /** The captures before the last one meet the lemma's requirements too. */
  lemma OlderCapturesFresh(items: seq<ClipboardItem>, news: seq<ClipboardItem>, older: seq<ClipboardItem>)
    requires DistinctIds(news) && news != [] && older == news[..|news| - 1]
    requires forall k :: 0 <= k < |news| ==> !HasId(items, news[k].id)
    ensures DistinctIds(older)
    ensures forall k :: 0 <= k < |older| ==> !HasId(items, older[k].id)
  {
  }

  lemma ReversedSnoc(news: seq<ClipboardItem>, items: seq<ClipboardItem>)
    requires news != []
    ensures Reversed(news) + items == [news[|news| - 1]] + (Reversed(news[..|news| - 1]) + items)
  {
  }

  /** The last capture's id is in neither the older captures nor the old history. */
  lemma NewestIsFresh(items: seq<ClipboardItem>, news: seq<ClipboardItem>)
    requires DistinctIds(news) && news != []
    requires forall k :: 0 <= k < |news| ==> !HasId(items, news[k].id)
    ensures !HasId(Take(Reversed(news[..|news| - 1]) + items, MaxItems), news[|news| - 1].id)
  {
    var n := |news|;
    var older, x := news[..n - 1], news[n - 1];
    var before := Take(Reversed(older) + items, MaxItems);
    forall i | 0 <= i < |before| ensures before[i].id != x.id {
      if i < |older| {
        ReversedAt(older, i);
        assert before[i] == news[n - 2 - i];
      } else {
        assert before[i] == items[i - |older|];
      }
    }
  }

  /** Inserting a fresh item into a prefix of `whole` gives the prefix of `[x] + whole`. */
  lemma InsertedFreshTake(whole: seq<ClipboardItem>, x: ClipboardItem)
    requires !HasId(Take(whole, MaxItems), x.id)
    ensures Inserted(Take(whole, MaxItems), x) == Take([x] + whole, MaxItems)
  {
  }

  /**
   * Fifty-one captures into an empty history: fifty remain, the newest is in
   * front and the first one is gone.
   */
  lemma FiftyOneCaptures(news: seq<ClipboardItem>)
    requires |news| == MaxItems + 1 && DistinctIds(news)
    ensures var r := InsertAll([], news);
            |r| == MaxItems && r[0] == news[MaxItems] && !HasId(r, news[0].id)
  {
    InsertAllKeepsNewest([], news);
    var r := InsertAll([], news);
    assert r == Reversed(news)[..MaxItems];
    ReversedAt(news, 0);
    forall i | 0 <= i < |r| ensures r[i].id != news[0].id {
      ReversedAt(news, i);
    }
  }

  /** The history without the entries equal to `item` (the same id). */
  function Without(items: seq<ClipboardItem>, item: ClipboardItem): (r: seq<ClipboardItem>)
    ensures forall x :: x in r <==> x in items && !SameItem(x, item)
    ensures |r| <= |items|
  {
    if items == [] then []
    else if SameItem(items[0], item) then Without(items[1..], item)
    else [items[0]] + Without(items[1..], item)
  }

  /** Deleting a present item from a history without repeated ids removes exactly one entry. */
  lemma {:induction false} WithoutRemovesOne(items: seq<ClipboardItem>, item: ClipboardItem)
    requires DistinctIds(items) && HasId(items, item.id)
    ensures |Without(items, item)| == |items| - 1
  {
    if SameItem(items[0], item) {
      assert !HasId(items[1..], item.id) by {
        forall i | 0 <= i < |items[1..]| ensures items[1..][i].id != item.id {
          assert items[1..][i] == items[i + 1];
        }
      }
      WithoutAbsent(items[1..], item);
    } else {
      assert HasId(items[1..], item.id) by {
        var i :| 0 <= i < |items| && items[i].id == item.id;
        assert items[1..][i - 1] == items[i];
      }
      WithoutRemovesOne(items[1..], item);
    }
  }

  lemma {:induction false} WithoutAbsent(items: seq<ClipboardItem>, item: ClipboardItem)
    requires !HasId(items, item.id)
    ensures Without(items, item) == items
  {
    if items != [] {
      assert !HasId(items[1..], item.id) by {
        forall i | 0 <= i < |items[1..]| ensures items[1..][i].id != item.id {
          assert items[1..][i] == items[i + 1];
        }
      }
      WithoutAbsent(items[1..], item);
    }
  }

  lemma WithoutKeepsWellFormed(items: seq<ClipboardItem>, item: ClipboardItem)
    requires WellFormed(items)
    ensures WellFormed(Without(items, item))
  {
    WithoutDistinct(items, item);
  }

  lemma {:induction false} WithoutDistinct(items: seq<ClipboardItem>, item: ClipboardItem)
    requires DistinctIds(items)
    ensures DistinctIds(Without(items, item))
  {
    if items != [] {
      var rest := items[1..];
      assert DistinctIds(rest) by {
        forall i, j | 0 <= i < j < |rest| ensures rest[i].id != rest[j].id {
          assert rest[i] == items[i + 1] && rest[j] == items[j + 1];
        }
      }
      WithoutDistinct(rest, item);
      if !SameItem(items[0], item) {
        var w := Without(rest, item);
        var r := [items[0]] + w;
        forall i, j | 0 <= i < j < |r| ensures r[i].id != r[j].id {
          if i == 0 {
            assert r[j] in rest;
            var k :| 0 <= k < |rest| && rest[k] == r[j];
            assert items[k + 1] == r[j];
          } else {
            assert r[i] == w[i - 1] && r[j] == w[j - 1];
          }
        }
      }
    }
  }

  /** The system pasteboard (`NSPasteboard.general`) as far as ClipZen uses it. */
  class Pasteboard {
    var changeCount: int
    var stringValue: Option<string>
    var tiffValue: Option<Bytes>

    constructor (changeCount: int, stringValue: Option<string>, tiffValue: Option<Bytes>)
      ensures this.changeCount == changeCount && this.stringValue == stringValue && this.tiffValue == tiffValue
    {
      this.changeCount := changeCount;
      this.stringValue := stringValue;
      this.tiffValue := tiffValue;
    }

    /** `clearContents()`: empties the pasteboard and moves its change count on. */
    method ClearContents()
      modifies this
      ensures changeCount == old(changeCount) + 1 && stringValue == None && tiffValue == None
    {
      changeCount := changeCount + 1;
      stringValue := None;
      tiffValue := None;
    }

    /** `setString(_:forType: .string)`. */
    method SetString(s: string)
      modifies this`stringValue
      ensures stringValue == Some(s)
    {
      stringValue := Some(s);
    }

    /** `setData(_:forType: .tiff)`. */
    method SetTiff(d: Bytes)
      modifies this`tiffValue
      ensures tiffValue == Some(d)
    {
      tiffValue := Some(d);
    }
  }

  /** ClipboardManager: the history and the last change count seen. */
  class ClipboardManager {
    var clipboardItems: seq<ClipboardItem>
    var lastChangeCount: int

    ghost predicate Valid()
      reads this
    {
      WellFormed(clipboardItems)
    }

    function State(): History
      reads this
    {
      History(clipboardItems, lastChangeCount)
    }

    /** `init`: an empty history that starts from the pasteboard's current change count. */
    constructor (changeCount: int)
      ensures Valid() && clipboardItems == [] && lastChangeCount == changeCount
    {
      clipboardItems := [];
      lastChangeCount := changeCount;
    }

    /** `checkForChanges`, with the main-queue hop of `addItem` made synchronous. */
    method CheckForChanges(changeCount: int, text: Option<string>, tiff: Option<Bytes>, newId: Uuid)
      requires Valid()
      modifies this
      ensures Valid()
      ensures State() == Polled(old(State()), changeCount, text, tiff, newId)
    {
      if changeCount != lastChangeCount {
        lastChangeCount := changeCount;
        if text.Some? {
          AddItem(ClipboardItem(newId, Text, StringContent(text.value)));
        } else if tiff.Some? {
          AddItem(ClipboardItem(newId, Image, DataContent(tiff.value)));
        }
      }
    }

    /** `addItem`: insert at index 0 unless the id is present, then drop the last beyond MaxItems. */
    method AddItem(item: ClipboardItem)
      requires Valid()
      modifies this`clipboardItems
      ensures Valid()
      ensures clipboardItems == Inserted(old(clipboardItems), item)
    {
      InsertedWellFormed(clipboardItems, item);
      if !HasId(clipboardItems, item.id) {
        clipboardItems := [item] + clipboardItems;
        if |clipboardItems| > MaxItems {
          clipboardItems := clipboardItems[..|clipboardItems| - 1];
        }
      }
    }

    /** `copyToPasteboard`: clear, then write a text item's string or an image item's data. */
    method CopyToPasteboard(item: ClipboardItem, pasteboard: Pasteboard)
      modifies pasteboard
      ensures pasteboard.changeCount == old(pasteboard.changeCount) + 1
      ensures (pasteboard.stringValue, pasteboard.tiffValue) == Written(item)
    {
      pasteboard.ClearContents();
      match item.itemType
      case Text =>
        if item.content.StringContent? {
          pasteboard.SetString(item.content.text);
        }
      case Image =>
        if item.content.DataContent? {
          pasteboard.SetTiff(item.content.data);
        }
    }

    /** `deleteItem`, as the tests call it: the entry equal to `item` leaves the history. */
    method DeleteItem(item: ClipboardItem)
      requires Valid()
      modifies this`clipboardItems
      ensures Valid()
      ensures clipboardItems == Without(old(clipboardItems), item)
    {
      WithoutKeepsWellFormed(clipboardItems, item);
      clipboardItems := Without(clipboardItems, item);
    }

    /** `clearHistory`, as the tests call it. */
    method ClearHistory()
      requires Valid()
      modifies this`clipboardItems
      ensures Valid() && clipboardItems == []
    {
      clipboardItems := [];
    }
  }
}
