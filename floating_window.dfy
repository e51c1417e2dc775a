/**
 * The search filter of the history window (`filteredItems` in
 * ClipZen/FloatingWindow.swift), over the Core Data record shape of
 * ClipZen/ClipboardItem+CoreDataProperties.swift.
 */
module HistorySearch {
  import opened Common

  /** The Core Data record: every attribute is optional. */
  datatype StoredItem = StoredItem(id: Option<Uuid>, itemType: Option<string>, content: Option<Bytes>,
                                   timestamp: Option<int>, filename: Option<string>, fileExtension: Option<string>)

  /**
   * The text of an item's content when there is content and it decodes as
   * UTF-8; `decode` stands for `String(data:encoding: .utf8)`.
   */
  function ContentText(item: StoredItem, decode: Bytes -> Option<string>): Option<string> {
    match item.content
    case Some(data) => decode(data)
    case None => None
  }

  /**
   * The closure given to `filter`: the decoded text must contain the search
   * string; an item without text is judged by its filename, and dropped when
   * it has none. `contains` stands for `localizedCaseInsensitiveContains`.
   */
  predicate Matches(item: StoredItem, search: string, decode: Bytes -> Option<string>,
                    contains: (string, string) -> bool)
  {
    match ContentText(item, decode)
    case Some(text) => contains(text, search)
    case None => item.filename.Some? && contains(item.filename.value, search)
  }

  /** `items.filter(Matches)`. */
  function Filter(items: seq<StoredItem>, search: string, decode: Bytes -> Option<string>,
                  contains: (string, string) -> bool): (r: seq<StoredItem>)
    ensures forall x :: x in r <==> x in items && Matches(x, search, decode, contains)
    ensures forall x :: multiset(r)[x] == if Matches(x, search, decode, contains) then multiset(items)[x] else 0
    ensures |r| <= |items|
  {
    if items == [] then []
    else
      var rest := Filter(items[1..], search, decode, contains);
      assert items == [items[0]] + items[1..];
      if Matches(items[0], search, decode, contains) then [items[0]] + rest else rest
  }

  /** `filteredItems`: the whole history for an empty search, otherwise the matching items. */
  function FilteredItems(items: seq<StoredItem>, search: string, decode: Bytes -> Option<string>,
                         contains: (string, string) -> bool): (r: seq<StoredItem>)
    ensures search == "" ==> r == items
    ensures search != "" ==> forall x :: x in items && ContentText(x, decode).Some? ==>
              (x in r <==> contains(ContentText(x, decode).value, search))
    ensures search != "" ==> forall x :: x in items && ContentText(x, decode).None? ==>
              (x in r <==> x.filename.Some? && contains(x.filename.value, search))
    ensures search != "" ==>
              forall x :: multiset(r)[x] == if Matches(x, search, decode, contains) then multiset(items)[x] else 0
    ensures forall x :: x in r ==> x in items
  {
    if search == "" then items else Filter(items, search, decode, contains)
  }

  /** `a` is `b` with some elements left out and the rest in their order. */
  ghost predicate IsSubsequence(a: seq<StoredItem>, b: seq<StoredItem>)
    decreases |b|
  {
    if a == [] then true
    else if b == [] then false
    else if a[0] == b[0] then IsSubsequence(a[1..], b[1..])
    else IsSubsequence(a, b[1..])
  }

  /** The filter keeps the relative order of the history. */
  lemma {:induction false} FilterIsSubsequence(items: seq<StoredItem>, search: string,
                                               decode: Bytes -> Option<string>, contains: (string, string) -> bool)
    ensures IsSubsequence(Filter(items, search, decode, contains), items)
  {
    if items != [] {
      var rest := Filter(items[1..], search, decode, contains);
      FilterIsSubsequence(items[1..], search, decode, contains);
      if Matches(items[0], search, decode, contains) {
        assert ([items[0]] + rest)[1..] == rest;
      } else {
        SubsequenceOfTail(rest, items);
      }
    }
  }

  lemma {:induction false} SubsequenceOfTail(a: seq<StoredItem>, b: seq<StoredItem>)
    requires b != [] && IsSubsequence(a, b[1..])
    ensures IsSubsequence(a, b)
    decreases |b|, 0
  {
    if a != [] && a[0] == b[0] {
      SubsequenceDropHead(a, b[1..]);
    }
  }

  lemma {:induction false} SubsequenceDropHead(a: seq<StoredItem>, b: seq<StoredItem>)
    requires a != [] && IsSubsequence(a, b)
    ensures IsSubsequence(a[1..], b)
    decreases |b|, 1
  {
    if a[0] == b[0] {
      SubsequenceOfTail(a[1..], b);
    } else {
      SubsequenceDropHead(a, b[1..]);
      SubsequenceOfTail(a[1..], b);
    }
  }

  /** Filtering the filtered list again with the same search changes nothing. */
  lemma {:induction false} FilterIdempotent(items: seq<StoredItem>, search: string,
                                            decode: Bytes -> Option<string>, contains: (string, string) -> bool)
    ensures Filter(Filter(items, search, decode, contains), search, decode, contains) ==
            Filter(items, search, decode, contains)
  {
    if items != [] {
      var rest := Filter(items[1..], search, decode, contains);
      FilterIdempotent(items[1..], search, decode, contains);
      if Matches(items[0], search, decode, contains) {
        assert ([items[0]] + rest)[1..] == rest;
      }
    }
  }

  lemma FilteredItemsIdempotent(items: seq<StoredItem>, search: string,
                                decode: Bytes -> Option<string>, contains: (string, string) -> bool)
    ensures var once := FilteredItems(items, search, decode, contains);
            FilteredItems(once, search, decode, contains) == once
  {
    if search != "" {
      FilterIdempotent(items, search, decode, contains);
    }
  }

  lemma FilteredItemsIsSubsequence(items: seq<StoredItem>, search: string,
                                   decode: Bytes -> Option<string>, contains: (string, string) -> bool)
    ensures IsSubsequence(FilteredItems(items, search, decode, contains), items)
  {
    if search == "" {
      SubsequenceReflexive(items);
    } else {
      FilterIsSubsequence(items, search, decode, contains);
    }
  }

  lemma {:induction false} SubsequenceReflexive(s: seq<StoredItem>)
    ensures IsSubsequence(s, s)
  {
    if s != [] {
      SubsequenceReflexive(s[1..]);
    }
  }
}
