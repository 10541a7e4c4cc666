/**
 * The message inbox page: an ordered list of notifications that can be marked
 * read or unread, deleted, and searched by title or content.
 */
module MessageList {
  import opened Seqs

  datatype Message = Message(key: string, title: string, content: string, kind: string, time: string, isRead: bool)

  /** `text.includes(needle)`: `needle` occurs in `text` as a contiguous, case-sensitive block. */
  predicate Includes(text: string, needle: string)
    decreases |text|
  {
    needle <= text || (text != [] && Includes(text[1..], needle))
  }

  /** `needle` occurs in `text` starting at position `i`. */
  predicate OccursAt(text: string, needle: string, i: int) {
    0 <= i && i + |needle| <= |text| && text[i..i + |needle|] == needle
  }

  /** `Includes` is the existence of a position at which `needle` occurs. */
  lemma {:induction false} IncludesIffOccurs(text: string, needle: string)
    ensures Includes(text, needle) <==> exists i :: OccursAt(text, needle, i)
  {
    if needle <= text {
      assert OccursAt(text, needle, 0);
    } else if text != [] {
      IncludesIffOccurs(text[1..], needle);
      if exists i :: OccursAt(text, needle, i) {
        var i :| OccursAt(text, needle, i);
        assert i != 0;
        assert OccursAt(text[1..], needle, i - 1);
      }
      if Includes(text[1..], needle) {
        var i :| OccursAt(text[1..], needle, i);
        assert OccursAt(text, needle, i + 1);
      }
    } else {
      assert forall i :: !OccursAt(text, needle, i);
    }
  }

  /** The empty search string occurs in every text. */
  lemma IncludesEmpty(text: string)
    ensures Includes(text, "")
  {
  }

  /** The search is case-sensitive: "btc" does not find "BTC". */
  lemma IncludesIsCaseSensitive()
    ensures !Includes("BTC", "btc")
  {
    assert "BTC"[0] != "btc"[0];
    assert !Includes("TC", "btc") by {
      assert !Includes("C", "btc") by {
        assert "C"[1..] == [];
        assert !Includes("", "btc");
      }
      assert "TC"[1..] == "C";
    }
    assert "BTC"[1..] == "TC";
  }

  /** The search predicate: title or content contains the search text. */
  predicate MatchesSearch(item: Message, searchText: string) {
    Includes(item.title, searchText) || Includes(item.content, searchText)
  }

  function SearchFilter(searchText: string): Message -> bool {
    item => MatchesSearch(item, searchText)
  }

  /** `filteredMessages`: the messages matching the search, in list order. */
  function FilteredMessages(messages: seq<Message>, searchText: string): (r: seq<Message>)
    ensures forall i :: 0 <= i < |r| ==> MatchesSearch(r[i], searchText) && r[i] in messages
    ensures forall i :: 0 <= i < |messages| && MatchesSearch(messages[i], searchText) ==> messages[i] in r
    ensures forall m :: multiset(r)[m] == if MatchesSearch(m, searchText) then multiset(messages)[m] else 0
  {
    FilterCount(SearchFilter(searchText), messages);
    Filter(SearchFilter(searchText), messages)
  }

  /** The search keeps the inbox order. */
  lemma FilteredMessagesIsSubsequence(messages: seq<Message>, searchText: string)
    ensures IsSubsequence(FilteredMessages(messages, searchText), messages)
  {
    FilterIsSubsequence(SearchFilter(searchText), messages);
  }

  /** An empty search shows the whole inbox. */
  lemma FilteredMessagesEmptySearch(messages: seq<Message>)
    ensures FilteredMessages(messages, "") == messages
  {
    FilterKeepsAll(SearchFilter(""), messages);
  }

  /** `handleMarkRead`/`handleMarkUnread`: set `isRead` on the messages with that key. */
  function SetRead(messages: seq<Message>, key: string, isRead: bool): (r: seq<Message>)
    ensures |r| == |messages|
    ensures forall i :: 0 <= i < |r| ==>
              r[i].isRead == (if messages[i].key == key then isRead else messages[i].isRead) &&
              r[i].(isRead := messages[i].isRead) == messages[i]
  {
    if messages == [] then []
    else
      var head := messages[0];
      [if head.key == key then head.(isRead := isRead) else head] + SetRead(messages[1..], key, isRead)
  }

  /** Marking twice with the same flag is marking once. */
  lemma {:induction false} SetReadIdempotent(messages: seq<Message>, key: string, isRead: bool)
    ensures SetRead(SetRead(messages, key, isRead), key, isRead) == SetRead(messages, key, isRead)
  {
    if messages != [] {
      SetReadIdempotent(messages[1..], key, isRead);
    }
  }

  /** The later of two marks on the same key wins: read then unread leaves the item unread. */
  lemma {:induction false} SetReadLastWins(messages: seq<Message>, key: string, first: bool, second: bool)
    ensures SetRead(SetRead(messages, key, first), key, second) == SetRead(messages, key, second)
  {
    if messages != [] {
      SetReadLastWins(messages[1..], key, first, second);
    }
  }

  /** Marking commutes with the search, which never reads `isRead`. */
  lemma SearchIgnoresReadFlag(messages: seq<Message>, searchText: string, key: string, isRead: bool)
    ensures FilteredMessages(SetRead(messages, key, isRead), searchText) ==
            SetRead(FilteredMessages(messages, searchText), key, isRead)
  {
    FilterIgnoresReadFlag(messages, searchText, key, isRead);
  }

  /** The induction behind `SearchIgnoresReadFlag`, on the underlying filter. */
  lemma {:induction false} FilterIgnoresReadFlag(messages: seq<Message>, searchText: string, key: string, isRead: bool)
    ensures Filter(SearchFilter(searchText), SetRead(messages, key, isRead)) ==
            SetRead(Filter(SearchFilter(searchText), messages), key, isRead)
  {
    if messages != [] {
      FilterIgnoresReadFlag(messages[1..], searchText, key, isRead);
      assert SetRead(messages, key, isRead)[1..] == SetRead(messages[1..], key, isRead);
    }
  }

  /** The keys of a message list, in order. */
  function Keys(messages: seq<Message>): (r: seq<string>)
    ensures |r| == |messages| && forall i :: 0 <= i < |r| ==> r[i] == messages[i].key
  {
    if messages == [] then [] else [messages[0].key] + Keys(messages[1..])
  }

  /** Marking never changes which keys the search shows, nor their order. */
  lemma SearchKeysIgnoreReadFlag(messages: seq<Message>, searchText: string, key: string, isRead: bool)
    ensures Keys(FilteredMessages(SetRead(messages, key, isRead), searchText)) ==
            Keys(FilteredMessages(messages, searchText))
  {
    SearchIgnoresReadFlag(messages, searchText, key, isRead);
  }

  predicate KeyIsNot(item: Message, key: string) {
    item.key != key
  }

  function KeyFilter(key: string): Message -> bool {
    item => KeyIsNot(item, key)
  }

  /** `handleDelete(key)`: drop every message with that key. */
  function DeleteKey(messages: seq<Message>, key: string): (r: seq<Message>)
    ensures forall i :: 0 <= i < |r| ==> r[i].key != key && r[i] in messages
    ensures forall i :: 0 <= i < |messages| && messages[i].key != key ==> messages[i] in r
    ensures forall m :: multiset(r)[m] == if m.key != key then multiset(messages)[m] else 0
  {
    FilterCount(KeyFilter(key), messages);
    Filter(KeyFilter(key), messages)
  }

  /** Deleting keeps the survivors in their original order. */
  lemma DeleteKeyIsSubsequence(messages: seq<Message>, key: string)
    ensures IsSubsequence(DeleteKey(messages, key), messages)
  {
    FilterIsSubsequence(KeyFilter(key), messages);
  }

  /** Deleting a key that is absent is a no-op. */
  lemma DeleteAbsentKey(messages: seq<Message>, key: string)
    requires forall i :: 0 <= i < |messages| ==> messages[i].key != key
    ensures DeleteKey(messages, key) == messages
  {
    FilterKeepsAll(KeyFilter(key), messages);
  }

  /** Deleting twice is deleting once. */
  lemma DeleteKeyIdempotent(messages: seq<Message>, key: string)
    ensures DeleteKey(DeleteKey(messages, key), key) == DeleteKey(messages, key)
  {
    FilterIdempotent(KeyFilter(key), messages);
  }

  /** After deleting a key, the search never shows it. */
  lemma DeletedKeyNotShown(messages: seq<Message>, key: string, searchText: string)
    ensures forall i :: 0 <= i < |FilteredMessages(DeleteKey(messages, key), searchText)| ==>
              FilteredMessages(DeleteKey(messages, key), searchText)[i].key != key
  {
    var remaining := DeleteKey(messages, key);
    var shown := FilteredMessages(remaining, searchText);
    forall i | 0 <= i < |shown| ensures shown[i].key != key {
      var j :| 0 <= j < |remaining| && remaining[j] == shown[i];
    }
  }

  /** Display label of a message type; unknown types read `其他`. */
  function TypeText(kind: string): (r: string)
    ensures kind == "system" ==> r == "系统"
    ensures kind == "trade" ==> r == "交易"
    ensures kind == "risk" ==> r == "风控"
    ensures kind == "data" ==> r == "数据"
    ensures r == "其他" <==> kind !in ["system", "trade", "risk", "data"]
  {
    match kind
    case "system" => "系统"
    case "trade" => "交易"
    case "risk" => "风控"
    case "data" => "数据"
    case _ => "其他"
  }

  /** The page's state: the inbox and the submitted search text. */
  class Inbox {
    var messages: seq<Message>
    var searchText: string

    constructor (initial: seq<Message>)
      ensures messages == initial && searchText == ""
    {
      messages := initial;
      searchText := "";
    }

    /** What the table shows, re-derived from the state on every render. */
    function Shown(): (r: seq<Message>)
      reads this
      ensures searchText == "" ==> r == messages
    {
      FilteredMessagesEmptySearch(messages);
      FilteredMessages(messages, searchText)
    }

    /** `handleSearch`. */
    method Search(value: string)
      modifies this`searchText
      ensures searchText == value
    {
      searchText := value;
    }

    method MarkRead(key: string)
      modifies this`messages
      ensures messages == SetRead(old(messages), key, true)
    {
      messages := SetRead(messages, key, true);
    }

    method MarkUnread(key: string)
      modifies this`messages
      ensures messages == SetRead(old(messages), key, false)
    {
      messages := SetRead(messages, key, false);
    }

    method Delete(key: string)
      modifies this`messages
      ensures messages == DeleteKey(old(messages), key)
      ensures forall i :: 0 <= i < |Shown()| ==> Shown()[i].key != key
    {
      messages := DeleteKey(messages, key);
      DeletedKeyNotShown(old(messages), key, searchText);
    }
  }
}
