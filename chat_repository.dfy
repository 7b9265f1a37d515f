/**
 * The in-memory chat store (`ChatMemoryRepository`): per-namespace arrays of
 * chats, with lookup, get-or-create, filtered and paginated listing, and
 * upsert by id.
 */
module ChatRepository {
  import opened Wrappers
  import opened Text
  import opened Lists
  import opened Sorting
  import opened SharedTypes
  import opened Namespaces

  // ---------------------------------------------------------------------------
  // Listing: search, order and pagination

  /**
   * A message matches a lower-cased search exactly when the search occurs
   * somewhere in its lower-cased searchable text: the empty search matches
   * every message, and a search longer than the text matches none.
   */
  function MessageMatches(m: Message, lower: string): (b: bool)
    ensures b <==> exists i :: OccursAt(ToLower(SearchableText(m.content)), lower, i)
    ensures lower == "" ==> b
    ensures b ==> |lower| <= |SearchableText(m.content)|
  {
    var hay := ToLower(SearchableText(m.content));
    IncludesEmpty(hay);
    IncludesIff(hay, lower);
    assert hay == ToLower(SearchableText(m.content));
    Includes(hay, lower)
  }

  /** `chat.messages.some(...)`. */
  predicate ChatMatches(c: Chat, lower: string) {
    exists i :: 0 <= i < |c.messages| && MessageMatches(c.messages[i], lower)
  }

  /** `chats.filter(chat => chat.messages.some(...))`. */
  function FilterChats(chats: seq<Chat>, lower: string): (r: seq<Chat>)
    ensures |r| <= |chats|
    ensures forall i :: 0 <= i < |r| ==> ChatMatches(r[i], lower)
    ensures forall c :: c in r <==> c in chats && ChatMatches(c, lower)
  {
    FilterMembers(chats, c => ChatMatches(c, lower));
    Filter(chats, c => ChatMatches(c, lower))
  }

  /**
   * The filter keeps the stored order and every copy: it distributes over
   * concatenation, and a single chat is kept exactly when it matches.
   */
  lemma FilterChatsAppend(a: seq<Chat>, b: seq<Chat>, lower: string)
    ensures FilterChats(a + b, lower) == FilterChats(a, lower) + FilterChats(b, lower)
    ensures |a| == 1 ==> FilterChats(a, lower) == (if ChatMatches(a[0], lower) then a else [])
  {
    FilterAppend(a, b, c => ChatMatches(c, lower));
  }

  function SearchOf(options: ListChatsOptions): string { options.search.GetOr("") }
  function PageOf(options: ListChatsOptions): int { options.page.GetOr(1) }
  function LimitOf(options: ListChatsOptions): int { options.limit.GetOr(10) }

  /** The chats a search keeps: all of them for `''`, else those matching the lower-cased search. */
  function Matching(chats: seq<Chat>, search: string): (r: seq<Chat>)
    ensures |r| <= |chats|
    ensures search == "" ==> r == chats
    ensures forall c :: c in r <==> c in chats && (search == "" || ChatMatches(c, ToLower(search)))
  {
    if search == "" then chats else FilterChats(chats, ToLower(search))
  }

  /** Sort key for "newest `update_time` first". */
  function RecencyKey(c: Chat): int { -c.updateTime }

  /** The chats newest first; among equal times the stored order is kept. */
  function NewestFirst(chats: seq<Chat>): (r: seq<Chat>)
    ensures |r| == |chats| && multiset(r) == multiset(chats)
    ensures forall i, j :: 0 <= i < j < |r| ==> r[i].updateTime >= r[j].updateTime
  {
    SortBySorted(chats, RecencyKey);
    SortBy(chats, RecencyKey)
  }

  /** The result of `listChats(options)` over the chats of one namespace. */
  function ListPage(chats: seq<Chat>, options: ListChatsOptions): (r: ListChatsResult)
    ensures r.total == |Matching(chats, SearchOf(options))|
    ensures r.page == PageOf(options) && r.limit == LimitOf(options)
    ensures r.page >= 1 && r.limit >= 0 ==> |r.chats| <= r.limit
    ensures forall c :: c in r.chats ==> c in chats
    ensures SearchOf(options) != "" ==> forall c :: c in r.chats ==> ChatMatches(c, ToLower(SearchOf(options)))
    ensures forall i, j :: 0 <= i < j < |r.chats| ==> r.chats[i].updateTime >= r.chats[j].updateTime
  {
    var search, page, limit := SearchOf(options), PageOf(options), LimitOf(options);
    var filtered := Matching(chats, search);
    var sorted := NewestFirst(filtered);
    WindowFacts(filtered, page, limit);
    ListChatsResult(PageWindow(sorted, page, limit), |filtered|, page, limit)
  }

  /** `sorted.slice(startIndex, startIndex + limit)` with `startIndex = (page - 1) * limit`. */
  function PageWindow(sorted: seq<Chat>, page: int, limit: int): seq<Chat>
  {
    var startIndex := (page - 1) * limit;
    JsSlice(sorted, startIndex, startIndex + limit)
  }

  /** The facts `ListPage` needs about its window of the sorted matches. */
  lemma WindowFacts(filtered: seq<Chat>, page: int, limit: int)
    ensures var start := (page - 1) * limit;
      var w := PageWindow(NewestFirst(filtered), page, limit);
      && (page >= 1 && limit >= 0 ==> |w| <= limit)
      && (forall c :: c in w ==> c in filtered)
      && (forall i, j :: 0 <= i < j < |w| ==> w[i].updateTime >= w[j].updateTime)
  {
    var start := (page - 1) * limit;
    if page >= 1 && limit >= 0 {
      StartNonNegative(page, limit);
    }
    SliceFacts(filtered, start, start + limit);
  }

  lemma StartNonNegative(page: int, limit: int)
    requires page >= 1 && limit >= 0
    ensures (page - 1) * limit >= 0
  {
  }

  /** The page slice holds only stored chats, newest first. */
  lemma SliceFacts(filtered: seq<Chat>, from: int, to: int)
    ensures var w := JsSlice(NewestFirst(filtered), from, to);
      && (forall c :: c in w ==> c in filtered)
      && (forall i, j :: 0 <= i < j < |w| ==> w[i].updateTime >= w[j].updateTime)
  {
    var sorted := NewestFirst(filtered);
    forall c | c in JsSlice(sorted, from, to) ensures c in filtered {
      assert c in multiset(sorted);
    }
    SliceDescending(sorted, from, to);
  }

  /** A slice of a newest-first list is newest-first. */
  lemma SliceDescending(s: seq<Chat>, from: int, to: int)
    requires forall i, j :: 0 <= i < j < |s| ==> s[i].updateTime >= s[j].updateTime
    ensures var w := JsSlice(s, from, to);
      forall i, j :: 0 <= i < j < |w| ==> w[i].updateTime >= w[j].updateTime
  {
    var a, b := ClampIndex(from, |s|), ClampIndex(to, |s|);
    if a < b {
      var w := JsSlice(s, from, to);
      assert w == s[a..b];
      forall i, j | 0 <= i < j < |w| ensures w[i].updateTime >= w[j].updateTime {
        assert w[i] == s[a + i] && w[j] == s[a + j];
      }
    }
  }

  /** With no options: search `''`, page 1, limit 10 — the ten newest chats of the namespace. */
  lemma ListPageDefaults(chats: seq<Chat>)
    ensures var r := ListPage(chats, ListChatsOptions(None, None, None));
      && r.page == 1 && r.limit == 10 && r.total == |chats|
      && r.chats == NewestFirst(chats)[..if |chats| < 10 then |chats| else 10]
  {
  }

  /**
   * Page `p` of size `l` (p >= 1, l >= 0) is the run of the newest-first
   * matches starting at `(p-1)*l`: as many as remain, at most `l`.
   */
  lemma ListPageIsWindow(chats: seq<Chat>, options: ListChatsOptions)
    requires PageOf(options) >= 1 && LimitOf(options) >= 0
    ensures var r := ListPage(chats, options);
      var sorted := NewestFirst(Matching(chats, SearchOf(options)));
      var start := (PageOf(options) - 1) * LimitOf(options);
      && |r.chats| == (if start >= |sorted| then 0
                       else if |sorted| - start < LimitOf(options) then |sorted| - start
                       else LimitOf(options))
      && forall i :: 0 <= i < |r.chats| ==> r.chats[i] == sorted[start + i]
  {
    var sorted := NewestFirst(Matching(chats, SearchOf(options)));
    PageWindowFacts(sorted, PageOf(options), LimitOf(options));
    assert ListPage(chats, options).chats == PageWindow(sorted, PageOf(options), LimitOf(options));
  }

  /** The window of page `page` holds the entries from `(page-1)*limit` on, at most `limit` of them. */
  lemma PageWindowFacts(sorted: seq<Chat>, page: int, limit: int)
    requires page >= 1 && limit >= 0
    ensures var w := PageWindow(sorted, page, limit);
      var start := (page - 1) * limit;
      && |w| == (if start >= |sorted| then 0 else if |sorted| - start < limit then |sorted| - start else limit)
      && forall i :: 0 <= i < |w| ==> w[i] == sorted[start + i]
  {
    var start := (page - 1) * limit;
    StartNonNegative(page, limit);
    SliceWindow(sorted, start, limit);
  }

  /** A slice from a non-negative start holds the entries from there on, at most `limit` of them. */
  lemma SliceWindow(sorted: seq<Chat>, start: int, limit: int)
    requires start >= 0 && limit >= 0
    ensures var w := JsSlice(sorted, start, start + limit);
      && |w| == (if start >= |sorted| then 0 else if |sorted| - start < limit then |sorted| - start else limit)
      && forall i :: 0 <= i < |w| ==> w[i] == sorted[start + i]
  {
  }

  /** An empty search keeps every chat: `total` is the size of the namespace. */
  lemma EmptySearchCountsAll(chats: seq<Chat>, options: ListChatsOptions)
    requires SearchOf(options) == ""
    ensures ListPage(chats, options).total == |chats|
  {
  }

  /** The search ignores letter case in the search term. */
  lemma SearchIgnoresCase(chats: seq<Chat>, search: string)
    ensures Matching(chats, search) == Matching(chats, ToLower(search))
  {
    ToLowerIdempotent(search);
  }

  lemma {:induction false} ToLowerSlice(s: string, i: nat, j: nat)
    requires i <= j <= |s|
    ensures ToLower(s)[i..j] == ToLower(s[i..j])
  {
  }

  /**
   * A chat with a message whose searchable text contains the search term
   * exactly is kept by the search.
   */
  lemma ContainedTermMatches(c: Chat, k: nat, search: string, at: int)
    requires k < |c.messages|
    requires OccursAt(SearchableText(c.messages[k].content), search, at)
    ensures ChatMatches(c, ToLower(search))
  {
    var text := SearchableText(c.messages[k].content);
    ToLowerSlice(text, at, at + |search|);
    assert OccursAt(ToLower(text), ToLower(search), at);
    IncludesIff(ToLower(text), ToLower(search));
    assert MessageMatches(c.messages[k], ToLower(search));
  }

  /**
   * A chat with a message whose `'text'` block contains the search term
   * exactly is kept by the search: the block's text is part of what is searched.
   */
  lemma BlockTermMatches(c: Chat, k: nat, j: nat, search: string, at: int)
    requires k < |c.messages| && c.messages[k].content.BlockContent?
    requires j < |c.messages[k].content.blocks| && c.messages[k].content.blocks[j].blockType == "text"
    requires OccursAt(c.messages[k].content.blocks[j].text, search, at)
    ensures ChatMatches(c, ToLower(search))
  {
    var blocks := c.messages[k].content.blocks;
    var earlier := BlockTexts(blocks[..j]);
    var o := if |earlier| == 0 then 0 else |Join(earlier, " ")| + 1;
    BlockTextSearched(blocks, j);
    OccursWithin(SearchableText(c.messages[k].content), blocks[j].text, search, o, at);
    ContainedTermMatches(c, k, search, o + at);
  }

  /** Some message's lower-cased searchable text contains the lower-cased search. */
  ghost predicate TermOccursIn(c: Chat, lower: string) {
    exists k, i :: 0 <= k < |c.messages| && OccursAt(ToLower(SearchableText(c.messages[k].content)), lower, i)
  }

  /** A chat matches exactly when the search occurs in one of its messages' lower-cased text. */
  lemma ChatMatchesIff(c: Chat, lower: string)
    ensures ChatMatches(c, lower) <==> TermOccursIn(c, lower)
  {
    if ChatMatches(c, lower) {
      var k :| 0 <= k < |c.messages| && MessageMatches(c.messages[k], lower);
      var i :| OccursAt(ToLower(SearchableText(c.messages[k].content)), lower, i);
    }
    if TermOccursIn(c, lower) {
      var k, i :| 0 <= k < |c.messages| && OccursAt(ToLower(SearchableText(c.messages[k].content)), lower, i);
      assert MessageMatches(c.messages[k], lower);
    }
  }

  /** Every chat a non-empty search lists contains the lower-cased search in one of its messages. */
  lemma ListedChatsContainTerm(chats: seq<Chat>, options: ListChatsOptions)
    requires SearchOf(options) != ""
    ensures forall c :: c in ListPage(chats, options).chats ==> TermOccursIn(c, ToLower(SearchOf(options)))
  {
    var lower := ToLower(SearchOf(options));
    forall c | c in ListPage(chats, options).chats ensures TermOccursIn(c, lower) {
      ChatMatchesIff(c, lower);
    }
  }

  // ---------------------------------------------------------------------------
  // Creation and upsert

  /** A chat created on first reference: no messages, both timestamps `now`. */
  function NewChat(id: string, now: int): (c: Chat)
    ensures c.id == id && c.messages == [] && c.createTime == now && c.updateTime == now
  {
    Chat(id, [], now, now, None, None, None, None)
  }

  /** `saveChat` on a value: replace the first entry with the same id, or append. */
  function Upsert(chats: seq<Chat>, c: Chat): (r: seq<Chat>)
    ensures Contains(chats, ChatId, c.id) ==> |r| == |chats|
    ensures !Contains(chats, ChatId, c.id) ==> r == chats + [c]
  {
    match ReplaceFirst(chats, ChatId, c.id, c)
    case Some(replaced) => replaced
    case None => chats + [c]
  }

  /**
   * After an upsert, looking the chat's id up finds the saved chat, and every
   * entry with another id is where it was.
   */
  lemma UpsertThenFind(chats: seq<Chat>, c: Chat)
    ensures Find(Upsert(chats, c), ChatId, c.id) == Some(c)
    ensures forall j :: 0 <= j < |chats| && chats[j].id != c.id ==> Upsert(chats, c)[j] == chats[j]
  {
    var r := Upsert(chats, c);
    if Contains(chats, ChatId, c.id) {
      var i := IndexOf(chats, ChatId, c.id);
      assert IndexOf(r, ChatId, c.id) == i;
    } else {
      AppendThenRemove(chats, c, ChatId);
    }
  }

  // ---------------------------------------------------------------------------
  // The repository

  class ChatMemoryRepository {
    const table: UserTable<Chat>
    const userPrefix: string

    ghost predicate Valid()
      reads this, table
    {
      userPrefix in table.byUser
    }

    /** This repository's namespace. */
    function UserChats(): seq<Chat>
      reads this, table
      requires Valid()
    {
      table.byUser[userPrefix]
    }

    /** Selects the namespace and creates it empty if it is absent; an existing one is never cleared. */
    constructor(table: UserTable<Chat>, userPrefix: Option<string>)
      modifies table
      ensures this.table == table && this.userPrefix == Namespace(userPrefix)
      ensures Valid()
      ensures Namespace(userPrefix) in old(table.byUser) ==> table.byUser == old(table.byUser)
      ensures Namespace(userPrefix) !in old(table.byUser) ==>
        table.byUser == old(table.byUser)[Namespace(userPrefix) := []]
    {
      this.table := table;
      this.userPrefix := Namespace(userPrefix);
      new;
      if this.userPrefix !in table.byUser {
        table.byUser := table.byUser[this.userPrefix := []];
      }
    }

    /** The first chat with this id, or none; the store is not changed. */
    method GetChat(id: string) returns (chat: Option<Chat>)
      requires Valid()
      ensures chat == Find(UserChats(), ChatId, id)
      ensures chat.Some? ==> chat.value.id == id && chat.value in UserChats()
      ensures chat.None? ==> forall c :: c in UserChats() ==> c.id != id
    {
      chat := Find(UserChats(), ChatId, id);
    }

    /** Returns the existing chat, or appends exactly one new empty chat with this id. */
    method GetOrCreateChat(id: string, now: int) returns (chat: Chat)
      requires Valid()
      modifies table
      ensures Valid() && chat.id == id
      ensures Contains(old(UserChats()), ChatId, id) ==>
        chat == Find(old(UserChats()), ChatId, id).value && table.byUser == old(table.byUser)
      ensures !Contains(old(UserChats()), ChatId, id) ==>
        chat == NewChat(id, now) && table.byUser == old(table.byUser)[userPrefix := old(UserChats()) + [chat]]
    {
      var existing := GetChat(id);
      if existing.Some? {
        return existing.value;
      }
      chat := NewChat(id, now);
      table.byUser := table.byUser[userPrefix := UserChats() + [chat]];
    }

    /**
     * One page of matching chats. With an empty search the sort runs on the
     * stored array itself, so the namespace is left reordered newest first;
     * with a search only the filtered copy is sorted.
     */
    method ListChats(options: ListChatsOptions) returns (result: ListChatsResult)
      requires Valid()
      modifies table
      ensures Valid()
      ensures result == ListPage(old(UserChats()), options)
      ensures SearchOf(options) == "" ==>
        table.byUser == old(table.byUser)[userPrefix := NewestFirst(old(UserChats()))]
      ensures SearchOf(options) != "" ==> table.byUser == old(table.byUser)
    {
      result := ListPage(UserChats(), options);
      if SearchOf(options) == "" {
        table.byUser := table.byUser[userPrefix := NewestFirst(UserChats())];
      }
    }

    /**
     * Stamps `update_time`, gives a chat without an id the fresh id `freshId`
     * (what `generateUniqueId` returns: an id no chat of the namespace has),
     * then replaces the first chat with that id or appends.
     */
    method SaveChat(chat: Chat, now: int, freshId: string) returns (saved: Chat)
      requires Valid()
      requires chat.id == "" ==> freshId != "" && !Contains(UserChats(), ChatId, freshId)
      modifies table
      ensures Valid()
      ensures saved == chat.(updateTime := now, id := if chat.id == "" then freshId else chat.id)
      ensures table.byUser == old(table.byUser)[userPrefix := Upsert(old(UserChats()), saved)]
      ensures Find(UserChats(), ChatId, saved.id) == Some(saved)
    {
      saved := chat.(updateTime := now);
      if saved.id == "" {
        saved := saved.(id := freshId);
      }
      UpsertThenFind(UserChats(), saved);
      table.byUser := table.byUser[userPrefix := Upsert(UserChats(), saved)];
    }

    /** The stored array of the namespace. */
    method GetChats() returns (chats: seq<Chat>)
      requires Valid()
      ensures chats == UserChats()
    {
      chats := UserChats();
    }
  }
}
