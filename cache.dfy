/**
 * The `cacheService` of tale-weaver: entries in `localStorage` stamped with the time they were
 * written and dropped an hour later, and the lists of stories and story sessions kept there.
 * `localStorage` is a map from keys to entries, and `Date.now()` is a parameter.
 */
module Cache {
  import opened Wrappers
  import opened Strings
  import opened Seqs
  import opened Json

  const CachePrefix := "tale-weaver:"
  const StoriesKey := CachePrefix + "stories"
  const SessionsKey := CachePrefix + "sessions"
  /** One hour, in milliseconds. */
  const CacheExpiry := 1000 * 60 * 60

  datatype Story = Story(id: string, title: string, description: Option<string>, createdAt: int, updatedAt: int)

  datatype SessionKind = StoryKind | DialogueKind | PlotKind

  datatype StorySession = StorySession(id: string, storyId: string, title: string, kind: SessionKind, createdAt: int, updatedAt: int)

  /** What a cache entry may hold: the story list, the session list, or any other JSON value. */
  datatype Data = StoryList(stories: seq<Story>) | SessionList(sessions: seq<StorySession>) | OtherData(json: Json)

  /** `CacheData<T>`: the value and when it was written. */
  datatype Entry = Entry(data: Data, timestamp: int)

  predicate Expired(e: Entry, now: int)
  {
    now - e.timestamp > CacheExpiry
  }

  /** What `getCache(key)` answers on the client: nothing for a missing or expired entry. */
  function Lookup(store: map<string, Entry>, key: string, now: int): (r: Option<Data>)
    ensures r.Some? <==> key in store && !Expired(store[key], now)
    ensures r.Some? ==> r.value == store[key].data
  {
    if key in store && !Expired(store[key], now) then Some(store[key].data) else None
  }

  /** A value that was set is read back until it expires, and afterwards is gone. */
  lemma SetThenGet(store: map<string, Entry>, key: string, data: Data, written: int, now: int)
    ensures now - written <= CacheExpiry ==> Lookup(store[key := Entry(data, written)], key, now) == Some(data)
    ensures now - written > CacheExpiry ==> Lookup(store[key := Entry(data, written)], key, now) == None
  {
  }

  /** `getCachedStories`: the cached list, or `[]` when there is none. */
  function StoriesIn(store: map<string, Entry>, now: int): seq<Story>
  {
    match Lookup(store, StoriesKey, now)
    case Some(StoryList(stories)) => stories
    case _ => []
  }

  /** `getCachedSessions` */
  function SessionsIn(store: map<string, Entry>, now: int): seq<StorySession>
  {
    match Lookup(store, SessionsKey, now)
    case Some(SessionList(sessions)) => sessions
    case _ => []
  }

  /** An upsert by id, as a reference: the first item with the same id is replaced, or the item goes at the end. */
  function Upsert<T>(items: seq<T>, item: T, id: T -> string): (r: seq<T>)
    ensures item in r
    ensures |items| <= |r| <= |items| + 1
  {
    if items == [] then [item]
    else if id(items[0]) == id(item) then [item] + items[1..]
    else [items[0]] + Upsert(items[1..], item, id)
  }

  /** `findIndex` by id: the first position with that id, or -1. */
  function FindIndex<T>(items: seq<T>, key: string, id: T -> string): (i: int)
    ensures -1 <= i < |items|
    ensures i >= 0 ==> id(items[i]) == key
    ensures forall j :: 0 <= j < |items| && (i < 0 || j < i) ==> id(items[j]) != key
  {
    if items == [] then -1
    else if id(items[0]) == key then 0
    else
      var k := FindIndex(items[1..], key, id);
      if k < 0 then -1 else k + 1
  }

  /** `stories[index] = story` at the found index, or a push: this is the upsert. */
  lemma {:induction false} UpsertByIndex<T>(items: seq<T>, item: T, id: T -> string)
    ensures FindIndex(items, id(item), id) >= 0 ==> Upsert(items, item, id) == items[FindIndex(items, id(item), id) := item]
    ensures FindIndex(items, id(item), id) < 0 ==> Upsert(items, item, id) == items + [item]
    decreases |items|
  {
    if items == [] {
    } else if id(items[0]) == id(item) {
      assert [item] + items[1..] == items[0 := item];
    } else {
      UpsertByIndex(items[1..], item, id);
      var k := FindIndex(items[1..], id(item), id);
      assert Upsert(items, item, id) == [items[0]] + Upsert(items[1..], item, id);
      if k >= 0 {
        assert FindIndex(items, id(item), id) == k + 1;
        assert [items[0]] + items[1..][k := item] == items[k + 1 := item];
      } else {
        assert FindIndex(items, id(item), id) == -1;
        assert [items[0]] + (items[1..] + [item]) == items + [item];
      }
    }
  }

  /** With an item of that id present, the upsert replaces it and keeps the length. */
  lemma {:induction false} UpsertReplaces<T>(items: seq<T>, item: T, id: T -> string, i: nat)
    requires i < |items| && id(items[i]) == id(item)
    requires forall j :: 0 <= j < i ==> id(items[j]) != id(item)
    ensures Upsert(items, item, id) == items[i := item]
    decreases i
  {
    if i > 0 {
      UpsertReplaces(items[1..], item, id, i - 1);
      assert [items[0]] + items[1..][i - 1 := item] == items[i := item];
    }
  }

  /** With no item of that id, the upsert appends. */
  lemma {:induction false} UpsertAppends<T>(items: seq<T>, item: T, id: T -> string)
    requires forall j :: 0 <= j < |items| ==> id(items[j]) != id(item)
    ensures Upsert(items, item, id) == items + [item]
    decreases |items|
  {
    if items != [] {
      UpsertAppends(items[1..], item, id);
      assert [items[0]] + (items[1..] + [item]) == items + [item];
    }
  }

  /** Upserting the same item twice is upserting it once. */
  lemma {:induction false} UpsertIdempotent<T>(items: seq<T>, item: T, id: T -> string)
    ensures Upsert(Upsert(items, item, id), item, id) == Upsert(items, item, id)
    decreases |items|
  {
    if items != [] && id(items[0]) != id(item) {
      UpsertIdempotent(items[1..], item, id);
    }
  }

  function StoryId(): Story -> string
  {
    (s: Story) => s.id
  }

  function SessionId(): StorySession -> string
  {
    (s: StorySession) => s.id
  }

  function OtherStory(id: string): Story -> bool
  {
    (s: Story) => s.id != id
  }

  /** `removeStoryFromCache` keeps exactly the other stories, in their order. */
  lemma RemoveStoryKeeps(stories: seq<Story>, id: string, s: Story)
    ensures s in Filter(stories, OtherStory(id)) <==> s in stories && s.id != id
  {
    FilterMember(stories, OtherStory(id), s);
  }

  /** What `clearCache` leaves: every key without the prefix `tale-weaver:`. */
  function Cleared(store: map<string, Entry>): (r: map<string, Entry>)
    ensures forall k :: k in r <==> k in store && !HasPrefix(k, CachePrefix)
    ensures forall k :: k in r ==> r[k] == store[k]
  {
    map k | k in store && !HasPrefix(k, CachePrefix) :: store[k]
  }

  /** The `forEach` over the keys of `localStorage`, removing the prefixed ones. */
  method ClearPrefixed(store: map<string, Entry>) returns (r: map<string, Entry>)
    ensures r == Cleared(store)
  {
    r := store;
    var remaining := store.Keys;
    while remaining != {}
      invariant remaining <= store.Keys
      invariant r == map k | k in store && (k in remaining || !HasPrefix(k, CachePrefix)) :: store[k]
      decreases |remaining|
    {
      var key :| key in remaining;
      if HasPrefix(key, CachePrefix) {
        r := r - {key};
      }
      remaining := remaining - {key};
    }
  }

  /** The store of the chat messages (`tale-weaver-messages`) survives `clearCache`; the cached lists do not. */
  lemma ClearKeepsMessages(store: map<string, Entry>)
    ensures "tale-weaver-messages" in store ==> "tale-weaver-messages" in Cleared(store)
    ensures StoriesKey !in Cleared(store) && SessionsKey !in Cleared(store)
  {
    assert !HasPrefix("tale-weaver-messages", CachePrefix) by {
      assert "tale-weaver-messages"[11] == '-';
    }
    assert HasPrefix(StoriesKey, CachePrefix);
    assert HasPrefix(SessionsKey, CachePrefix);
  }

  class CacheService {
    /** `typeof window !== "undefined"`: off the client every operation does nothing. */
    const isClient: bool
    /** `localStorage` */
    var store: map<string, Entry>

    constructor (isClient: bool, store: map<string, Entry>)
      ensures this.isClient == isClient && this.store == store
    {
      this.isClient := isClient;
      this.store := store;
    }

    /** `getCache`: an expired entry is removed as it is read. */
    method GetCache(key: string, now: int) returns (r: Option<Data>)
      modifies this
      ensures isClient ==> r == Lookup(old(store), key, now)
      ensures !isClient ==> r.None?
      ensures isClient && key in old(store) && Expired(old(store)[key], now) ==> store == old(store) - {key}
      ensures !(isClient && key in old(store) && Expired(old(store)[key], now)) ==> store == old(store)
    {
      if !isClient {
        return None;
      }
      if key !in store {
        return None;
      }
      var entry := store[key];
      if now - entry.timestamp > CacheExpiry {
        store := store - {key};
        return None;
      }
      return Some(entry.data);
    }

    /** `setCache`: the value is stored with the current time. */
    method SetCache(key: string, data: Data, now: int)
      modifies this
      ensures isClient ==> store == old(store)[key := Entry(data, now)]
      ensures !isClient ==> store == old(store)
    {
      if isClient {
        store := store[key := Entry(data, now)];
      }
    }

    /** `getCachedStories` */
    method GetCachedStories(now: int) returns (stories: seq<Story>)
      modifies this
      ensures isClient ==> stories == StoriesIn(old(store), now)
      ensures !isClient ==> stories == []
      ensures store == old(store) || store == old(store) - {StoriesKey}
      ensures !isClient ==> store == old(store)
    {
      var cached := GetCache(StoriesKey, now);
      stories := if cached.Some? && cached.value.StoryList? then cached.value.stories else [];
    }

    /** `getCachedSessions` */
    method GetCachedSessions(now: int) returns (sessions: seq<StorySession>)
      modifies this
      ensures isClient ==> sessions == SessionsIn(old(store), now)
      ensures !isClient ==> sessions == []
      ensures store == old(store) || store == old(store) - {SessionsKey}
      ensures !isClient ==> store == old(store)
    {
      var cached := GetCache(SessionsKey, now);
      sessions := if cached.Some? && cached.value.SessionList? then cached.value.sessions else [];
    }

    /** `cacheStory`: the story list with this story upserted by id, written back now. */
    method CacheStory(story: Story, now: int)
      modifies this
      ensures isClient ==> store == old(store)[StoriesKey := Entry(StoryList(Upsert(StoriesIn(old(store), now), story, StoryId())), now)]
      ensures !isClient ==> store == old(store)
    {
      var stories := GetCachedStories(now);
      var index := FindIndex(stories, story.id, StoryId());
      UpsertByIndex(stories, story, StoryId());
      if index > -1 {
        stories := stories[index := story];
      } else {
        stories := stories + [story];
      }
      SetCache(StoriesKey, StoryList(stories), now);
    }

    /** `removeStoryFromCache`: the story list without that id, written back now. */
    method RemoveStoryFromCache(id: string, now: int)
      modifies this
      ensures isClient ==> store == old(store)[StoriesKey := Entry(StoryList(Filter(StoriesIn(old(store), now), OtherStory(id))), now)]
      ensures !isClient ==> store == old(store)
    {
      var stories := GetCachedStories(now);
      var filtered := Filter(stories, OtherStory(id));
      SetCache(StoriesKey, StoryList(filtered), now);
    }

    /** `cacheSession`: the session list with this session upserted by id, written back now. */
    method CacheSession(session: StorySession, now: int)
      modifies this
      ensures isClient ==> store == old(store)[SessionsKey := Entry(SessionList(Upsert(SessionsIn(old(store), now), session, SessionId())), now)]
      ensures !isClient ==> store == old(store)
    {
      var sessions := GetCachedSessions(now);
      var index := FindIndex(sessions, session.id, SessionId());
      UpsertByIndex(sessions, session, SessionId());
      if index > -1 {
        sessions := sessions[index := session];
      } else {
        sessions := sessions + [session];
      }
      SetCache(SessionsKey, SessionList(sessions), now);
    }

    /** `clearCache`: every key with the prefix `tale-weaver:` is removed. */
    method ClearCache()
      modifies this
      ensures isClient ==> store == Cleared(old(store))
      ensures !isClient ==> store == old(store)
    {
      if isClient {
        store := ClearPrefixed(store);
      }
    }
  }
}
