/**
 The timed cache of successful refresh responses (oauth/provider.go) and the recorder that
 captures one token response (oauth/handlers.go).

 `Lookup` and `Put` say what the cache means; the class works on shared arrays, as the program
 does, and is proved against them.
 */
module ReplayCache {
  import opened Wrappers

  /** Nanoseconds since the zero instant; 0 is the zero time, which stands for "not set". */
  type Time = int

  type Key = string

  type Fields = map<string, seq<string>>

  datatype Response = Response(status: int, header: Fields, body: seq<bv8>)

  datatype Entry = Entry(response: Response, rotatedAt: Time, firstReplayAt: Time, replayCount: nat, expiresAt: Time)

  datatype Found = Found(entries: map<Key, Entry>, hit: Option<Entry>)

  predicate Success(status: int) {
    200 <= status < 300
  }

  /** What a hit leaves in the cache and hands to the caller. */
  function Touched(entry: Entry, now: Time): Entry {
    entry.(firstReplayAt := if entry.firstReplayAt == 0 then now else entry.firstReplayAt,
    replayCount := entry.replayCount + 1)
  }

  function Lookup(entries: map<Key, Entry>, key: Key, now: Time): Found {
    if key !in entries then Found(entries, None)
    else if entries[key].expiresAt <= now then Found(entries - {key}, None)
    else var entry := Touched(entries[key], now); Found(entries[key := entry], Some(entry))
  }

  /** The entry stored for a response that rotated at `at`. */
  function Stored(response: Response, at: Time, window: int): Entry {
    Entry(response, at, 0, 0, at + window)
  }

  function Put(entries: map<Key, Entry>, key: Key, response: Response, at: Time, window: int): map<Key, Entry> {
    if Success(response.status) then entries[key := Stored(response, at, window)] else entries
  }

  /** A lookup hits exactly while the entry is live. It counts itself, and the first one is remembered by its time. */
  lemma LookupMeans(entries: map<Key, Entry>, key: Key, now: Time)
    ensures var found := Lookup(entries, key, now);
            && (found.hit.Some? <==> key in entries && now < entries[key].expiresAt)
            && (found.hit.Some? ==>
                  && key in found.entries && found.entries[key] == found.hit.value
                  && found.hit.value.response == entries[key].response
                  && found.hit.value.rotatedAt == entries[key].rotatedAt && found.hit.value.expiresAt == entries[key].expiresAt
                  && found.hit.value.replayCount == entries[key].replayCount + 1
                  && (entries[key].firstReplayAt == 0 ==> found.hit.value.firstReplayAt == now)
                  && (entries[key].firstReplayAt != 0 ==> found.hit.value.firstReplayAt == entries[key].firstReplayAt))
            && (found.hit.None? ==> key !in found.entries)
            && found.entries - {key} == entries - {key}
  {
  }

  /** What is put is found from then on, counted from 1, until its window is over; a failure is not put, and no other key is touched. */
  lemma PutThenLookup(entries: map<Key, Entry>, key: Key, response: Response, at: Time, window: int, now: Time)
    ensures !(200 <= response.status < 300) ==> Put(entries, key, response, at, window) == entries
    ensures 200 <= response.status < 300 ==>
              Lookup(Put(entries, key, response, at, window), key, now).hit ==
              if now < at + window then Some(Entry(response, at, now, 1, at + window)) else None
    ensures Put(entries, key, response, at, window) - {key} == entries - {key}
  {
  }

  // ---------------------------------------------------------------------------------------------
  // The cache as it is laid out in memory
  // ---------------------------------------------------------------------------------------------

  /** A header map, which callers can edit in place. */
  class Headers {
    var fields: Fields

    constructor (fields: Fields)
      ensures this.fields == fields
    {
      this.fields := fields;
    }
  }

  /** A cached response whose body and header are references. */
  datatype Shared = Shared(body: array<bv8>, header: Headers, status: int,
                           rotatedAt: Time, firstReplayAt: Time, replayCount: nat, expiresAt: Time)
  {
    ghost function View(): Entry
      reads body, header
    {
      Entry(Response(status, header.fields, body[..]), rotatedAt, firstReplayAt, replayCount, expiresAt)
    }
  }

  /** cloneReplayedResponse: the copy shares nothing with the original. */
  method Clone(entry: Shared) returns (copy: Shared)
    ensures fresh(copy.body) && fresh(copy.header)
    ensures copy.View() == entry.View()
  {
    var source := entry.body;
    var body := new bv8[source.Length](i requires 0 <= i < source.Length reads source => source[i]);
    var header := new Headers(entry.header.fields);
    copy := entry.(body := body, header := header);
    assert copy.body[..] == source[..];
  }

  class RefreshReplayCache {
    var entries: map<Key, Shared>

    /** Every array and header a caller has passed in or been given. */
    ghost var handed: set<object>

    ghost function Owned(): set<object>
      reads this
    {
      (set k | k in entries :: entries[k].body as object) + (set k | k in entries :: entries[k].header as object)
    }

    ghost predicate Valid()
      reads this
    {
      Owned() !! handed
    }

    ghost function View(): map<Key, Entry>
      reads this, Owned()
    {
      map k | k in entries :: entries[k].View()
    }

    constructor ()
      ensures Valid() && View() == map[] && handed == {}
    {
      entries, handed := map[], {};
    }

    method Replay(key: Key, now: Time) returns (ok: bool, copy: Option<Shared>)
      requires Valid()
      modifies this
      ensures Valid()
      ensures View() == Lookup(old(View()), key, now).entries
      ensures ok == copy.Some? == Lookup(old(View()), key, now).hit.Some?
      ensures ok ==> fresh(copy.value.body) && fresh(copy.value.header)
      ensures ok ==> copy.value.View() == Lookup(old(View()), key, now).hit.value
      ensures handed == old(handed) + if ok then {copy.value.body, copy.value.header} else {}
    {
      if key !in entries {
        return false, None;
      }
      var entry := entries[key];
      if entry.expiresAt <= now {
        Drop(key);
        return false, None;
      }
      if entry.firstReplayAt == 0 {
        entry := entry.(firstReplayAt := now);
      }
      entry := entry.(replayCount := entry.replayCount + 1);
      Overwrite(key, entry);
      var clone := Hand(entry);
      return true, Some(clone);
    }

    method Drop(key: Key)
      requires Valid()
      modifies this`entries
      ensures Valid() && View() == old(View()) - {key}
    {
      entries := entries - {key};
    }

    /** Writes back new counters for an entry; its body and header stay the same objects. */
    method Overwrite(key: Key, entry: Shared)
      requires Valid() && key in entries
      requires entry.body == entries[key].body && entry.header == entries[key].header
      modifies this`entries
      ensures Valid() && Owned() == old(Owned()) && View() == old(View())[key := old(entry.View())]
    {
      entries := entries[key := entry];
      assert Owned() == old(Owned()) by {
        assert forall k | k in old(entries) ::
            entries[k].body == old(entries)[k].body && entries[k].header == old(entries)[k].header;
      }
    }

    /** Gives a caller a copy of an entry. */
    method Hand(entry: Shared) returns (copy: Shared)
      requires Valid()
      modifies this`handed
      ensures Valid() && View() == old(View()) && handed == old(handed) + {copy.body, copy.header}
      ensures fresh(copy.body) && fresh(copy.header) && copy.View() == entry.View()
    {
      copy := Clone(entry);
      handed := handed + {copy.body, copy.header};
    }

    /** What a caller passes in is its own: the cache has handed out nothing but copies. */
    method Set(key: Key, entry: Shared)
      requires Valid()
      requires {entry.body as object, entry.header} !! Owned()
      modifies this
      ensures Valid()
      ensures View() == old(View())[key := old(entry.View())]
      ensures handed == old(handed) + {entry.body, entry.header}
    {
      var clone := Clone(entry);
      entries := entries[key := clone];
      handed := handed + {entry.body, entry.header};
    }
  }

  /** storeRefreshReplay: only a 2xx response enters the cache, to stay for exactly the window. */
  method StoreRefreshReplay(cache: RefreshReplayCache, key: Key, body: array<bv8>, header: Headers, status: int,
                            rotationAt: Time, window: int)
    requires cache.Valid() && {body as object, header} !! cache.Owned()
    modifies cache
    ensures cache.Valid()
    ensures cache.View() == Put(old(cache.View()), key, Response(status, header.fields, body[..]), rotationAt, window)
    ensures cache.handed == old(cache.handed) + if Success(status) then {body, header} else {}
  {
    if status < 200 || status >= 300 {
      return;
    }
    cache.Set(key, Shared(body, header, status, rotationAt, 0, 0, rotationAt + window));
  }

  /** A caller overwriting a body it was handed changes nothing that later lookups see. */
  method OverwriteHanded(cache: RefreshReplayCache, body: array<bv8>, i: nat, b: bv8)
    requires cache.Valid() && body in cache.handed && i < body.Length
    modifies body
    ensures cache.Valid() && cache.View() == old(cache.View())
  {
    body[i] := b;
  }

  /** The same for a header map. */
  method EditHanded(cache: RefreshReplayCache, header: Headers, fields: Fields)
    requires cache.Valid() && header in cache.handed
    modifies header
    ensures cache.Valid() && cache.View() == old(cache.View())
  {
    header.fields := fields;
  }

  // ---------------------------------------------------------------------------------------------
  // The recorder
  // ---------------------------------------------------------------------------------------------

  /** The status a recorder reports: an unwritten status counts as 200. */
  function RecordedStatus(status: int): (r: int)
    ensures r != 0 && (status != 0 ==> r == status) && (status == 0 ==> r == 200)
  {
    if status == 0 then 200 else status
  }

  class TokenResponseRecorder {
    var header: Fields
    var body: seq<bv8>
    var status: int

    constructor ()
      ensures header == map[] && body == [] && status == 0
    {
      header, body, status := map[], [], 0;
    }

    /** The last status wins, even after the body has begun. */
    method WriteHeader(status: int)
      modifies this
      ensures this.status == status && body == old(body) && header == old(header)
    {
      this.status := status;
    }

    method Write(data: seq<bv8>) returns (n: nat)
      modifies this
      ensures body == old(body) + data && n == |data| && header == old(header)
      ensures status == RecordedStatus(old(status))
    {
      if status == 0 {
        status := 200;
      }
      body := body + data;
      n := |data|;
    }

    method Replay() returns (r: Response)
      ensures r.status != 0 && (status != 0 ==> r.status == status) && (status == 0 ==> r.status == 200)
      ensures r.body == body && r.header == header
    {
      var s := status;
      if s == 0 {
        s := 200;
      }
      r := Response(s, header, body);
    }
  }

  // ---------------------------------------------------------------------------------------------
  // The cache key
  // ---------------------------------------------------------------------------------------------

  const NUL: char := '\0'

  ghost predicate Injective(hash: string -> string) {
    forall a, b :: hash(a) == hash(b) ==> a == b
  }

  function RefreshReplayKey(hash: string -> string, clientID: string, refreshToken: string): string {
    hash(clientID + [NUL] + refreshToken)
  }

  /** With no NUL in either client ID, equal keys mean the same client and the same token. */
  lemma KeyIdentifiesClientAndToken(hash: string -> string, c1: string, t1: string, c2: string, t2: string)
    requires Injective(hash)
    requires NUL !in c1 && NUL !in c2
    ensures RefreshReplayKey(hash, c1, t1) == RefreshReplayKey(hash, c2, t2) <==> c1 == c2 && t1 == t2
  {
    var a, b := c1 + [NUL] + t1, c2 + [NUL] + t2;
    assert a[|c1|] == NUL && forall i :: 0 <= i < |c1| ==> a[i] == c1[i];
    assert b[|c2|] == NUL && forall i :: 0 <= i < |c2| ==> b[i] == c2[i];
    if a == b {
      assert |c1| == |c2|;
      assert c1 == a[..|c1|] && c2 == b[..|c2|];
      assert t1 == a[|c1| + 1..] && t2 == b[|c2| + 1..];
    }
  }

  /** A NUL in a client ID lets two different pairs share a key. */
  lemma KeyCollidesOnNul(hash: string -> string)
    ensures RefreshReplayKey(hash, "a\0b", "c") == RefreshReplayKey(hash, "a", "b\0c")
  {
    assert "a\0b" + [NUL] + "c" == "a" + [NUL] + "b\0c";
  }

  /** Some other client and token have the same key exactly when there is a NUL in the client ID or in the token. */
  lemma KeyIsSharedIff(hash: string -> string, c: string, t: string)
    requires Injective(hash)
    ensures NUL in c || NUL in t <==>
            exists c2, t2 :: (c2 != c || t2 != t) && RefreshReplayKey(hash, c2, t2) == RefreshReplayKey(hash, c, t)
  {
    if NUL in c {
      var i :| 0 <= i < |c| && c[i] == NUL;
      MoveNul(hash, c[..i], c[i + 1..], t);
      assert c == c[..i] + [NUL] + c[i + 1..];
      assert c[..i] != c;
    } else if NUL in t {
      var i :| 0 <= i < |t| && t[i] == NUL;
      MoveNul(hash, c, t[..i], t[i + 1..]);
      assert t == t[..i] + [NUL] + t[i + 1..];
      assert |t[i + 1..]| != |t|;
    } else {
      forall c2, t2 | RefreshReplayKey(hash, c2, t2) == RefreshReplayKey(hash, c, t)
        ensures c2 == c && t2 == t
      {
        OnlyNul(c, t, c2, t2);
      }
    }
  }

  lemma MoveNul(hash: string -> string, x: string, y: string, z: string)
    ensures RefreshReplayKey(hash, x + [NUL] + y, z) == RefreshReplayKey(hash, x, y + [NUL] + z)
  {
    assert x + [NUL] + y + [NUL] + z == x + [NUL] + (y + [NUL] + z);
  }

  lemma OnlyNul(c: string, t: string, c2: string, t2: string)
    requires NUL !in c && NUL !in t && c2 + [NUL] + t2 == c + [NUL] + t
    ensures c2 == c && t2 == t
  {
    var a, b := c + [NUL] + t, c2 + [NUL] + t2;
    assert b[|c2|] == NUL;
    assert forall i :: 0 <= i < |c| ==> a[i] == c[i];
    assert forall i :: |c| < i < |a| ==> a[i] == t[i - |c| - 1];
    assert |c2| == |c|;
    assert c == a[..|c|] && c2 == b[..|c2|];
    assert t == a[|c| + 1..] && t2 == b[|c2| + 1..];
  }
}
