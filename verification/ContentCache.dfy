/** The byte-bounded content cache against an abstract list from least to most recently used. */
module ContentCache {
  import opened Wrappers
  import opened Ordering
  import opened Strings
  import opened Versions

  // ----- The abstract cache -----

  datatype Item = Item(path: Path, data: Bytes)

  /** Least recently used first. */
  type Lru = seq<Item>

  function TotalBytes(list: Lru): nat {
    if list == [] then 0 else |list[0].data| + TotalBytes(list[1..])
  }

  function Lookup(list: Lru, p: Path): Option<Bytes> {
    if list == [] then None else if list[0].path == p then Some(list[0].data) else Lookup(list[1..], p)
  }

  function Without(list: Lru, p: Path): Lru {
    if list == [] then [] else if list[0].path == p then list[1..] else [list[0]] + Without(list[1..], p)
  }

  /** Drop from the least recently used end until what is left fits. */
  function EvictTo(list: Lru, room: nat): Lru {
    if TotalBytes(list) <= room || list == [] then list else EvictTo(list[1..], room)
  }

  function Touched(list: Lru, p: Path): Lru {
    match Lookup(list, p)
    case None => list
    case Some(data) => Without(list, p) + [Item(p, data)]
  }

  function AfterPut(list: Lru, p: Path, data: Bytes, max: nat): Lru {
    if |data| > max then list else EvictTo(Without(list, p), max - |data|) + [Item(p, data)]
  }

  /** The path equals the prefix or lies beneath it, slashes at either end aside. */
  predicate PathMatchesPrefix(path: Path, prefix: string) {
    var bare, top := Trim(path, '/'), Trim(prefix, '/');
    top == "" || bare == top || (StartsWith(bare, top) && StartsWith(bare[|top|..], "/"))
  }

  function Beneath(paths: set<Path>, prefix: string): set<Path> {
    set p | p in paths && PathMatchesPrefix(p, prefix)
  }

  function Outside(list: Lru, gone: set<Path>): Lru {
    if list == [] then []
    else if list[0].path in gone then Outside(list[1..], gone)
    else [list[0]] + Outside(list[1..], gone)
  }

  function Paths(list: Lru): set<Path> {
    set item | item in list :: item.path
  }

  function AfterRemovePrefix(list: Lru, prefix: string): Lru {
    Outside(list, Beneath(Paths(list), prefix))
  }

  // ----- The concrete cache -----

  function ListOf(order: seq<Path>, entries: map<Path, Bytes>): (list: Lru)
    requires forall p :: p in order ==> p in entries
    ensures |list| == |order| && forall i :: 0 <= i < |order| ==> list[i] == Item(order[i], entries[order[i]])
  {
    if order == [] then [] else [Item(order[0], entries[order[0]])] + ListOf(order[1..], entries)
  }

  function RemoveFirst(order: seq<Path>, p: Path): seq<Path> {
    if order == [] then [] else if order[0] == p then order[1..] else [order[0]] + RemoveFirst(order[1..], p)
  }

  lemma {:induction false} RemoveFirstLeaves(order: seq<Path>, p: Path)
    requires Distinct(order)
    ensures Distinct(RemoveFirst(order, p))
    ensures forall q :: q in RemoveFirst(order, p) <==> q in order && q != p
  {
    if order != [] {
      var rest := order[1..];
      assert order == [order[0]] + rest;
      assert Distinct(rest) && order[0] !in rest by {
        forall i, j | 0 <= i < j < |rest| ensures rest[i] != rest[j] {
          assert order[i + 1] != order[j + 1];
        }
      }
      RemoveFirstLeaves(rest, p);
    }
  }

  lemma {:induction false} ListFrame(order: seq<Path>, a: map<Path, Bytes>, b: map<Path, Bytes>)
    requires forall p :: p in order ==> p in a && p in b && a[p] == b[p]
    ensures ListOf(order, a) == ListOf(order, b)
  {
    if order != [] {
      ListFrame(order[1..], a, b);
    }
  }

  /** Dropping a path from the two concrete fields drops it from the list. */
  lemma {:induction false} ListWithout(order: seq<Path>, entries: map<Path, Bytes>, p: Path)
    requires Distinct(order) && forall q :: q in order ==> q in entries
    ensures forall q :: q in RemoveFirst(order, p) ==> q in entries - {p}
    ensures ListOf(RemoveFirst(order, p), entries - {p}) == Without(ListOf(order, entries), p)
  {
    RemoveFirstLeaves(order, p);
    if order != [] {
      var rest := order[1..];
      assert Distinct(rest) && order[0] !in rest by {
        forall i, j | 0 <= i < j < |rest| ensures rest[i] != rest[j] {
          assert order[i + 1] != order[j + 1];
        }
        forall j | 0 <= j < |rest| ensures rest[j] != order[0] {
          assert order[j + 1] != order[0];
        }
      }
      if order[0] == p {
        ListFrame(rest, entries, entries - {p});
      } else {
        ListWithout(rest, entries, p);
      }
    }
  }

  lemma {:induction false} LookupOfList(order: seq<Path>, entries: map<Path, Bytes>, p: Path)
    requires forall q :: q in order ==> q in entries
    ensures Lookup(ListOf(order, entries), p) == if p in order then Some(entries[p]) else None
  {
    if order != [] {
      LookupOfList(order[1..], entries, p);
      assert order == [order[0]] + order[1..];
    }
  }

  lemma {:induction false} ListAppend(order: seq<Path>, entries: map<Path, Bytes>, p: Path)
    requires p in entries && forall q :: q in order ==> q in entries
    ensures ListOf(order + [p], entries) == ListOf(order, entries) + [Item(p, entries[p])]
  {
  }

  lemma {:induction false} TotalAppend(list: Lru, item: Item)
    ensures TotalBytes(list + [item]) == TotalBytes(list) + |item.data|
  {
    if list == [] {
      assert list + [item] == [item] && [item][1..] == [];
    } else {
      assert (list + [item])[1..] == list[1..] + [item];
      TotalAppend(list[1..], item);
    }
  }

  lemma {:induction false} TotalWithout(list: Lru, p: Path)
    ensures TotalBytes(Without(list, p)) == TotalBytes(list) - (match Lookup(list, p) case None => 0 case Some(data) => |data|)
    ensures Lookup(list, p).None? ==> Without(list, p) == list
  {
    if list != [] && list[0].path != p {
      TotalWithout(list[1..], p);
      assert Without(list, p)[1..] == Without(list[1..], p);
      assert list == [list[0]] + list[1..];
    }
  }

  lemma {:induction false} EvictFits(list: Lru, room: nat)
    ensures TotalBytes(EvictTo(list, room)) <= room
  {
    if TotalBytes(list) > room {
      EvictFits(list[1..], room);
    }
  }

  /** The concrete fields agree: the order lists the keys once each, and the bytes counted are those held. */
  ghost predicate Sound(order: seq<Path>, entries: map<Path, Bytes>, bytes: nat, max: nat) {
    && Distinct(order)
    && (forall p :: p in order <==> p in entries)
    && bytes == TotalBytes(ListOf(order, entries)) <= max
  }

  lemma ListPaths(order: seq<Path>, entries: map<Path, Bytes>)
    requires forall p :: p in order <==> p in entries
    ensures Paths(ListOf(order, entries)) == entries.Keys
  {
    var list := ListOf(order, entries);
    forall p | p in entries ensures p in Paths(list) {
      var i :| 0 <= i < |order| && order[i] == p;
      assert list[i] in list && list[i].path == p;
    }
  }

  lemma ListDistinct(order: seq<Path>, entries: map<Path, Bytes>)
    requires Distinct(order) && forall p :: p in order ==> p in entries
    ensures DistinctPaths(ListOf(order, entries))
  {
  }

  /** Dropping a path. */
  lemma RemoveFields(order: seq<Path>, entries: map<Path, Bytes>, bytes: nat, max: nat, p: Path)
    requires Sound(order, entries, bytes, max)
    ensures p !in entries ==> ListOf(order, entries) == Without(ListOf(order, entries), p) && entries == entries - {p}
    ensures p in entries ==>
              && |entries[p]| <= bytes
              && Sound(RemoveFirst(order, p), entries - {p}, bytes - |entries[p]|, max)
              && ListOf(RemoveFirst(order, p), entries - {p}) == Without(ListOf(order, entries), p)
  {
    hide Without, RemoveFirst, ListOf, TotalBytes, Distinct, Lookup;
    LookupOfList(order, entries, p);
    TotalWithout(ListOf(order, entries), p);
    RemoveFirstLeaves(order, p);
    ListWithout(order, entries, p);
  }

  /** Dropping the least recently used path is dropping the front of the list. */
  lemma EvictFields(order: seq<Path>, entries: map<Path, Bytes>, bytes: nat, max: nat, room: nat)
    requires Sound(order, entries, bytes, max)
    ensures bytes <= room ==> EvictTo(ListOf(order, entries), room) == ListOf(order, entries)
    ensures bytes > room ==>
              && order != [] && order[0] in entries
              && EvictTo(ListOf(order, entries), room) == EvictTo(Without(ListOf(order, entries), order[0]), room)
  {
    assert order != [] ==> order[0] in order;
  }

  /** Adding a new path. */
  lemma PutFields(order: seq<Path>, entries: map<Path, Bytes>, bytes: nat, max: nat, p: Path, data: Bytes)
    requires Sound(order, entries, bytes, max) && p !in entries && bytes + |data| <= max
    ensures Sound(order + [p], entries[p := data], bytes + |data|, max)
    ensures ListOf(order + [p], entries[p := data]) == ListOf(order, entries) + [Item(p, data)]
  {
    ListFrame(order, entries, entries[p := data]);
    ListAppend(order, entries[p := data], p);
    TotalAppend(ListOf(order, entries), Item(p, data));
  }

  /** Promoting a path. */
  lemma PromoteFields(order: seq<Path>, entries: map<Path, Bytes>, bytes: nat, max: nat, p: Path)
    requires Sound(order, entries, bytes, max)
    ensures Lookup(ListOf(order, entries), p) == Get(entries, p)
    ensures p in entries ==>
              && Sound(RemoveFirst(order, p) + [p], entries, bytes, max)
              && ListOf(RemoveFirst(order, p) + [p], entries) == Touched(ListOf(order, entries), p)
  {
    LookupOfList(order, entries, p);
    hide Sound, ListOf, Lookup, RemoveFirst, Touched, Without;
    if p in entries {
      PromotePresent(order, entries, bytes, max, p);
    }
  }

  lemma PromotePresent(order: seq<Path>, entries: map<Path, Bytes>, bytes: nat, max: nat, p: Path)
    requires Sound(order, entries, bytes, max) && p in entries && Lookup(ListOf(order, entries), p) == Some(entries[p])
    ensures Sound(RemoveFirst(order, p) + [p], entries, bytes, max)
    ensures ListOf(RemoveFirst(order, p) + [p], entries) == Touched(ListOf(order, entries), p)
  {
    var data, rest, list := entries[p], entries - {p}, ListOf(order, entries);
    assert rest[p := data] == entries;
    assert bytes <= max;
    TouchedFound(list, p, data);
    hide Sound, ListOf, Lookup, RemoveFirst, Touched, Without;
    RemoveFields(order, entries, bytes, max, p);
    PutBack(RemoveFirst(order, p), rest, entries, bytes - |data|, bytes, max, p, data);
  }

  lemma PutBack(order: seq<Path>, rest: map<Path, Bytes>, entries: map<Path, Bytes>, left: nat, bytes: nat, max: nat,
      p: Path, data: Bytes)
    requires Sound(order, rest, left, max) && p !in rest && left + |data| == bytes <= max && entries == rest[p := data]
    ensures Sound(order + [p], entries, bytes, max)
    ensures ListOf(order + [p], entries) == ListOf(order, rest) + [Item(p, data)]
  {
    PutFields(order, rest, left, max, p, data);
    hide *;
  }

  lemma TouchedFound(list: Lru, p: Path, data: Bytes)
    requires Lookup(list, p) == Some(data)
    ensures Touched(list, p) == Without(list, p) + [Item(p, data)]
  {
  }

  class ContentCache {
    const maxBytes: nat
    var currentBytes: nat
    var order: seq<Path>
    var entries: map<Path, Bytes>

    ghost predicate Valid()
      reads this
    {
      Sound(order, entries, currentBytes, maxBytes)
    }

    ghost function View(): Lru
      requires Valid()
      reads this
    {
      ListOf(order, entries)
    }

    constructor (maxBytes: nat)
      ensures Valid() && this.maxBytes == maxBytes && View() == []
    {
      this.maxBytes, currentBytes, order, entries := maxBytes, 0, [], map[];
    }

    method Get(path: Path) returns (content: Option<Bytes>)
      requires Valid()
      modifies this`order
      ensures Valid()
      ensures content == Lookup(old(View()), path)
      ensures View() == Touched(old(View()), path)
    {
      PromoteFields(order, entries, currentBytes, maxBytes, path);
      hide Sound, ListOf, RemoveFirst;
      if path !in entries {
        return None;
      }
      order := RemoveFirst(order, path) + [path];
      content := Some(entries[path]);
    }

    method Remove(path: Path)
      requires Valid()
      modifies this
      ensures Valid()
      ensures View() == Without(old(View()), path)
      ensures entries == old(entries) - {path}
    {
      RemoveFields(order, entries, currentBytes, maxBytes, path);
      hide Sound, ListOf, RemoveFirst, Without;
      if path in entries {
        currentBytes := currentBytes - |entries[path]|;
        entries := entries - {path};
        order := RemoveFirst(order, path);
      }
    }

    /** Evict from the least recently used end until no more than `room` bytes are held. */
    method MakeRoom(room: nat)
      requires Valid()
      modifies this
      ensures Valid()
      ensures View() == EvictTo(old(View()), room)
      ensures currentBytes <= room && entries.Keys <= old(entries.Keys)
    {
      hide Sound, ListOf, Without, EvictTo;
      ghost var list := View();
      EvictFields(order, entries, currentBytes, maxBytes, room);
      while currentBytes > room
        invariant Valid() && entries.Keys <= old(entries.Keys)
        invariant EvictTo(list, room) == EvictTo(View(), room)
        invariant currentBytes <= room ==> EvictTo(View(), room) == View()
        decreases |entries|
      {
        EvictFields(order, entries, currentBytes, maxBytes, room);
        Remove(order[0]);
        EvictFields(order, entries, currentBytes, maxBytes, room);
      }
    }

    method Put(path: Path, data: Bytes)
      requires Valid()
      modifies this
      ensures Valid()
      ensures View() == AfterPut(old(View()), path, data, maxBytes)
    {
      if |data| > maxBytes {
        return;
      }
      hide Sound, ListOf, Without, EvictTo;
      Remove(path);
      MakeRoom(maxBytes - |data|);
      PutFields(order, entries, currentBytes, maxBytes, path, data);
      entries := entries[path := data];
      currentBytes := currentBytes + |data|;
      order := order + [path];
    }

    /** Remove the given paths, in whatever order. */
    method RemoveEach(keys: set<Path>)
      requires Valid()
      modifies this
      ensures Valid()
      ensures View() == Outside(old(View()), keys)
    {
      ghost var list, gone := View(), {};
      ListDistinct(order, entries);
      OutsideNothing(list);
      hide *;
      var left := keys;
      while left != {}
        invariant Valid() && gone !! left && gone + left == keys
        invariant View() == Outside(list, gone)
        decreases |left|
      {
        var key :| key in left;
        OutsideOneMore(list, gone, key);
        Remove(key);
        gone, left := gone + {key}, left - {key};
      }
    }

    method RemovePrefix(prefix: string)
      requires Valid()
      modifies this
      ensures Valid()
      ensures View() == AfterRemovePrefix(old(View()), prefix)
    {
      ListPaths(order, entries);
      hide Sound, ListOf, Outside, Beneath, Paths;
      RemoveEach(Beneath(entries.Keys, prefix));
    }

    method Clear()
      modifies this
      ensures Valid() && View() == []
    {
      entries, order, currentBytes := map[], [], 0;
    }
  }

  // ----- Any sequence of calls -----

  ghost predicate DistinctPaths(list: Lru) {
    forall i, j :: 0 <= i < j < |list| ==> list[i].path != list[j].path
  }

  lemma DistinctTail(list: Lru)
    requires DistinctPaths(list) && list != []
    ensures DistinctPaths(list[1..])
    ensures list[0].path !in Paths(list[1..])
  {
    var rest := list[1..];
    forall i, j | 0 <= i < j < |rest| ensures rest[i].path != rest[j].path {
      assert list[i + 1].path != list[j + 1].path;
    }
    forall j | 0 <= j < |rest| ensures rest[j].path != list[0].path {
      assert list[0].path != list[j + 1].path;
    }
  }

  lemma {:induction false} LookupIsPresence(list: Lru, p: Path)
    ensures Lookup(list, p).Some? <==> p in Paths(list)
  {
    if list != [] {
      LookupIsPresence(list[1..], p);
      assert list == [list[0]] + list[1..];
    }
  }

  lemma {:induction false} WithoutMeaning(list: Lru, q: Path, p: Path)
    requires DistinctPaths(list)
    ensures DistinctPaths(Without(list, q)) && Paths(Without(list, q)) == Paths(list) - {q}
    ensures Lookup(Without(list, q), p) == if p == q then None else Lookup(list, p)
  {
    if list != [] {
      DistinctTail(list);
      LookupIsPresence(list[1..], p);
      assert Paths(list) == {list[0].path} + Paths(list[1..]) by {
        assert list == [list[0]] + list[1..];
      }
      if list[0].path != q {
        WithoutMeaning(list[1..], q, p);
        DistinctCons(list[0], Without(list[1..], q));
      }
    }
  }

  lemma DistinctCons(item: Item, list: Lru)
    requires DistinctPaths(list) && item.path !in Paths(list)
    ensures DistinctPaths([item] + list) && Paths([item] + list) == {item.path} + Paths(list)
  {
    forall j | 0 <= j < |list| ensures list[j].path != item.path {
      assert list[j] in list;
    }
  }

  lemma DistinctAppend(list: Lru, item: Item)
    requires DistinctPaths(list) && item.path !in Paths(list)
    ensures DistinctPaths(list + [item]) && Paths(list + [item]) == {item.path} + Paths(list)
  {
    forall j | 0 <= j < |list| ensures list[j].path != item.path {
      assert list[j] in list;
    }
  }

  lemma {:induction false} LookupAppend(list: Lru, item: Item, p: Path)
    requires item.path !in Paths(list)
    ensures Lookup(list + [item], p) == if p == item.path then Some(item.data) else Lookup(list, p)
  {
    if list == [] {
      assert list + [item] == [item] && [item][1..] == [];
    } else {
      assert (list + [item])[1..] == list[1..] + [item] && list == [list[0]] + list[1..];
      LookupAppend(list[1..], item, p);
    }
  }

  /** Evicting takes exactly the shortest least-recently-used prefix that makes room. */
  lemma {:induction false} EvictsShortestPrefix(list: Lru, room: nat) returns (k: nat)
    ensures k <= |list| && EvictTo(list, room) == list[k..] && TotalBytes(list[k..]) <= room
    ensures forall j :: 0 <= j < k ==> TotalBytes(list[j..]) > room
  {
    assert list[0..] == list;
    if TotalBytes(list) <= room {
      k := 0;
    } else {
      var n := EvictsShortestPrefix(list[1..], room);
      k := n + 1;
      assert list[1..][n..] == list[k..];
      forall j | 0 <= j < k ensures TotalBytes(list[j..]) > room {
        if j > 0 { assert list[1..][j - 1..] == list[j..]; }
      }
    }
  }

  lemma {:induction false} EvictMeaning(list: Lru, room: nat, p: Path)
    requires DistinctPaths(list)
    ensures DistinctPaths(EvictTo(list, room)) && Paths(EvictTo(list, room)) <= Paths(list)
    ensures Lookup(EvictTo(list, room), p) in {None, Lookup(list, p)}
  {
    if TotalBytes(list) > room {
      DistinctTail(list);
      EvictMeaning(list[1..], room, p);
      LookupIsPresence(EvictTo(list[1..], room), p);
      assert list == [list[0]] + list[1..];
    }
  }

  lemma {:induction false} OutsideMeaning(list: Lru, gone: set<Path>, p: Path)
    requires DistinctPaths(list)
    ensures DistinctPaths(Outside(list, gone)) && Paths(Outside(list, gone)) == Paths(list) - gone
    ensures Lookup(Outside(list, gone), p) == if p in gone then None else Lookup(list, p)
  {
    if list != [] {
      DistinctTail(list);
      OutsideMeaning(list[1..], gone, p);
      assert Paths(list) == {list[0].path} + Paths(list[1..]) by {
        assert list == [list[0]] + list[1..];
      }
      if list[0].path !in gone {
        DistinctCons(list[0], Outside(list[1..], gone));
      }
    }
  }

  lemma {:induction false} OutsideNothing(list: Lru)
    ensures Outside(list, {}) == list
  {
    if list != [] {
      OutsideNothing(list[1..]);
    }
  }

  /** Removing one path after another is removing them together. */
  lemma {:induction false} OutsideOneMore(list: Lru, gone: set<Path>, p: Path)
    requires DistinctPaths(list) && p !in gone
    ensures Without(Outside(list, gone), p) == Outside(list, gone + {p})
  {
    if list != [] {
      DistinctTail(list);
      if list[0].path == p {
        OutsideAbsent(list[1..], gone, p);
      } else {
        OutsideOneMore(list[1..], gone, p);
      }
    }
  }

  lemma {:induction false} OutsideAbsent(list: Lru, gone: set<Path>, p: Path)
    requires p !in Paths(list)
    ensures Outside(list, gone) == Outside(list, gone + {p})
  {
    if list != [] {
      assert list[0] in list;
      OutsideAbsent(list[1..], gone, p);
    }
  }

  lemma {:induction false} TotalOutside(list: Lru, gone: set<Path>)
    ensures TotalBytes(Outside(list, gone)) <= TotalBytes(list)
  {
    if list != [] {
      TotalOutside(list[1..], gone);
    }
  }

  datatype CacheCall = GetCall(path: Path) | PutCall(path: Path, data: Bytes) | RemoveCall(path: Path) | RemovePrefixCall(prefix: string) | ClearCall

  function AfterCall(list: Lru, call: CacheCall, max: nat): Lru {
    match call
    case GetCall(p) => Touched(list, p)
    case PutCall(p, data) => AfterPut(list, p, data, max)
    case RemoveCall(p) => Without(list, p)
    case RemovePrefixCall(prefix) => AfterRemovePrefix(list, prefix)
    case ClearCall => []
  }

  function AfterCalls(calls: seq<CacheCall>, max: nat): Lru {
    if calls == [] then [] else AfterCall(AfterCalls(calls[..|calls| - 1], max), calls[|calls| - 1], max)
  }

  /** The content of the last put of the path that fitted, unless the path was removed since. */
  function LastFitting(calls: seq<CacheCall>, p: Path, max: nat): Option<Bytes> {
    if calls == [] then None
    else
      var earlier := LastFitting(calls[..|calls| - 1], p, max);
      match calls[|calls| - 1]
      case GetCall(_) => earlier
      case PutCall(q, data) => if q == p && |data| <= max then Some(data) else earlier
      case RemoveCall(q) => if q == p then None else earlier
      case RemovePrefixCall(prefix) => if PathMatchesPrefix(p, prefix) then None else earlier
      case ClearCall => None
  }

  /** One call keeps paths distinct and the bytes within the bound. */
  lemma CallKeepsBounds(list: Lru, call: CacheCall, max: nat)
    requires DistinctPaths(list) && TotalBytes(list) <= max
    ensures DistinctPaths(AfterCall(list, call, max)) && TotalBytes(AfterCall(list, call, max)) <= max
  {
    match call
    case GetCall(p) =>
      if Lookup(list, p).Some? {
        WithoutMeaning(list, p, p);
        TotalWithout(list, p);
        DistinctAppend(Without(list, p), Item(p, Lookup(list, p).value));
        TotalAppend(Without(list, p), Item(p, Lookup(list, p).value));
      }
    case PutCall(p, data) =>
      if |data| <= max {
        WithoutMeaning(list, p, p);
        EvictMeaning(Without(list, p), max - |data|, p);
        EvictFits(Without(list, p), max - |data|);
        DistinctAppend(EvictTo(Without(list, p), max - |data|), Item(p, data));
        TotalAppend(EvictTo(Without(list, p), max - |data|), Item(p, data));
      }
    case RemoveCall(p) =>
      WithoutMeaning(list, p, p);
      TotalWithout(list, p);
    case RemovePrefixCall(prefix) =>
      var gone := Beneath(Paths(list), prefix);
      OutsideMeaning(list, gone, "");
      TotalOutside(list, gone);
    case ClearCall =>
  }

  /** What a path's answer may be after one call, given what it was. */
  predicate Answers(call: CacheCall, max: nat, p: Path, before: Option<Bytes>, after: Option<Bytes>) {
    match call
    case GetCall(_) => after == before
    case PutCall(q, data) =>
      if |data| > max then after == before
      else if q == p then after == Some(data)
      else after == None || after == before
    case RemoveCall(q) => after == if q == p then None else before
    case RemovePrefixCall(prefix) => after == if PathMatchesPrefix(p, prefix) then None else before
    case ClearCall => after == None
  }

  /** What one call can change about the answer for a path. */
  lemma CallAnswers(list: Lru, call: CacheCall, max: nat, p: Path)
    requires DistinctPaths(list)
    ensures Answers(call, max, p, Lookup(list, p), Lookup(AfterCall(list, call, max), p))
  {
    match call
    case GetCall(q) =>
      if Lookup(list, q).Some? {
        WithoutMeaning(list, q, p);
        LookupAppend(Without(list, q), Item(q, Lookup(list, q).value), p);
      }
    case PutCall(q, data) =>
      if |data| <= max {
        WithoutMeaning(list, q, p);
        EvictMeaning(Without(list, q), max - |data|, p);
        LookupAppend(EvictTo(Without(list, q), max - |data|), Item(q, data), p);
      }
    case RemoveCall(q) =>
      WithoutMeaning(list, q, p);
    case RemovePrefixCall(top) =>
      OutsideMeaning(list, Beneath(Paths(list), top), p);
      LookupIsPresence(list, p);
    case ClearCall =>
  }

  /**
   * Over any sequence of calls: paths stay distinct, bytes within the bound, and a get answers nothing or
   * the last put that fitted since the path was last removed.
   */
  lemma {:induction false} GetIsLastFittingPut(calls: seq<CacheCall>, max: nat, p: Path)
    ensures DistinctPaths(AfterCalls(calls, max)) && TotalBytes(AfterCalls(calls, max)) <= max
    ensures Lookup(AfterCalls(calls, max), p) in {None, LastFitting(calls, p, max)}
  {
    hide PathMatchesPrefix, AfterCall;
    if calls != [] {
      var before := calls[..|calls| - 1];
      GetIsLastFittingPut(before, max, p);
      CallKeepsBounds(AfterCalls(before, max), calls[|calls| - 1], max);
      CallAnswers(AfterCalls(before, max), calls[|calls| - 1], max, p);
    }
  }

  // ----- The order is the order of last use -----

  /** When the path was last got or put with a fitting content; -1 if never. */
  function LastUse(calls: seq<CacheCall>, max: nat, p: Path): (k: int)
    ensures -1 <= k < |calls|
  {
    if calls == [] then -1
    else
      var n := |calls| - 1;
      match calls[n]
      case GetCall(q) => if q == p then n else LastUse(calls[..n], max, p)
      case PutCall(q, data) => if q == p && |data| <= max then n else LastUse(calls[..n], max, p)
      case _ => LastUse(calls[..n], max, p)
  }

  function Uses(calls: seq<CacheCall>, max: nat): Path -> int {
    (p: Path) => LastUse(calls, max, p)
  }

  ghost predicate Ascending(list: Lru, use: Path -> int) {
    forall i, j :: 0 <= i < j < |list| ==> use(list[i].path) < use(list[j].path)
  }

  lemma AscendingTail(list: Lru, use: Path -> int)
    requires Ascending(list, use) && list != []
    ensures Ascending(list[1..], use)
    ensures forall p :: p in Paths(list[1..]) ==> use(list[0].path) < use(p)
  {
    var rest := list[1..];
    forall i, j | 0 <= i < j < |rest| ensures use(rest[i].path) < use(rest[j].path) {
      assert use(list[i + 1].path) < use(list[j + 1].path);
    }
    forall j | 0 <= j < |rest| ensures use(list[0].path) < use(rest[j].path) {
      assert use(list[0].path) < use(list[j + 1].path);
    }
  }

  lemma AscendingCons(item: Item, list: Lru, use: Path -> int)
    requires Ascending(list, use) && forall p :: p in Paths(list) ==> use(item.path) < use(p)
    ensures Ascending([item] + list, use)
  {
    forall j | 0 <= j < |list| ensures use(item.path) < use(list[j].path) {
      assert list[j] in list && list[j].path in Paths(list);
    }
  }

  lemma AscendingAppend(list: Lru, item: Item, use: Path -> int)
    requires Ascending(list, use) && forall p :: p in Paths(list) ==> use(p) < use(item.path)
    ensures Ascending(list + [item], use)
  {
    forall j | 0 <= j < |list| ensures use(list[j].path) < use(item.path) {
      assert list[j] in list && list[j].path in Paths(list);
    }
  }

  lemma AscendingFrame(list: Lru, use: Path -> int, now: Path -> int)
    requires Ascending(list, use) && forall p :: p in Paths(list) ==> use(p) == now(p)
    ensures Ascending(list, now)
  {
    forall j | 0 <= j < |list| ensures use(list[j].path) == now(list[j].path) {
      assert list[j] in list && list[j].path in Paths(list);
    }
  }

  lemma PathsCons(item: Item, rest: Lru)
    ensures Paths([item] + rest) == {item.path} + Paths(rest)
  {
    var list := [item] + rest;
    assert list[0] == item && list[1..] == rest;
    forall x ensures x in list <==> x == item || x in rest {
      if x in rest {
        var k :| 0 <= k < |rest| && rest[k] == x;
        assert list[k + 1] == x;
      }
    }
  }

  lemma {:induction false} AscendingWithout(list: Lru, q: Path, use: Path -> int)
    requires Ascending(list, use)
    ensures Ascending(Without(list, q), use) && Paths(Without(list, q)) <= Paths(list)
  {
    if list != [] {
      var rest := Without(list[1..], q);
      AscendingTail(list, use);
      assert list == [list[0]] + list[1..];
      PathsCons(list[0], list[1..]);
      AscendingWithout(list[1..], q, use);
      if list[0].path != q {
        assert Without(list, q) == [list[0]] + rest;
        PathsCons(list[0], rest);
        hide Ascending, Paths, Without;
        AscendingCons(list[0], rest, use);
      }
    }
  }

  lemma {:induction false} AscendingOutside(list: Lru, gone: set<Path>, use: Path -> int)
    requires Ascending(list, use)
    ensures Ascending(Outside(list, gone), use) && Paths(Outside(list, gone)) <= Paths(list)
  {
    if list != [] {
      var rest := Outside(list[1..], gone);
      AscendingTail(list, use);
      assert list == [list[0]] + list[1..];
      PathsCons(list[0], list[1..]);
      AscendingOutside(list[1..], gone, use);
      if list[0].path in gone {
        assert Outside(list, gone) == rest;
      } else {
        assert Outside(list, gone) == [list[0]] + rest;
        PathsCons(list[0], rest);
        hide Ascending, Paths, Outside;
        AscendingCons(list[0], rest, use);
      }
    }
  }

  lemma {:induction false} AscendingEvict(list: Lru, room: nat, use: Path -> int)
    requires Ascending(list, use)
    ensures Ascending(EvictTo(list, room), use) && Paths(EvictTo(list, room)) <= Paths(list)
  {
    if TotalBytes(list) > room {
      AscendingTail(list, use);
      assert list == [list[0]] + list[1..];
      PathsCons(list[0], list[1..]);
      AscendingEvict(list[1..], room, use);
    }
  }

  /** One call: what stays keeps its order, and what is used moves behind everything used before. */
  lemma CallKeepsRecency(list: Lru, calls: seq<CacheCall>, max: nat)
    requires calls != [] && DistinctPaths(list)
    requires Ascending(list, Uses(calls[..|calls| - 1], max))
    ensures Ascending(AfterCall(list, calls[|calls| - 1], max), Uses(calls, max))
  {
    hide PathMatchesPrefix, Ascending, DistinctPaths;
    var n := |calls| - 1;
    var was, now := Uses(calls[..n], max), Uses(calls, max);
    match calls[n]
    case GetCall(q) =>
      LookupIsPresence(list, q);
      if q in Paths(list) {
        WithoutMeaning(list, q, q);
        AscendingWithout(list, q, was);
        AscendingFrame(Without(list, q), was, now);
        AscendingAppend(Without(list, q), Item(q, Lookup(list, q).value), now);
      } else {
        AscendingFrame(list, was, now);
      }
    case PutCall(q, data) =>
      if |data| <= max {
        WithoutMeaning(list, q, q);
        AscendingWithout(list, q, was);
        var kept := EvictTo(Without(list, q), max - |data|);
        AscendingEvict(Without(list, q), max - |data|, was);
        AscendingFrame(kept, was, now);
        AscendingAppend(kept, Item(q, data), now);
      } else {
        AscendingFrame(list, was, now);
      }
    case RemoveCall(q) =>
      AscendingWithout(list, q, was);
      AscendingFrame(Without(list, q), was, now);
    case RemovePrefixCall(top) =>
      AscendingOutside(list, Beneath(Paths(list), top), was);
      AscendingFrame(AfterRemovePrefix(list, top), was, now);
    case ClearCall =>
      NothingAscends(now);
  }

  lemma NothingAscends(use: Path -> int)
    ensures Ascending([], use)
  {
  }

  /** After any calls the list runs from the entry used longest ago to the one used last. */
  lemma {:induction false} OrderIsRecency(calls: seq<CacheCall>, max: nat)
    ensures Ascending(AfterCalls(calls, max), Uses(calls, max))
  {
    hide AfterCall, Ascending, DistinctPaths;
    if calls == [] {
      NothingAscends(Uses(calls, max));
    } else {
      OrderIsRecency(calls[..|calls| - 1], max);
      GetIsLastFittingPut(calls[..|calls| - 1], max, "");
      CallKeepsRecency(AfterCalls(calls[..|calls| - 1], max), calls, max);
    }
  }
}
