/** Flat and nested configurations, core/config.py:34-64. */
module Configs {
  import opened Wrappers
  import opened Sequences
  import opened Splitting

  /** A leaf stands for any value that is not a mapping. */
  datatype Value = Leaf(data: int) | Dict(entries: Config)

  datatype Entry = Entry(key: string, value: Value)

  /** A dictionary, in insertion order. */
  type Config = seq<Entry>

  /** The index of the entry for `key`, or the length. */
  function Index(c: Config, key: string): (i: nat)
    ensures i <= |c|
    ensures i < |c| ==> c[i].key == key
    ensures forall j :: 0 <= j < i ==> c[j].key != key
  {
    if c == [] then 0
    else
      var i := Index(c[..|c| - 1], key);
      if i < |c| - 1 || c[|c| - 1].key == key then i else |c|
  }

  /** `c[key] = value`: replaces the value where it stands or appends an entry. */
  function Put(c: Config, key: string, value: Value): Config {
    var i := Index(c, key);
    if i < |c| then c[i := Entry(key, value)] else c + [Entry(key, value)]
  }

  /** `dict(items)`: later values replace earlier ones. */
  function DictOf(items: seq<Entry>): Config {
    if items == [] then [] else Put(DictOf(items[..|items| - 1]), items[|items| - 1].key, items[|items| - 1].value)
  }

  function Under(parent: string, key: string, sep: char): string {
    if parent != "" then parent + [sep] + key else key
  }

  /** The flat configuration: each leaf under its keys joined by the separator. */
  function Flatten(c: Config, sep: char, parent: string): Config
    decreases c, 1
  {
    DictOf(FlatItems(c, sep, parent))
  }

  function FlatItems(c: Config, sep: char, parent: string): seq<Entry>
    decreases c, 0
  {
    if c == [] then [] else FlatItems(c[..|c| - 1], sep, parent) + FlatEntry(c[|c| - 1], sep, parent)
  }

  function FlatEntry(e: Entry, sep: char, parent: string): seq<Entry>
    decreases e, 0
  {
    var key := Under(parent, e.key, sep);
    match e.value
    case Leaf(_) => [Entry(key, e.value)]
    case Dict(entries) => Flatten(entries, sep, key)
  }

  /** Stores a value under a path of keys; None if a leaf is in the way. */
  function Insert(c: Config, path: seq<string>, value: Value): Option<Config>
    requires path != []
    decreases |path|
  {
    if |path| == 1 then Some(Put(c, path[0], value))
    else
      var i := Index(c, path[0]);
      if i < |c| && c[i].value.Leaf? then None
      else
        match Insert(if i < |c| then c[i].value.entries else [], path[1..], value)
        case None => None
        case Some(nested) => Some(Put(c, path[0], Dict(nested)))
  }

  /** The nested configuration; None stands for the exception that a leaf in the way ends in. */
  function Unflatten(flat: Config, sep: char): Option<Config> {
    if flat == [] then Some([])
    else
      var n := |flat| - 1;
      match Unflatten(flat[..n], sep)
      case None => None
      case Some(nested) => Insert(nested, Split(flat[n].key, sep), flat[n].value)
  }

  method FlattenConfig(c: Config, sep: char, parent: string) returns (flat: Config)
    ensures flat == Flatten(c, sep, parent)
    decreases c
  {
    var items: seq<Entry> := [];
    for i := 0 to |c|
      invariant items == FlatItems(c[..i], sep, parent)
    {
      assert c[..i + 1][..i] == c[..i];
      var key := Under(parent, c[i].key, sep);
      match c[i].value {
        case Leaf(_) =>
          items := items + [Entry(key, c[i].value)];
        case Dict(entries) =>
          var nested := FlattenConfig(entries, sep, key);
          items := items + nested;
      }
    }
    assert c[..|c|] == c;
    flat := DictOf(items);
  }

  method UnflattenConfig(flat: Config, sep: char) returns (nested: Option<Config>)
    ensures nested == Unflatten(flat, sep)
  {
    nested := Some([]);
    for i := 0 to |flat|
      invariant nested == Unflatten(flat[..i], sep)
      invariant nested.Some?
    {
      assert flat[..i + 1][..i] == flat[..i];
      var keys := Split(flat[i].key, sep);
      nested := Insert(nested.value, keys, flat[i].value);
      if nested == None {
        RaisesForGood(flat, i + 1, sep);
        return;
      }
    }
    assert flat[..|flat|] == flat;
  }

  lemma {:induction false} RaisesForGood(flat: Config, i: nat, sep: char)
    requires i <= |flat| && Unflatten(flat[..i], sep) == None
    ensures Unflatten(flat, sep) == None
  {
    if i < |flat| {
      assert flat[..|flat| - 1][..i] == flat[..i];
      RaisesForGood(flat[..|flat| - 1], i, sep);
    } else {
      assert flat[..i] == flat;
    }
  }

  // ----- The leaves of a configuration and the paths to them -----

  datatype Item = Item(path: seq<string>, value: Value)

  function Prefixed(key: string, items: seq<Item>): (r: seq<Item>)
    ensures |r| == |items|
    ensures forall i :: 0 <= i < |items| ==> r[i] == Item([key] + items[i].path, items[i].value)
  {
    if items == [] then []
    else Prefixed(key, items[..|items| - 1]) + [Item([key] + items[|items| - 1].path, items[|items| - 1].value)]
  }

  function ItemsOf(e: Entry): seq<Item> {
    match e.value
    case Leaf(_) => [Item([e.key], e.value)]
    case Dict(entries) => Prefixed(e.key, Paths(entries))
  }

  function Paths(c: Config): seq<Item> {
    if c == [] then [] else Paths(c[..|c| - 1]) + ItemsOf(c[|c| - 1])
  }

  ghost predicate DistinctKeys(items: seq<Entry>) {
    forall i, j :: 0 <= i < j < |items| ==> items[i].key != items[j].key
  }

  /** As every dictionary, at every level: no key twice. */
  ghost predicate IsDict(c: Config) {
    DistinctKeys(c) && forall i :: 0 <= i < |c| && c[i].value.Dict? ==> IsDict(c[i].value.entries)
  }

  /** No mapping in it is empty. */
  ghost predicate NoEmptyDict(c: Config) {
    forall i :: 0 <= i < |c| && c[i].value.Dict? ==> c[i].value.entries != [] && NoEmptyDict(c[i].value.entries)
  }

  /** No key in it has the separator. */
  ghost predicate KeysSepFree(c: Config, sep: char) {
    && (forall i :: 0 <= i < |c| ==> sep !in c[i].key)
    && (forall i :: 0 <= i < |c| && c[i].value.Dict? ==> KeysSepFree(c[i].value.entries, sep))
  }

  /** The empty key, at the top, does not hold a mapping. */
  ghost predicate NoDictAtEmptyKey(c: Config) {
    forall i :: 0 <= i < |c| && c[i].key == "" ==> c[i].value.Leaf?
  }

  function InsertAll(c: Config, items: seq<Item>): Option<Config> {
    if items == [] then Some(c)
    else
      var n := |items| - 1;
      match InsertAll(c, items[..n])
      case None => None
      case Some(nested) => if items[n].path == [] then None else Insert(nested, items[n].path, items[n].value)
  }

  lemma {:induction false} PathsNotEmpty(c: Config)
    ensures forall i :: 0 <= i < |Paths(c)| ==> Paths(c)[i].path != [] && Paths(c)[i].value.Leaf?
    ensures c != [] && NoEmptyDict(c) ==> Paths(c) != []
  {
    if c != [] {
      var n := |c| - 1;
      PathsNotEmpty(c[..n]);
      if c[n].value.Dict? {
        PathsNotEmpty(c[n].value.entries);
      }
    }
  }

  lemma {:induction false} IndexPush(c: Config, key: string, e: Entry)
    ensures Index(c + [e], key) == if Index(c, key) < |c| || e.key == key then Index(c, key) else |c| + 1
  {
    assert (c + [e])[..|c|] == c;
  }

  /** Inserting one leaf below a key whose mapping is last, or not there yet. */
  lemma {:induction false} InsertBelowOne(c: Config, key: string, nested: Config, item: Item)
    requires Index(c, key) == |c| && item.path != []
    ensures Insert(c, [key] + item.path, item.value) == BelowKey(c, key, Insert([], item.path, item.value))
    ensures Insert(c + [Entry(key, Dict(nested))], [key] + item.path, item.value) ==
            BelowKey(c, key, Insert(nested, item.path, item.value))
  {
    var path := [key] + item.path;
    assert path[1..] == item.path;
    IndexPush(c, key, Entry(key, Dict(nested)));
    var c' := c + [Entry(key, Dict(nested))];
    assert c'[|c|] == Entry(key, Dict(nested));
    assert forall e :: c'[|c| := e] == c + [e];
  }

  function BelowKey(c: Config, key: string, nested: Option<Config>): Option<Config> {
    match nested
    case None => None
    case Some(entries) => Some(c + [Entry(key, Dict(entries))])
  }

  /** Inserting below a new key builds the mapping under that key. */
  lemma {:induction false} InsertBelow(c: Config, key: string, items: seq<Item>)
    requires Index(c, key) == |c| && items != []
    requires forall i :: 0 <= i < |items| ==> items[i].path != []
    ensures InsertAll(c, Prefixed(key, items)) == BelowKey(c, key, InsertAll([], items))
    decreases |items|, 1
  {
    if |items| == 1 {
      InsertBelowSingle(c, key, items[0]);
      assert items == [items[0]];
    } else {
      InsertBelowMore(c, key, items);
    }
  }

  lemma {:induction false} InsertBelowSingle(c: Config, key: string, item: Item)
    requires Index(c, key) == |c| && item.path != []
    ensures InsertAll(c, Prefixed(key, [item])) == BelowKey(c, key, InsertAll([], [item]))
  {
    InsertAllOne(c, Item([key] + item.path, item.value));
    InsertAllOne([], item);
    assert Prefixed(key, [item]) == [Item([key] + item.path, item.value)];
    InsertBelowOne(c, key, [], item);
  }

  lemma {:induction false} PrefixedPush(key: string, items: seq<Item>, item: Item)
    ensures Prefixed(key, items + [item]) == Prefixed(key, items) + [Item([key] + item.path, item.value)]
  {
    assert (items + [item])[..|items|] == items;
  }

  lemma {:induction false} InsertBelowMore(c: Config, key: string, items: seq<Item>)
    requires Index(c, key) == |c| && |items| > 1
    requires forall i :: 0 <= i < |items| ==> items[i].path != []
    ensures InsertAll(c, Prefixed(key, items)) == BelowKey(c, key, InsertAll([], items))
    decreases |items|, 0
  {
    var front, item := items[..|items| - 1], items[|items| - 1];
    assert items == front + [item];
    assert forall i :: 0 <= i < |front| ==> front[i] == items[i];
    InsertBelow(c, key, front);
    InsertBelowPush(c, key, front, item);
  }

  lemma {:induction false} InsertBelowPush(c: Config, key: string, front: seq<Item>, item: Item)
    requires Index(c, key) == |c| && item.path != []
    requires InsertAll(c, Prefixed(key, front)) == BelowKey(c, key, InsertAll([], front))
    ensures InsertAll(c, Prefixed(key, front + [item])) == BelowKey(c, key, InsertAll([], front + [item]))
  {
    PrefixedPush(key, front, item);
    InsertAllPush(c, Prefixed(key, front), Item([key] + item.path, item.value));
    InsertAllPush([], front, item);
    if InsertAll([], front).Some? {
      InsertBelowOne(c, key, InsertAll([], front).value, item);
    }
  }

  lemma {:induction false} InsertAllOne(c: Config, item: Item)
    requires item.path != []
    ensures InsertAll(c, [item]) == Insert(c, item.path, item.value)
  {
    assert [item][..0] == [];
  }

  lemma {:induction false} InsertAllPush(c: Config, items: seq<Item>, item: Item)
    requires item.path != []
    ensures InsertAll(c, items + [item]) ==
            match InsertAll(c, items) case None => None case Some(nested) => Insert(nested, item.path, item.value)
  {
    assert (items + [item])[..|items|] == items;
  }

  lemma {:induction false} InsertAllConcat(c: Config, a: seq<Item>, b: seq<Item>)
    ensures InsertAll(c, a + b) == match InsertAll(c, a) case None => None case Some(nested) => InsertAll(nested, b)
  {
    if b == [] {
      assert a + b == a;
    } else {
      assert (a + b)[..|a + b| - 1] == a + b[..|b| - 1];
      InsertAllConcat(c, a, b[..|b| - 1]);
    }
  }

  /** The leaves of one more entry, inserted, append that entry. */
  lemma {:induction false} InsertEntry(front: Config, e: Entry)
    requires Index(front, e.key) == |front|
    requires e.value.Dict? ==>
              Paths(e.value.entries) != [] && InsertAll([], Paths(e.value.entries)) == Some(e.value.entries)
    ensures InsertAll(front, ItemsOf(e)) == Some(front + [e])
  {
    match e.value
    case Leaf(_) =>
      InsertAllOne(front, Item([e.key], e.value));
    case Dict(entries) =>
      PathsNotEmpty(entries);
      InsertBelow(front, e.key, Paths(entries));
  }

  /** Inserting the leaves one by one rebuilds the configuration, in order. */
  lemma {:induction false} PathsRebuild(c: Config)
    requires IsDict(c) && NoEmptyDict(c)
    ensures InsertAll([], Paths(c)) == Some(c)
  {
    if c != [] {
      var n := |c| - 1;
      PathsRebuild(c[..n]);
      if c[n].value.Dict? {
        PathsRebuild(c[n].value.entries);
        PathsNotEmpty(c[n].value.entries);
      }
      InsertEntry(c[..n], c[n]);
      InsertAllConcat([], Paths(c[..n]), ItemsOf(c[n]));
      assert c[..n] + [c[n]] == c;
    }
  }

  // ----- What inserting keeps -----

  /** A configuration as unflattening builds it. */
  ghost predicate WellBuilt(c: Config, sep: char) {
    IsDict(c) && KeysSepFree(c, sep) && NoEmptyDict(c)
  }

  lemma {:induction false} PutKeeps(c: Config, key: string, value: Value, sep: char)
    requires WellBuilt(c, sep) && sep !in key
    requires value.Dict? ==> WellBuilt(value.entries, sep) && value.entries != []
    ensures WellBuilt(Put(c, key, value), sep)
    ensures NoDictAtEmptyKey(c) && (key == "" ==> value.Leaf?) ==> NoDictAtEmptyKey(Put(c, key, value))
  {
  }

  lemma {:induction false} InsertKeeps(c: Config, path: seq<string>, value: Value, sep: char)
    requires WellBuilt(c, sep) && path != [] && SepFree(path, sep) && value.Leaf?
    requires Insert(c, path, value).Some?
    ensures WellBuilt(Insert(c, path, value).value, sep) && Insert(c, path, value).value != []
    ensures NoDictAtEmptyKey(c) && (path[0] == "" ==> |path| == 1) ==> NoDictAtEmptyKey(Insert(c, path, value).value)
    decreases |path|
  {
    var stored := value;
    if |path| > 1 {
      var i := Index(c, path[0]);
      var nested := if i < |c| then c[i].value.entries else [];
      assert SepFree(path[1..], sep);
      InsertKeeps(nested, path[1..], value, sep);
      stored := Dict(Insert(nested, path[1..], value).value);
    }
    PutKeeps(c, path[0], stored, sep);
  }

  ghost predicate AllLeaves(flat: Config) {
    forall i :: 0 <= i < |flat| ==> flat[i].value.Leaf?
  }

  /** No key starts with the separator. */
  ghost predicate NoKeyStartsWith(flat: Config, sep: char) {
    forall i :: 0 <= i < |flat| ==> flat[i].key == "" || flat[i].key[0] != sep
  }

  lemma {:induction false} FirstPart(s: string, sep: char)
    requires s == "" || s[0] != sep
    ensures Split(s, sep)[0] == "" ==> |Split(s, sep)| == 1
    decreases |s|
  {
    var i := LastIndexOf(s, sep);
    if i >= 0 {
      FirstPart(s[..i], sep);
      if |Split(s[..i], sep)| == 1 {
        JoinSplit(s[..i], sep);
      }
    }
  }

  /** What unflattening builds from leaves. */
  lemma {:induction false} UnflattenKeeps(flat: Config, sep: char)
    requires AllLeaves(flat) && Unflatten(flat, sep).Some?
    ensures WellBuilt(Unflatten(flat, sep).value, sep)
    ensures NoKeyStartsWith(flat, sep) ==> NoDictAtEmptyKey(Unflatten(flat, sep).value)
  {
    if flat != [] {
      var n := |flat| - 1;
      UnflattenKeeps(flat[..n], sep);
      SplitIsSepFree(flat[n].key, sep);
      InsertKeeps(Unflatten(flat[..n], sep).value, Split(flat[n].key, sep), flat[n].value, sep);
      if NoKeyStartsWith(flat, sep) {
        FirstPart(flat[n].key, sep);
      }
    }
  }

  // ----- What flattening yields -----

  lemma {:induction false} PutMembers(c: Config, key: string, value: Value, e: Entry)
    requires e in Put(c, key, value)
    ensures e in c || e == Entry(key, value)
  {
  }

  lemma {:induction false} DictOfMembers(items: seq<Entry>, e: Entry)
    requires e in DictOf(items)
    ensures e in items
  {
    if items != [] {
      var n := |items| - 1;
      PutMembers(DictOf(items[..n]), items[n].key, items[n].value, e);
      if e in DictOf(items[..n]) {
        DictOfMembers(items[..n], e);
      }
    }
  }

  ghost predicate StartsApart(key: string, sep: char) {
    key == "" || key[0] != sep
  }

  /** Every entry of a flat configuration is a leaf; and no key starts with the separator if none has it. */
  lemma {:induction false} FlattenYields(c: Config, sep: char, parent: string, e: Entry)
    requires e in Flatten(c, sep, parent)
    ensures e.value.Leaf?
    ensures KeysSepFree(c, sep) && StartsApart(parent, sep) ==> StartsApart(e.key, sep)
    decreases c, 1
  {
    DictOfMembers(FlatItems(c, sep, parent), e);
    FlatItemsYield(c, sep, parent, e);
  }

  lemma {:induction false} FlatItemsYield(c: Config, sep: char, parent: string, e: Entry)
    requires e in FlatItems(c, sep, parent)
    ensures e.value.Leaf?
    ensures KeysSepFree(c, sep) && StartsApart(parent, sep) ==> StartsApart(e.key, sep)
    decreases c, 0
  {
    var n := |c| - 1;
    var key := Under(parent, c[n].key, sep);
    if e in FlatItems(c[..n], sep, parent) {
      FlatItemsYield(c[..n], sep, parent, e);
    } else if c[n].value.Dict? {
      FlattenYields(c[n].value.entries, sep, key, e);
    }
  }

  lemma {:induction false} FlattenIsFlat(c: Config, sep: char)
    ensures AllLeaves(Flatten(c, sep, ""))
    ensures KeysSepFree(c, sep) ==> NoKeyStartsWith(Flatten(c, sep, ""), sep)
  {
    var flat := Flatten(c, sep, "");
    forall i | 0 <= i < |flat|
      ensures flat[i].value.Leaf? && (KeysSepFree(c, sep) ==> StartsApart(flat[i].key, sep))
    {
      FlattenYields(c, sep, "", flat[i]);
    }
  }

  // ----- Paths do not get into each other's way -----

  /** One path leads to or through the other. */
  predicate Conflict(p: seq<string>, q: seq<string>) {
    p <= q || q <= p
  }

  ghost predicate PrefixFree(items: seq<Item>) {
    forall i, j :: 0 <= i < j < |items| ==> !Conflict(items[i].path, items[j].path)
  }

  lemma {:induction false} PathHeads(c: Config)
    ensures forall i :: 0 <= i < |Paths(c)| ==> Paths(c)[i].path != [] && Index(c, Paths(c)[i].path[0]) < |c|
  {
    if c != [] {
      var n := |c| - 1;
      PathHeads(c[..n]);
      var front, back := Paths(c[..n]), ItemsOf(c[n]);
      assert forall j :: 0 <= j < |back| ==> back[j].path != [] && back[j].path[0] == c[n].key;
      forall i | 0 <= i < |Paths(c)| ensures Paths(c)[i].path != [] && Index(c, Paths(c)[i].path[0]) < |c| {
        if i < |front| {
          assert Paths(c)[i] == front[i];
        } else {
          assert Paths(c)[i] == back[i - |front|];
        }
      }
    }
  }

  lemma {:induction false} ConflictBelow(key: string, p: seq<string>, q: seq<string>)
    ensures Conflict([key] + p, [key] + q) <==> Conflict(p, q)
  {
    assert ([key] + p)[1..] == p && ([key] + q)[1..] == q;
  }

  lemma {:induction false} PrefixedPrefixFree(key: string, items: seq<Item>)
    requires PrefixFree(items)
    ensures PrefixFree(Prefixed(key, items))
  {
    forall i, j | 0 <= i < j < |items| ensures !Conflict([key] + items[i].path, [key] + items[j].path) {
      ConflictBelow(key, items[i].path, items[j].path);
    }
  }

  /** Paths that start with different keys do not conflict. */
  lemma {:induction false} PrefixFreeConcat(a: seq<Item>, b: seq<Item>)
    requires PrefixFree(a) && PrefixFree(b)
    requires forall i, j :: 0 <= i < |a| && 0 <= j < |b| ==>
               a[i].path != [] && b[j].path != [] && a[i].path[0] != b[j].path[0]
    ensures PrefixFree(a + b)
  {
  }

  lemma {:induction false} PathsPrefixFree(c: Config)
    requires IsDict(c)
    ensures PrefixFree(Paths(c))
  {
    if c != [] {
      var n := |c| - 1;
      PathsPrefixFree(c[..n]);
      PathHeads(c[..n]);
      if c[n].value.Dict? {
        PathsPrefixFree(c[n].value.entries);
        PrefixedPrefixFree(c[n].key, Paths(c[n].value.entries));
      }
      var front, back := Paths(c[..n]), ItemsOf(c[n]);
      forall i, j | 0 <= i < |front| && 0 <= j < |back|
        ensures front[i].path != [] && back[j].path != [] && front[i].path[0] != back[j].path[0]
      {
        var k := Index(c[..n], front[i].path[0]);
        assert c[..n][k].key != c[n].key;
        assert back[j].path[0] == c[n].key;
      }
      PrefixFreeConcat(front, back);
    }
  }

  lemma {:induction false} PathsSepFree(c: Config, sep: char)
    requires KeysSepFree(c, sep)
    ensures forall i :: 0 <= i < |Paths(c)| ==> SepFree(Paths(c)[i].path, sep)
  {
    if c != [] {
      var n := |c| - 1;
      PathsSepFree(c[..n], sep);
      if c[n].value.Dict? {
        PathsSepFree(c[n].value.entries, sep);
      }
      var front, back := Paths(c[..n]), ItemsOf(c[n]);
      forall j | 0 <= j < |back| ensures SepFree(back[j].path, sep) {
        if c[n].value.Dict? {
          assert back[j].path == [c[n].key] + Paths(c[n].value.entries)[j].path;
        }
      }
      forall i | 0 <= i < |Paths(c)| ensures SepFree(Paths(c)[i].path, sep) {
        if i < |front| {
          assert Paths(c)[i] == front[i];
        } else {
          assert Paths(c)[i] == back[i - |front|];
        }
      }
    }
  }

  // ----- Flattening is joining the paths -----

  function Keyed(parent: seq<string>, items: seq<Item>, sep: char): (flat: seq<Entry>)
    ensures |flat| == |items|
    ensures forall i :: 0 <= i < |items| ==> flat[i] == Entry(Join(parent + items[i].path, sep), items[i].value)
  {
    seq(|items|, i requires 0 <= i < |items| => Entry(Join(parent + items[i].path, sep), items[i].value))
  }

  lemma {:induction false} SameBehind<T>(a: seq<T>, b: seq<T>, c: seq<T>)
    requires a + b == a + c
    ensures b == c
  {
    assert b == (a + b)[|a|..] && c == (a + c)[|a|..];
  }

  lemma {:induction false} DictOfDistinct(items: seq<Entry>)
    requires DistinctKeys(items)
    ensures DictOf(items) == items
  {
    if items != [] {
      var n := |items| - 1;
      DictOfDistinct(items[..n]);
      assert items == items[..n] + [items[n]];
    }
  }

  lemma {:induction false} KeyedDistinct(parent: seq<string>, items: seq<Item>, sep: char)
    requires PrefixFree(items) && SepFree(parent, sep)
    requires forall i :: 0 <= i < |items| ==> items[i].path != [] && SepFree(items[i].path, sep)
    ensures DistinctKeys(Keyed(parent, items, sep))
  {
    forall i, j | 0 <= i < j < |items| ensures Join(parent + items[i].path, sep) != Join(parent + items[j].path, sep) {
      SplitJoin(parent + items[i].path, sep);
      SplitJoin(parent + items[j].path, sep);
      assert !Conflict(items[i].path, items[j].path);
      if parent + items[i].path == parent + items[j].path {
        SameBehind(parent, items[i].path, items[j].path);
      }
    }
  }

  /** The parent key is the joined parent path; an empty key that holds a mapping would get lost in it. */
  ghost predicate ParentOk(c: Config, parent: seq<string>, sep: char) {
    SepFree(parent, sep) && if parent == [] then NoDictAtEmptyKey(c) else Join(parent, sep) != ""
  }

  lemma {:induction false} UnderIsJoin(parent: seq<string>, key: string, sep: char)
    requires parent == [] || Join(parent, sep) != ""
    ensures Under(Join(parent, sep), key, sep) == Join(parent + [key], sep)
    ensures key != "" || parent != [] ==> Join(parent + [key], sep) != ""
  {
    if parent != [] {
      JoinPush(parent, key, sep);
    } else {
      assert parent + [key] == [key];
    }
  }

  lemma {:induction false} KeyedBelow(parent: seq<string>, key: string, items: seq<Item>, sep: char)
    ensures Keyed(parent, Prefixed(key, items), sep) == Keyed(parent + [key], items, sep)
  {
    forall i | 0 <= i < |items| ensures Keyed(parent, Prefixed(key, items), sep)[i] ==
              Keyed(parent + [key], items, sep)[i] {
      assert parent + ([key] + items[i].path) == (parent + [key]) + items[i].path;
    }
  }

  lemma {:induction false} KeyedLeaf(parent: seq<string>, e: Entry, sep: char)
    requires e.value.Leaf?
    ensures Keyed(parent, ItemsOf(e), sep) == [Entry(Join(parent + [e.key], sep), e.value)]
  {
  }

  lemma {:induction false} KeyedConcat(parent: seq<string>, a: seq<Item>, b: seq<Item>, sep: char)
    ensures Keyed(parent, a + b, sep) == Keyed(parent, a, sep) + Keyed(parent, b, sep)
  {
  }

  lemma {:induction false} FlattenIsKeyed(c: Config, parent: seq<string>, sep: char)
    requires IsDict(c) && KeysSepFree(c, sep) && ParentOk(c, parent, sep)
    ensures Flatten(c, sep, Join(parent, sep)) == Keyed(parent, Paths(c), sep)
    decreases c, 1
  {
    FlatItemsAreKeyed(c, parent, sep);
    PathsPrefixFree(c);
    PathsNotEmpty(c);
    PathsSepFree(c, sep);
    KeyedDistinct(parent, Paths(c), sep);
    DictOfDistinct(Keyed(parent, Paths(c), sep));
  }

  lemma {:induction false} FlatItemsAreKeyed(c: Config, parent: seq<string>, sep: char)
    requires IsDict(c) && KeysSepFree(c, sep) && ParentOk(c, parent, sep)
    ensures FlatItems(c, sep, Join(parent, sep)) == Keyed(parent, Paths(c), sep)
    decreases c, 0
  {
    if c != [] {
      var n := |c| - 1;
      FlatItemsAreKeyed(c[..n], parent, sep);
      FlatEntryIsKeyed(c[n], parent, sep);
      KeyedConcat(parent, Paths(c[..n]), ItemsOf(c[n]), sep);
    }
  }

  lemma {:induction false} FlatEntryIsKeyed(e: Entry, parent: seq<string>, sep: char)
    requires SepFree(parent, sep) && sep !in e.key
    requires if parent == [] then e.key == "" ==> e.value.Leaf? else Join(parent, sep) != ""
    requires e.value.Dict? ==> IsDict(e.value.entries) && KeysSepFree(e.value.entries, sep)
    ensures FlatEntry(e, sep, Join(parent, sep)) == Keyed(parent, ItemsOf(e), sep)
    decreases e, 0
  {
    UnderIsJoin(parent, e.key, sep);
    match e.value
    case Leaf(_) => KeyedLeaf(parent, e, sep);
    case Dict(entries) =>
      FlattenIsKeyed(entries, parent + [e.key], sep);
      KeyedBelow(parent, e.key, Paths(entries), sep);
  }

  lemma {:induction false} UnflattenKeyed(items: seq<Item>, sep: char)
    requires forall i :: 0 <= i < |items| ==> items[i].path != [] && SepFree(items[i].path, sep)
    ensures Unflatten(Keyed([], items, sep), sep) == InsertAll([], items)
  {
    if items != [] {
      var n := |items| - 1;
      UnflattenKeyed(items[..n], sep);
      assert Keyed([], items, sep)[..n] == Keyed([], items[..n], sep);
      SplitJoin(items[n].path, sep);
      assert [] + items[n].path == items[n].path;
    }
  }

  /** Equality of dictionaries: the same keys with equal values, in whatever order, at every level. */
  ghost predicate SameDict(c: Config, d: Config)
    decreases c
  {
    && |c| == |d|
    && forall i :: 0 <= i < |c| ==>
         Index(d, c[i].key) < |d| && SameValue(c[i].value, d[Index(d, c[i].key)].value)
  }

  ghost predicate SameValue(v: Value, w: Value)
    decreases v
  {
    match v
    case Leaf(_) => v == w
    case Dict(entries) => w.Dict? && SameDict(entries, w.entries)
  }

  lemma {:induction false} IndexOfDistinct(c: Config, i: nat)
    requires DistinctKeys(c) && i < |c|
    ensures Index(c, c[i].key) == i
  {
  }

  lemma {:induction false} SameAsItself(c: Config)
    requires IsDict(c)
    ensures SameDict(c, c)
  {
    forall i | 0 <= i < |c| ensures Index(c, c[i].key) == i && SameValue(c[i].value, c[i].value) {
      IndexOfDistinct(c, i);
      if c[i].value.Dict? {
        SameAsItself(c[i].value.entries);
      }
    }
  }

  /** What holds of the keys of a dictionary holds of those of an equal one. */
  lemma {:induction false} SameKeys(c: Config, d: Config, sep: char)
    requires SameDict(c, d) && KeysSepFree(d, sep) && NoEmptyDict(d)
    ensures KeysSepFree(c, sep) && NoEmptyDict(c)
    ensures NoDictAtEmptyKey(d) ==> NoDictAtEmptyKey(c)
  {
    forall i | 0 <= i < |c|
      ensures sep !in c[i].key
      ensures c[i].value.Dict? ==>
                && KeysSepFree(c[i].value.entries, sep) && NoEmptyDict(c[i].value.entries)
                && c[i].value.entries != []
      ensures NoDictAtEmptyKey(d) && c[i].key == "" ==> c[i].value.Leaf?
    {
      var j := Index(d, c[i].key);
      assert d[j].key == c[i].key && SameValue(c[i].value, d[j].value);
      if c[i].value.Dict? {
        SameKeys(c[i].value.entries, d[j].value.entries, sep);
      }
    }
  }

  /**
   Unflattening restores a flattened configuration, order included, exactly when nothing in it gets lost in
   the keys; and if something does, it does not even yield a configuration that is equal up to order.
   */
  lemma {:induction false} UnflattenFlatten(c: Config, sep: char)
    requires IsDict(c)
    ensures Unflatten(Flatten(c, sep, ""), sep) == Some(c) <==> Survives(c, sep)
    ensures Unflatten(Flatten(c, sep, ""), sep).Some? && SameDict(c, Unflatten(Flatten(c, sep, ""), sep).value) <==>
            Survives(c, sep)
  {
    var back := Unflatten(Flatten(c, sep, ""), sep);
    if Survives(c, sep) {
      FlattenIsKeyed(c, [], sep);
      PathsNotEmpty(c);
      PathsSepFree(c, sep);
      UnflattenKeyed(Paths(c), sep);
      PathsRebuild(c);
    }
    SameAsItself(c);
    if back.Some? && SameDict(c, back.value) {
      FlattenIsFlat(c, sep);
      UnflattenKeeps(Flatten(c, sep, ""), sep);
      SameKeys(c, back.value, sep);
    }
  }

  /** Nothing of the configuration gets lost in the keys of the flat one. */
  ghost predicate Survives(c: Config, sep: char) {
    KeysSepFree(c, sep) && NoEmptyDict(c) && NoDictAtEmptyKey(c)
  }

  // ----- The other way round -----

  lemma {:induction false} PrefixedMembers(key: string, items: seq<Item>, x: Item)
    ensures x in Elements(Prefixed(key, items)) <==>
            x.path != [] && x.path[0] == key && Item(x.path[1..], x.value) in Elements(items)
  {
    if items != [] {
      var n := |items| - 1;
      PrefixedMembers(key, items[..n], x);
      var last := Item([key] + items[n].path, items[n].value);
      ElementsPush(Prefixed(key, items[..n]), last);
      assert ([key] + items[n].path)[1..] == items[n].path;
      if x.path != [] && x.path[0] == key && x.path[1..] == items[n].path {
        assert x.path == [key] + x.path[1..];
      }
    }
  }

  /** One more leaf below a key. */
  lemma {:induction false} PrefixedOneMore(key: string, items: seq<Item>, items': seq<Item>, item: Item)
    requires Elements(items') == Elements(items) + {item}
    ensures Elements(Prefixed(key, items')) == Elements(Prefixed(key, items)) + {Item([key] + item.path, item.value)}
  {
    forall x ensures x in Elements(Prefixed(key, items')) <==>
                     x in Elements(Prefixed(key, items)) || x == Item([key] + item.path, item.value)
    {
      PrefixedMembers(key, items', x);
      PrefixedMembers(key, items, x);
      IsBelow(key, x, item);
    }
  }

  lemma {:induction false} IsBelow(key: string, x: Item, item: Item)
    ensures x == Item([key] + item.path, item.value) <==>
            x.path != [] && x.path[0] == key && Item(x.path[1..], x.value) == item
  {
    assert ([key] + item.path)[1..] == item.path;
    if x.path != [] && x.path[0] == key {
      assert x.path == [key] + x.path[1..];
    }
  }

  /** The leaves of a configuration, with their paths. */
  function Leaves(c: Config): set<Item> {
    if c == [] then {} else Leaves(c[..|c| - 1]) + Elements(ItemsOf(c[|c| - 1]))
  }

  lemma {:induction false} LeavesArePaths(c: Config)
    ensures Leaves(c) == Elements(Paths(c))
  {
    if c != [] {
      LeavesArePaths(c[..|c| - 1]);
      ElementsConcat(Paths(c[..|c| - 1]), ItemsOf(c[|c| - 1]));
    }
  }

  lemma {:induction false} LeavesUpdate(c: Config, i: nat, e: Entry, item: Item)
    requires i < |c| && Elements(ItemsOf(e)) == Elements(ItemsOf(c[i])) + {item}
    ensures Leaves(c[i := e]) == Leaves(c) + {item}
  {
    var n := |c| - 1;
    var c' := c[i := e];
    if i == n {
      assert c'[..n] == c[..n];
      assert Leaves(c') == Leaves(c[..n]) + Elements(ItemsOf(e));
    } else {
      assert c'[..n] == c[..n][i := e];
      LeavesUpdate(c[..n], i, e, item);
      assert Leaves(c') == Leaves(c[..n][i := e]) + Elements(ItemsOf(c[n]));
    }
  }

  lemma {:induction false} EntryLeaves(c: Config, i: nat)
    requires i < |c|
    ensures Elements(ItemsOf(c[i])) <= Leaves(c)
  {
    if i < |c| - 1 {
      EntryLeaves(c[..|c| - 1], i);
    }
  }

  /** The path conflicts with that of no leaf. */
  ghost predicate Free(c: Config, path: seq<string>) {
    forall x :: x in Leaves(c) ==> !Conflict(x.path, path)
  }

  lemma {:induction false} FirstLeaf(e: Entry) returns (x: Item)
    requires e.value.Dict? ==> e.value.entries != [] && NoEmptyDict(e.value.entries)
    ensures x in Elements(ItemsOf(e)) && x.path != [] && x.path[0] == e.key
    ensures e.value.Leaf? ==> x.path == [e.key]
  {
    if e.value.Dict? {
      PathsNotEmpty(e.value.entries);
    }
    x := ItemsOf(e)[0];
    InElements(ItemsOf(e), x);
  }

  lemma {:induction false} ConflictAtHead(p: seq<string>, key: string, rest: seq<string>)
    requires p != [] && p[0] == key
    ensures p == [key] || rest == [] ==> Conflict(p, [key] + rest)
  {
  }

  /** On the way of a free path there is a mapping, in which the rest of the path is free. */
  lemma {:induction false} FreeBelow(c: Config, i: nat, rest: seq<string>)
    requires NoEmptyDict(c) && i < |c| && Free(c, [c[i].key] + rest)
    ensures rest != [] && c[i].value.Dict? && Free(c[i].value.entries, rest)
  {
    EntryLeaves(c, i);
    var key := c[i].key;
    var x := FirstLeaf(c[i]);
    ConflictAtHead(x.path, key, rest);
    if c[i].value.Dict? {
      var entries := c[i].value.entries;
      LeavesArePaths(entries);
      forall y | y in Leaves(entries) ensures !Conflict(y.path, rest) {
        BelowIsLeaf(key, entries, y);
        ConflictBelow(key, y.path, rest);
      }
    }
  }

  lemma {:induction false} BelowIsLeaf(key: string, entries: Config, y: Item)
    requires y in Leaves(entries)
    ensures Item([key] + y.path, y.value) in Elements(ItemsOf(Entry(key, Dict(entries))))
  {
    LeavesArePaths(entries);
    assert ([key] + y.path)[1..] == y.path;
    PrefixedMembers(key, Paths(entries), Item([key] + y.path, y.value));
  }

  lemma {:induction false} BelowOneMore(key: string, entries: Config, entries': Config, item: Item)
    requires Leaves(entries') == Leaves(entries) + {item}
    ensures Elements(ItemsOf(Entry(key, Dict(entries')))) ==
            Elements(ItemsOf(Entry(key, Dict(entries)))) + {Item([key] + item.path, item.value)}
  {
    LeavesArePaths(entries);
    LeavesArePaths(entries');
    PrefixedOneMore(key, Paths(entries), Paths(entries'), item);
  }

  lemma {:induction false} LeavesPush(c: Config, e: Entry)
    ensures Leaves(c + [e]) == Leaves(c) + Elements(ItemsOf(e))
  {
    assert (c + [e])[..|c|] == c;
  }

  lemma {:induction false} LeafLeaves(e: Entry)
    requires e.value.Leaf?
    ensures Elements(ItemsOf(e)) == {Item([e.key], e.value)}
  {
    var item := Item([e.key], e.value);
    ElementsPush([], item);
    assert [] + [item] == [item];
  }

  /** A leaf whose path is free is added, and that is all that changes. */
  lemma {:induction false} InsertAddsLeaf(c: Config, path: seq<string>, value: Value)
    requires NoEmptyDict(c) && path != [] && value.Leaf? && Free(c, path)
    ensures Insert(c, path, value).Some?
    ensures Leaves(Insert(c, path, value).value) == Leaves(c) + {Item(path, value)}
    decreases |path|
  {
    var key, rest := path[0], path[1..];
    assert [key] + rest == path;
    var i := Index(c, key);
    if i < |c| {
      FreeBelow(c, i, rest);
      InsertAddsLeaf(c[i].value.entries, rest, value);
      StoredBelow(c, i, rest, value);
    } else if rest == [] {
      LeafLeaves(Entry(key, value));
      LeavesPush(c, Entry(key, value));
      assert path == [key];
    } else {
      InsertAddsLeaf([], rest, value);
      StoredNew(c, key, rest, value);
    }
  }

  lemma {:induction false} StoredBelow(c: Config, i: nat, rest: seq<string>, value: Value)
    requires rest != [] && i < |c| && i == Index(c, c[i].key) && c[i].value.Dict?
    requires Insert(c[i].value.entries, rest, value).Some?
    requires Leaves(Insert(c[i].value.entries, rest, value).value) == Leaves(c[i].value.entries) + {Item(rest, value)}
    ensures var path := [c[i].key] + rest;
            Insert(c, path, value).Some?
            && Leaves(Insert(c, path, value).value) == Leaves(c) + {Item(path, value)}
  {
    var key, entries := c[i].key, c[i].value.entries;
    var nested := Insert(entries, rest, value).value;
    BelowOneMore(key, entries, nested, Item(rest, value));
    assert ([key] + rest)[1..] == rest;
    assert c[i] == Entry(key, Dict(entries));
    LeavesUpdate(c, i, Entry(key, Dict(nested)), Item([key] + rest, value));
  }

  lemma {:induction false} StoredNew(c: Config, key: string, rest: seq<string>, value: Value)
    requires rest != [] && Index(c, key) == |c|
    requires Insert([], rest, value).Some?
    requires Leaves(Insert([], rest, value).value) == Leaves([]) + {Item(rest, value)}
    ensures var path := [key] + rest;
            Insert(c, path, value).Some?
            && Leaves(Insert(c, path, value).value) == Leaves(c) + {Item(path, value)}
  {
    var nested := Insert([], rest, value).value;
    assert ([key] + rest)[1..] == rest;
    OnlyBelow(key, nested, Item(rest, value));
    LeavesPush(c, Entry(key, Dict(nested)));
  }

  lemma {:induction false} OnlyBelow(key: string, entries: Config, item: Item)
    requires Leaves(entries) == Leaves([]) + {item}
    ensures Elements(ItemsOf(Entry(key, Dict(entries)))) == {Item([key] + item.path, item.value)}
  {
    BelowOneMore(key, [], entries, item);
    assert ItemsOf(Entry(key, Dict([]))) == [];
  }

  // ----- Flat configurations that survive the round trip -----

  /** No key, taken as a path, leads to or through another. */
  ghost predicate PrefixFreeKeys(flat: Config, sep: char) {
    forall i, j :: 0 <= i < j < |flat| ==> !Conflict(Split(flat[i].key, sep), Split(flat[j].key, sep))
  }

  function ItemOf(e: Entry, sep: char): Item {
    Item(Split(e.key, sep), e.value)
  }

  /** The leaves that a flat configuration lists. */
  function Listed(flat: Config, sep: char): set<Item> {
    set e | e in flat :: ItemOf(e, sep)
  }

  lemma {:induction false} ListedPush(flat: Config, e: Entry, sep: char)
    ensures Listed(flat + [e], sep) == Listed(flat, sep) + {ItemOf(e, sep)}
  {
    forall x ensures x in Listed(flat + [e], sep) <==> x in Listed(flat, sep) || x == ItemOf(e, sep) {
      assert e in flat + [e];
      assert forall f :: f in flat + [e] <==> f in flat || f == e;
    }
  }

  lemma {:induction false} ListedFree(flat: Config, n: nat, sep: char, x: Item)
    requires n < |flat| && PrefixFreeKeys(flat, sep) && x in Listed(flat[..n], sep)
    ensures !Conflict(x.path, Split(flat[n].key, sep))
  {
    var e :| e in flat[..n] && x == ItemOf(e, sep);
    var i :| 0 <= i < n && flat[..n][i] == e;
    assert flat[i] == e;
  }

  lemma {:induction false} UnflattenLeaves(flat: Config, sep: char)
    requires AllLeaves(flat) && PrefixFreeKeys(flat, sep)
    ensures Unflatten(flat, sep).Some?
    ensures Leaves(Unflatten(flat, sep).value) == Listed(flat, sep)
  {
    if flat != [] {
      var n := |flat| - 1;
      UnflattenLeaves(flat[..n], sep);
      UnflattenKeeps(flat[..n], sep);
      AddsListed(flat, n, Unflatten(flat[..n], sep).value, sep);
    }
  }

  lemma {:induction false} AddsListed(flat: Config, n: nat, nested: Config, sep: char)
    requires n == |flat| - 1 && PrefixFreeKeys(flat, sep) && flat[n].value.Leaf?
    requires NoEmptyDict(nested) && Leaves(nested) == Listed(flat[..n], sep)
    ensures Insert(nested, Split(flat[n].key, sep), flat[n].value).Some?
    ensures Leaves(Insert(nested, Split(flat[n].key, sep), flat[n].value).value) == Listed(flat, sep)
  {
    var path := Split(flat[n].key, sep);
    forall x | x in Leaves(nested) ensures !Conflict(x.path, path) {
      ListedFree(flat, n, sep, x);
    }
    InsertAddsLeaf(nested, path, flat[n].value);
    ListedPush(flat[..n], flat[n], sep);
    assert flat == flat[..n] + [flat[n]];
  }

  /** Flattening a configuration that was built from leaves gives each leaf under its path. */
  lemma {:induction false} FlattenMembers(c: Config, sep: char, e: Entry)
    requires WellBuilt(c, sep) && NoDictAtEmptyKey(c)
    ensures e in Flatten(c, sep, "") <==> ItemOf(e, sep) in Leaves(c)
  {
    FlattenIsKeyed(c, [], sep);
    LeavesArePaths(c);
    PathsNotEmpty(c);
    PathsSepFree(c, sep);
    InElements(Paths(c), ItemOf(e, sep));
    JoinSplit(e.key, sep);
    var flat := Keyed([], Paths(c), sep);
    if e in flat {
      var i :| 0 <= i < |flat| && flat[i] == e;
      assert [] + Paths(c)[i].path == Paths(c)[i].path;
      SplitJoin(Paths(c)[i].path, sep);
      assert Paths(c)[i] == ItemOf(e, sep);
    }
    if ItemOf(e, sep) in Paths(c) {
      var i :| 0 <= i < |Paths(c)| && Paths(c)[i] == ItemOf(e, sep);
      assert [] + Paths(c)[i].path == Paths(c)[i].path;
      assert flat[i] == e;
    }
  }

  /** The same entries, in whatever order. */
  ghost predicate SameEntries(a: Config, b: Config) {
    forall e :: e in a <==> e in b
  }

  /**
   Flattening restores an unflattened configuration, up to order, exactly when it was flat, no key starts
   with the separator and no key leads to or through another.
   */
  lemma {:induction false} FlattenUnflatten(flat: Config, sep: char)
    requires IsDict(flat)
    ensures Unflatten(flat, sep).Some? && SameEntries(Flatten(Unflatten(flat, sep).value, sep, ""), flat) <==>
            AllLeaves(flat) && NoKeyStartsWith(flat, sep) && PrefixFreeKeys(flat, sep)
  {
    if AllLeaves(flat) && NoKeyStartsWith(flat, sep) && PrefixFreeKeys(flat, sep) {
      UnflattenLeaves(flat, sep);
      UnflattenKeeps(flat, sep);
      var c := Unflatten(flat, sep).value;
      forall e ensures e in Flatten(c, sep, "") <==> e in flat {
        FlattenMembers(c, sep, e);
        ListedOnce(flat, e, sep);
      }
    }
    if Unflatten(flat, sep).Some? && SameEntries(Flatten(Unflatten(flat, sep).value, sep, ""), flat) {
      SurvivorsAreFlat(flat, sep);
    }
  }

  /** The path of an entry gives its key back. */
  lemma {:induction false} ListedOnce(flat: Config, e: Entry, sep: char)
    ensures ItemOf(e, sep) in Listed(flat, sep) <==> e in flat
  {
    if ItemOf(e, sep) in Listed(flat, sep) {
      var f :| f in flat && ItemOf(f, sep) == ItemOf(e, sep);
      JoinSplit(e.key, sep);
      JoinSplit(f.key, sep);
    }
  }

  lemma {:induction false} SurvivorsAreFlat(flat: Config, sep: char)
    requires IsDict(flat) && Unflatten(flat, sep).Some?
    requires SameEntries(Flatten(Unflatten(flat, sep).value, sep, ""), flat)
    ensures AllLeaves(flat) && NoKeyStartsWith(flat, sep) && PrefixFreeKeys(flat, sep)
  {
    var c := Unflatten(flat, sep).value;
    var back := Flatten(c, sep, "");
    FlattenIsFlat(c, sep);
    forall i | 0 <= i < |flat| ensures flat[i].value.Leaf? {
      assert flat[i] in back;
    }
    UnflattenKeeps(flat, sep);
    forall i | 0 <= i < |flat| ensures StartsApart(flat[i].key, sep) {
      assert flat[i] in back;
    }
    PathsPrefixFree(c);
    forall i, j | 0 <= i < j < |flat| ensures !Conflict(Split(flat[i].key, sep), Split(flat[j].key, sep)) {
      assert flat[i] in back && flat[j] in back;
      FlattenMembers(c, sep, flat[i]);
      FlattenMembers(c, sep, flat[j]);
      LeavesArePaths(c);
      InElements(Paths(c), ItemOf(flat[i], sep));
      InElements(Paths(c), ItemOf(flat[j], sep));
      JoinSplit(flat[i].key, sep);
      JoinSplit(flat[j].key, sep);
      var a :| 0 <= a < |Paths(c)| && Paths(c)[a] == ItemOf(flat[i], sep);
      var b :| 0 <= b < |Paths(c)| && Paths(c)[b] == ItemOf(flat[j], sep);
      assert a != b;
    }
  }
}
