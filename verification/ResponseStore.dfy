/** The persistent response cache, as rows and as a list in order of last use. */
module ResponseStore {
  import opened Basics

  datatype Item = Item(key: string, tenant: string, payload: string, expires: int, bytes: nat)

  // ----- the abstract store: a list from least to most recent -----

  function Bytes(items: seq<Item>): nat {
    if items == [] then 0 else items[0].bytes + Bytes(items[1..])
  }

  function Filter(keep: Item -> bool, items: seq<Item>): (r: seq<Item>)
    ensures forall x :: x in r <==> x in items && keep(x)
  {
    if items == [] then [] else (if keep(items[0]) then [items[0]] else []) + Filter(keep, items[1..])
  }

  function Unexpired(now: int): Item -> bool {
    (i: Item) => i.expires > now
  }

  function OtherKey(key: string): Item -> bool {
    (i: Item) => i.key != key
  }

  /** What an invalidation spares: other tenants, or nothing when no tenant is named. */
  function Spared(tenant: Option<string>): Item -> bool {
    (i: Item) => tenant.Some? && i.tenant != tenant.value
  }

  predicate Fits(items: seq<Item>, maxEntries: nat, maxBytes: nat) {
    |items| <= maxEntries && Bytes(items) <= maxBytes
  }

  /** Drop least recent items until both bounds hold. */
  function Evict(items: seq<Item>, maxEntries: nat, maxBytes: nat): seq<Item> {
    if items == [] || Fits(items, maxEntries, maxBytes) then items else Evict(items[1..], maxEntries, maxBytes)
  }

  /** Insert or refresh at the recent end. */
  function Put(items: seq<Item>, item: Item): seq<Item> {
    Filter(OtherKey(item.key), items) + [item]
  }

  function Find(items: seq<Item>, key: string): (r: Option<Item>)
    ensures r.Some? ==> r.value in items && r.value.key == key
    ensures r.None? ==> forall x :: x in items ==> x.key != key
  {
    if items == [] then None else if items[0].key == key then Some(items[0]) else Find(items[1..], key)
  }

  /** A hit moves the live item with this key to the recent end. */
  function LookupItems(items: seq<Item>, key: string, now: int): (seq<Item>, Option<Item>) {
    var live := Filter(Unexpired(now), items);
    match Find(live, key)
    case None => (live, None)
    case Some(item) => (Put(live, item), Some(item))
  }

  function AdmitItems(items: seq<Item>, item: Item, now: int, maxEntries: nat, maxBytes: nat): seq<Item> {
    Evict(Put(Filter(Unexpired(now), items), item), maxEntries, maxBytes)
  }

  // ----- what the abstract operations guarantee -----

  /** Eviction removes the shortest least-recent prefix after which both bounds hold. */
  lemma {:induction false} EvictIsShortestPrefix(items: seq<Item>, maxEntries: nat, maxBytes: nat)
    ensures var kept := Evict(items, maxEntries, maxBytes); var n := |items| - |kept|;
      && 0 <= n && kept == items[n..] && Fits(kept, maxEntries, maxBytes)
      && forall m :: 0 <= m < n ==> !Fits(items[m..], maxEntries, maxBytes)
  {
    assert items[0..] == items;
    if items == [] || Fits(items, maxEntries, maxBytes) {
    } else {
      EvictIsShortestPrefix(items[1..], maxEntries, maxBytes);
      var n := |items| - |Evict(items, maxEntries, maxBytes)|;
      forall m | 0 < m <= n
        ensures items[1..][m - 1..] == items[m..]
      {
      }
    }
  }

  /** The entry just admitted survives its own eviction exactly when at least one entry is allowed. */
  lemma AdmittedSurvives(items: seq<Item>, item: Item, now: int, maxEntries: nat, maxBytes: nat)
    requires item.bytes <= maxBytes
    ensures var kept := AdmitItems(items, item, now, maxEntries, maxBytes);
      if maxEntries >= 1 then kept != [] && kept[|kept| - 1] == item else kept == []
  {
    var all := Put(Filter(Unexpired(now), items), item);
    EvictIsShortestPrefix(all, maxEntries, maxBytes);
    assert all[|all| - 1..] == [item];
    assert Bytes([item]) == item.bytes;
  }

  function LiveOther(key: string, now: int): Item -> bool {
    (i: Item) => i.expires > now && i.key != key
  }

  lemma {:induction false} LiveThenOther(items: seq<Item>, key: string, now: int)
    ensures Filter(OtherKey(key), Filter(Unexpired(now), items)) == Filter(LiveOther(key, now), items)
  {
    if items == [] {
    } else {
      var rest := Filter(Unexpired(now), items[1..]);
      LiveThenOther(items[1..], key, now);
      assert [] + rest == rest && ([items[0]] + rest)[1..] == rest;
    }
  }

  /** Of a list without the key, everything live is other than it. */
  lemma {:induction false} AllOther(items: seq<Item>, key: string, now: int)
    requires forall x :: x in items && x.expires > now ==> x.key != key
    ensures Filter(LiveOther(key, now), items) == Filter(Unexpired(now), items)
  {
    if items == [] {
    } else {
      AllOther(items[1..], key, now);
    }
  }

  /**
   * A lookup finds the key exactly when a live item has it; that item is then last, as it was, and all other live
   * items keep their order.
   */
  lemma HitIsRefreshed(items: seq<Item>, key: string, now: int)
    ensures var (after, found) := LookupItems(items, key, now);
      && (found.Some? <==> exists x :: x in items && x.expires > now && x.key == key)
      && (found.Some? ==> found.value in items && found.value.expires > now && found.value.key == key)
      && after == Filter(LiveOther(key, now), items) + if found.Some? then [found.value] else []
  {
    var live := Filter(Unexpired(now), items);
    LiveThenOther(items, key, now);
    if Find(live, key).None? {
      forall x | x in items && x.expires > now
        ensures x.key != key
      {
        assert x in live;
      }
      AllOther(items, key, now);
    }
  }

  /** The shortest front of the other live answers goes that makes room for the new one; nothing goes if there is room. */
  lemma AdmissionEvictsLeast(items: seq<Item>, item: Item, now: int, maxEntries: nat, maxBytes: nat) returns (n: nat)
    ensures var all, kept := Filter(LiveOther(item.key, now), items) + [item], AdmitItems(items, item, now, maxEntries, maxBytes);
      && n <= |all| && kept == all[n..] && |kept| <= maxEntries && Bytes(kept) <= maxBytes
      && forall m :: 0 <= m < n ==> |all[m..]| > maxEntries || Bytes(all[m..]) > maxBytes
  {
    var all := Filter(LiveOther(item.key, now), items) + [item];
    LiveThenOther(items, item.key, now);
    EvictIsShortestPrefix(all, maxEntries, maxBytes);
    n := |all| - |Evict(all, maxEntries, maxBytes)|;
    forall m | 0 <= m < n
      ensures |all[m..]| > maxEntries || Bytes(all[m..]) > maxBytes
    {
      assert !Fits(all[m..], maxEntries, maxBytes);
    }
  }

  // ----- refinement: rows with counters represent the list -----

  /** A row as the table holds it: a greater `touched` means used more recently. */
  datatype Row = Row(item: Item, touched: int)

  type Rows = map<string, Row>

  ghost predicate Holds(rows: Rows, item: Item) {
    item.key in rows && rows[item.key].item == item
  }

  ghost predicate Before(rows: Rows, a: Item, b: Item) {
    a.key in rows && b.key in rows && rows[a.key].touched < rows[b.key].touched
  }

  /** The list is in counter order with respect to these rows. */
  ghost predicate InOrder(rows: Rows, items: seq<Item>) {
    && (forall i :: 0 <= i < |items| ==> Holds(rows, items[i]))
    && (forall i, j :: 0 <= i < j < |items| ==> Before(rows, items[i], items[j]))
  }

  /** The list holds exactly the rows' items, by strictly increasing counter: counters are pairwise distinct. */
  ghost predicate Represents(rows: Rows, items: seq<Item>) {
    InOrder(rows, items) && forall k :: k in rows ==> rows[k].item.key == k && rows[k].item in items
  }

  function Selected(rows: Rows, keep: Item -> bool): Rows {
    map k | k in rows && keep(rows[k].item) :: rows[k]
  }

  lemma {:induction false} FilterInOrder(rows: Rows, items: seq<Item>, keep: Item -> bool)
    requires InOrder(rows, items)
    ensures InOrder(rows, Filter(keep, items))
  {
    hide Holds, Before;
    if items == [] {
    } else {
      var tail, rest := items[1..], Filter(keep, items[1..]);
      assert forall i :: 0 <= i < |tail| ==> tail[i] == items[i + 1];
      FilterInOrder(rows, tail, keep);
      forall x | x in tail
        ensures Before(rows, items[0], x)
      {
        var i :| 0 <= i < |tail| && tail[i] == x;
      }
      PrependInOrder(rows, items[0], rest);
    }
  }

  lemma PrependInOrder(rows: Rows, first: Item, rest: seq<Item>)
    requires InOrder(rows, rest) && Holds(rows, first) && forall x :: x in rest ==> Before(rows, first, x)
    ensures InOrder(rows, [first] + rest)
  {
    hide Holds, Before;
    var all := [first] + rest;
    assert forall i :: 1 <= i < |all| ==> all[i] == rest[i - 1] && all[i] in rest;
  }

  /** The order only looks at the rows of the listed items. */
  lemma SameRowsInOrder(rows: Rows, after: Rows, items: seq<Item>)
    requires InOrder(rows, items)
    requires forall x :: x in items && x.key in rows ==> x.key in after && after[x.key] == rows[x.key]
    ensures InOrder(after, items)
  {
    assert forall i :: 0 <= i < |items| ==> items[i] in items;
  }

  /** Deleting rows by a condition deletes the same items from the list. */
  lemma DeleteRepresents(rows: Rows, items: seq<Item>, keep: Item -> bool)
    requires Represents(rows, items)
    ensures Represents(Selected(rows, keep), Filter(keep, items))
  {
    FilterInOrder(rows, items, keep);
    var kept := Filter(keep, items);
    forall x | x in kept
      ensures x.key in Selected(rows, keep)
    {
      var i :| 0 <= i < |items| && items[i] == x;
      assert Holds(rows, items[i]);
    }
    SameRowsInOrder(rows, Selected(rows, keep), kept);
    hide InOrder;
  }

  /** Writing a row with a counter above all others moves its item to the recent end. */
  lemma PutRepresents(rows: Rows, items: seq<Item>, item: Item, touched: int)
    requires Represents(rows, items) && forall k :: k in rows ==> rows[k].touched < touched
    ensures Represents(rows[item.key := Row(item, touched)], Put(items, item))
  {
    var others, after := Filter(OtherKey(item.key), items), rows[item.key := Row(item, touched)];
    FilterInOrder(rows, items, OtherKey(item.key));
    SameRowsInOrder(rows, after, others);
    forall x | x in others
      ensures Before(after, x, item)
    {
      var i :| 0 <= i < |items| && items[i] == x;
      assert Holds(rows, items[i]);
    }
    AppendInOrder(after, others, item);
    hide InOrder;
    forall k: string | k in after
      ensures after[k].item.key == k && after[k].item in Put(items, item)
    {
      if k != item.key {
        assert rows[k].item in others;
      }
    }
  }

  lemma AppendInOrder(rows: Rows, front: seq<Item>, last: Item)
    requires InOrder(rows, front) && Holds(rows, last) && forall x :: x in front ==> Before(rows, x, last)
    ensures InOrder(rows, front + [last])
  {
    hide Holds, Before;
    var all := front + [last];
    assert forall i :: 0 <= i < |front| ==> all[i] == front[i] && all[i] in front;
  }

  /** The row with the least counter is the head of the list, and deleting it leaves the tail. */
  lemma HeadIsLeast(rows: Rows, items: seq<Item>, key: string)
    requires Represents(rows, items) && key in rows && forall k :: k in rows ==> rows[key].touched <= rows[k].touched
    ensures items != [] && items[0].key == key && rows[key].item == items[0] && Represents(rows - {key}, items[1..])
  {
    var i :| 0 <= i < |items| && items[i] == rows[key].item;
    assert Holds(rows, items[0]);
    assert i > 0 ==> Before(rows, items[0], items[i]);
    var tail := items[1..];
    forall x | x in tail
      ensures x.key in rows - {key}
    {
      var j :| 0 <= j < |tail| && tail[j] == x;
      assert Before(rows, items[0], items[j + 1]);
    }
    TailInOrder(rows, items);
    SameRowsInOrder(rows, rows - {key}, tail);
    hide InOrder;
  }

  lemma TailInOrder(rows: Rows, items: seq<Item>)
    requires InOrder(rows, items) && items != []
    ensures InOrder(rows, items[1..])
  {
    hide Holds, Before;
    var tail := items[1..];
    assert forall i :: 0 <= i < |tail| ==> tail[i] == items[i + 1];
  }

  class Store {
    var rows: Rows
    var epoch: nat
    ghost var items: seq<Item>

    ghost predicate Valid()
      reads this
    {
      Represents(rows, items)
    }

    constructor ()
      ensures Valid() && items == [] && epoch == 0
    {
      rows, epoch, items := map[], 0, [];
    }

    method Lookup(key: string, now: int) returns (payload: Option<string>, seenEpoch: nat)
      requires Valid()
      modifies this`rows, this`items
      ensures Valid() && seenEpoch == epoch
      ensures var (after, found) := LookupItems(old(items), key, now);
        items == after && payload == if found.Some? then Some(found.value.payload) else None
      ensures payload.Some? <==> exists x :: x in old(items) && x.expires > now && x.key == key
      ensures payload.Some? ==>
        && items != [] && items[..|items| - 1] == Filter(LiveOther(key, now), old(items))
        && var last := items[|items| - 1];
           last in old(items) && last.expires > now && last.key == key && payload == Some(last.payload)
      ensures payload.None? ==> items == Filter(Unexpired(now), old(items))
    {
      HitIsRefreshed(items, key, now);
      DeleteExpired(now);
      payload, seenEpoch := None, epoch;
      FindIsRow(rows, items, key);
      hide Represents, Find, Put;
      if key in rows {
        var item := rows[key].item;
        var touched := NextTouched();
        PutRepresents(rows, items, item, touched);
        rows, items := rows[key := Row(item, touched)], Put(items, item);
        payload := Some(item.payload);
      }
    }

    /** `bytes` is the encoded size of the payload. */
    method Admit(key: string, tenant: string, payload: string, bytes: nat, seenEpoch: nat,
                 now: int, ttl: int, maxEntries: nat, maxBytes: nat) returns (admitted: bool)
      requires Valid()
      modifies this`rows, this`items
      ensures Valid() && (admitted <==> bytes <= maxBytes && seenEpoch == epoch)
      ensures items == if admitted
        then AdmitItems(old(items), Item(key, tenant, payload, now + ttl, bytes), now, maxEntries, maxBytes)
        else old(items)
    {
      if bytes > maxBytes {
        return false;
      }
      if epoch != seenEpoch {
        return false;
      }
      var item := Item(key, tenant, payload, now + ttl, bytes);
      DeleteExpired(now);
      hide Represents;
      var touched := NextTouched();
      PutRepresents(rows, items, item, touched);
      rows, items := rows[key := Row(item, touched)], Put(items, item);
      ghost var all := items;
      while true
        invariant Valid()
        invariant Evict(items, maxEntries, maxBytes) == Evict(all, maxEntries, maxBytes)
        decreases |items|
      {
        var count, total := Totals();
        if count <= maxEntries && total <= maxBytes {
          break;
        }
        var oldest :| oldest in rows && forall k :: k in rows ==> rows[oldest].touched <= rows[k].touched;
        HeadIsLeast(rows, items, oldest);
        rows, items := rows - {oldest}, items[1..];
      }
      return true;
    }

    method Invalidate(tenant: Option<string>) returns (removed: nat)
      requires Valid()
      modifies this
      ensures Valid() && epoch == old(epoch) + 1 && items == Filter(Spared(tenant), old(items))
      ensures forall x :: x in items <==> x in old(items) && tenant.Some? && x.tenant != tenant.value
      ensures removed == |old(rows)| - |rows|
    {
      epoch := epoch + 1;
      DeleteRepresents(rows, items, Spared(tenant));
      var kept := Selected(rows, Spared(tenant));
      SubsetSize(kept.Keys, rows.Keys);
      removed := |rows| - |kept|;
      rows, items := kept, Filter(Spared(tenant), items);
    }

    method DeleteExpired(now: int)
      requires Valid()
      modifies this`rows, this`items
      ensures Valid() && items == Filter(Unexpired(now), old(items))
    {
      DeleteRepresents(rows, items, Unexpired(now));
      rows, items := Selected(rows, Unexpired(now)), Filter(Unexpired(now), items);
    }

    /** One more than the greatest counter, or one in an empty table. */
    method NextTouched() returns (touched: int)
      requires Valid()
      ensures forall k :: k in rows ==> rows[k].touched < touched
    {
      if rows == map[] {
        return 1;
      }
      LastIsGreatest(rows, items);
      var newest :| newest in rows && forall k :: k in rows ==> rows[k].touched <= rows[newest].touched;
      return rows[newest].touched + 1;
    }

    /** COUNT and SUM over the table, read in counter order. */
    method Totals() returns (count: nat, total: nat)
      requires Valid()
      ensures count == |items| && total == Bytes(items)
      ensures rows != map[] ==> exists k :: k in rows && forall q :: q in rows ==> rows[k].touched <= rows[q].touched
      ensures rows == map[] ==> items == []
    {
      var rest := rows;
      ghost var left := items;
      count, total := 0, 0;
      EmptyRepresents(rows, items);
      if rows != map[] {
        FirstIsLeast(rows, items);
      }
      hide Represents;
      while rest != map[]
        invariant Represents(rest, left)
        invariant count + |left| == |items| && total + Bytes(left) == Bytes(items)
        decreases |rest|
      {
        FirstIsLeast(rest, left);
        var key :| key in rest && forall k :: k in rest ==> rest[key].touched <= rest[k].touched;
        HeadIsLeast(rest, left, key);
        count, total := count + 1, total + rest[key].item.bytes;
        left := left[1..];
        ghost var before := rest.Keys;
        rest := rest - {key};
        assert rest.Keys == before - {key};
      }
      EmptyRepresents(rest, left);
    }
  }

  lemma FirstIsLeast(rows: Rows, items: seq<Item>)
    requires Represents(rows, items) && rows != map[]
    ensures items != [] && exists k :: k in rows && forall q :: q in rows ==> rows[k].touched <= rows[q].touched
  {
    var some :| some in rows;
    assert rows[some].item in items && Holds(rows, items[0]);
    var k := items[0].key;
    forall q | q in rows
      ensures rows[k].touched <= rows[q].touched
    {
      var j :| 0 <= j < |items| && items[j] == rows[q].item;
      assert j > 0 ==> Before(rows, items[0], items[j]);
    }
  }

  lemma LastIsGreatest(rows: Rows, items: seq<Item>)
    requires Represents(rows, items) && rows != map[]
    ensures exists k :: k in rows && forall q :: q in rows ==> rows[q].touched <= rows[k].touched
  {
    var some :| some in rows;
    var last := |items| - 1;
    assert rows[some].item in items && Holds(rows, items[last]);
    var k := items[last].key;
    forall q | q in rows
      ensures rows[q].touched <= rows[k].touched
    {
      var j :| 0 <= j < |items| && items[j] == rows[q].item;
      assert j < last ==> Before(rows, items[j], items[last]);
    }
  }

  lemma EmptyRepresents(rows: Rows, items: seq<Item>)
    requires Represents(rows, items)
    ensures rows == map[] <==> items == []
  {
    if items != [] {
      assert Holds(rows, items[0]);
    }
    if rows != map[] {
      FirstIsLeast(rows, items);
    }
  }

  /** Looking a key up in the table and in the list is the same. */
  lemma FindIsRow(rows: Rows, items: seq<Item>, key: string)
    requires Represents(rows, items)
    ensures Find(items, key) == if key in rows then Some(rows[key].item) else None
  {
    var found := Find(items, key);
    if found.Some? {
      var i :| 0 <= i < |items| && items[i] == found.value;
      assert Holds(rows, items[i]);
    }
  }
}
