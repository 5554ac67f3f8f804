/**
 Nested collections: a forest of folders per owner, items that link urls into folders, cascading
 deletes, and the bulk move.
 */
module Collections {
  import opened Wrappers

  datatype Error = NotFound | Unauthorized | Conflict

  datatype Collection = Collection(owner: nat, parent: Option<nat>)

  datatype Item = Item(collection: nat, url: nat, order: int)

  type Folders = map<nat, Collection>

  /** Every parent exists, has the same owner and a smaller rank: no cycles. */
  ghost predicate Forest(f: Folders, rank: map<nat, nat>) {
    && f.Keys <= rank.Keys
    && forall c :: c in f && f[c].parent.Some? ==>
         var p := f[c].parent.value;
         p in f && f[p].owner == f[c].owner && rank[p] < rank[c]
  }

  /** `root` is `c` or one of the folders it is nested in. */
  ghost predicate Under(f: Folders, rank: map<nat, nat>, c: nat, root: nat)
    requires Forest(f, rank) && c in f
    decreases rank[c]
  {
    c == root || (f[c].parent.Some? && Under(f, rank, f[c].parent.value, root))
  }

  ghost function Subtree(f: Folders, rank: map<nat, nat>, root: nat): set<nat>
    requires Forest(f, rank)
  {
    set c | c in f && Under(f, rank, c, root)
  }

  /** A folder nested in itself would have to rank below itself. */
  lemma {:induction false} UnderRanksHigher(f: Folders, rank: map<nat, nat>, c: nat, root: nat)
    requires Forest(f, rank) && c in f && root in f && Under(f, rank, c, root)
    ensures c != root ==> rank[root] < rank[c]
    ensures f[c].owner == f[root].owner
    decreases rank[c]
  {
    if c != root { UnderRanksHigher(f, rank, f[c].parent.value, root); }
  }

  /** No two different folders contain each other. */
  lemma NoCycles(f: Folders, rank: map<nat, nat>, a: nat, b: nat)
    requires Forest(f, rank) && a in f && b in f
    ensures Under(f, rank, a, b) && Under(f, rank, b, a) ==> a == b
  {
    if Under(f, rank, a, b) { UnderRanksHigher(f, rank, a, b); }
    if Under(f, rank, b, a) { UnderRanksHigher(f, rank, b, a); }
  }

  /** A set that contains the root and every child of a member contains the whole subtree. */
  lemma {:induction false} ClosedSetCovers(f: Folders, rank: map<nat, nat>, root: nat, doomed: set<nat>, c: nat)
    requires Forest(f, rank) && root in doomed && c in f && Under(f, rank, c, root)
    requires forall k :: k in f && f[k].parent.Some? && f[k].parent.value in doomed ==> k in doomed
    ensures c in doomed
    decreases rank[c]
  {
    if c != root { ClosedSetCovers(f, rank, root, doomed, f[c].parent.value); }
  }

  ghost function Linked(items: map<nat, Item>, c: nat): set<nat> {
    set i | i in items && items[i].collection == c :: items[i].url
  }

  ghost function Listed(urlIds: seq<nat>): set<nat> {
    set u | u in urlIds
  }

  lemma UnionGrows(start: set<nat>, urlIds: seq<nat>, u: nat, mid: set<nat>)
    requires mid == start + Listed(urlIds)
    ensures mid + {u} == start + Listed(urlIds + [u])
  {
    assert Listed(urlIds + [u]) == Listed(urlIds) + {u};
  }

  lemma ExtendsFurther(items: map<nat, Item>, mid: map<nat, Item>, before: map<nat, Item>, c: nat)
    requires Extends(mid, before, c) && Extends(items, mid, c)
    ensures Extends(items, before, c)
  {
    forall i | i in items && i !in before ensures items[i].collection == c {
      if i in mid { assert mid[i].collection == c; }
    }
  }

  ghost predicate OwnedBy(urls: map<nat, Option<nat>>, urlIds: seq<nat>, owner: nat) {
    forall u :: u in urlIds ==> u in urls && urls[u] == Some(owner)
  }

  /** Old items are all there unchanged; new ones are in the folder. */
  ghost predicate Extends(items: map<nat, Item>, before: map<nat, Item>, c: nat) {
    && (forall i :: i in before ==> i in items && items[i] == before[i])
    && (forall i :: i in items && i !in before ==> items[i].collection == c)
  }

  predicate Links(items: map<nat, Item>, c: nat, u: nat) {
    exists i :: i in items && items[i].collection == c && items[i].url == u
  }

  /** Every new item is the one made for some position of the list, which is also its order. */
  ghost predicate MadeFrom(items: map<nat, Item>, before: map<nat, Item>, c: nat, ids: seq<nat>, urlIds: seq<nat>)
    requires |ids| == |urlIds|
  {
    forall i :: i in items && i !in before ==> exists k :: 0 <= k < |ids| && ids[k] == i && items[i] == Item(c, urlIds[k], k)
  }

  lemma MadeFurther(items: map<nat, Item>, mid: map<nat, Item>, before: map<nat, Item>, c: nat, ids: seq<nat>, urlIds: seq<nat>, k: nat)
    requires |ids| == |urlIds| && k < |ids| && MadeFrom(mid, before, c, ids, urlIds)
    requires items == mid || items == mid[ids[k] := Item(c, urlIds[k], k)]
    ensures MadeFrom(items, before, c, ids, urlIds)
  {
  }

  /** The first k urls of the list are in, and `moved` of them are new. */
  ghost predicate Moved(items: map<nat, Item>, before: map<nat, Item>, c: nat, ids: seq<nat>, urlIds: seq<nat>, k: nat, moved: int)
    requires k <= |ids| == |urlIds|
  {
    && Linked(items, c) == Linked(before, c) + Listed(urlIds[..k])
    && moved == |Linked(items, c)| - |Linked(before, c)|
    && Extends(items, before, c) && MadeFrom(items, before, c, ids, urlIds)
  }

  lemma MovedFurther(items: map<nat, Item>, mid: map<nat, Item>, before: map<nat, Item>, c: nat,
                     ids: seq<nat>, urlIds: seq<nat>, k: nat, moved: int)
    requires k < |ids| == |urlIds| && Moved(mid, before, c, ids, urlIds, k, moved) && Extends(items, mid, c)
    requires items == mid || items == mid[ids[k] := Item(c, urlIds[k], k)]
    requires Linked(items, c) == Linked(mid, c) + {urlIds[k]}
    ensures Moved(items, before, c, ids, urlIds, k + 1, moved + |Linked(items, c)| - |Linked(mid, c)|)
  {
    assert urlIds[..k + 1] == urlIds[..k] + [urlIds[k]];
    UnionGrows(Linked(before, c), urlIds[..k], urlIds[k], Linked(mid, c));
    ExtendsFurther(items, mid, before, c);
    MadeFurther(items, mid, before, c, ids, urlIds, k);
  }

  lemma NewItem(before: map<nat, Item>, id: nat, c: nat, u: nat, order: int)
    requires id !in before && !Links(before, c, u)
    ensures var after := before[id := Item(c, u, order)];
            && Linked(after, c) == Linked(before, c) + {u}
            && |Linked(after, c)| == |Linked(before, c)| + 1
            && Extends(after, before, c)
  {
    var after := before[id := Item(c, u, order)];
    assert after[id].url in Linked(after, c);
    forall v | v in Linked(before, c) ensures v in Linked(after, c) {
      var i :| i in before && before[i].collection == c && before[i].url == v;
      assert after[i].url == v && after[i].collection == c;
    }
    assert u !in Linked(before, c);
  }

  lemma KnownItem(items: map<nat, Item>, c: nat, u: nat)
    requires Links(items, c, u)
    ensures Linked(items, c) == Linked(items, c) + {u} && Extends(items, items, c)
  {
    var i :| i in items && items[i].collection == c && items[i].url == u;
    assert items[i].url in Linked(items, c);
  }

  /** Items are in folders, link urls of the folder's owner, and no folder links a url twice. */
  ghost predicate ItemsOwned(folders: Folders, items: map<nat, Item>, urls: map<nat, Option<nat>>) {
    && (forall i :: i in items ==> items[i].collection in folders)
    && (forall i :: i in items ==> items[i].url in urls && urls[items[i].url] == Some(folders[items[i].collection].owner))
    && (forall i, j :: i in items && j in items && items[i].collection == items[j].collection && items[i].url == items[j].url
          ==> i == j)
  }

  class CollectionService {
    var collections: Folders
    var items: map<nat, Item>
    /** The url table, as far as ownership goes. */
    var urls: map<nat, Option<nat>>
    /** History: the order in which folders were created. */
    ghost var rank: map<nat, nat>

    constructor (urls: map<nat, Option<nat>>)
      ensures Valid() && collections == map[] && items == map[] && this.urls == urls
    {
      collections, items, this.urls, rank := map[], map[], urls, map[];
    }

    ghost predicate Valid()
      reads this
    {
      && Forest(collections, rank)
      && ItemsOwned(collections, items, urls)
    }

    /** The urls linked into a folder. */
    ghost function Contents(c: nat): set<nat>
      reads this
    {
      Linked(items, c)
    }

    /** Missing, somebody else's, or fine. */
    function Access(c: nat, owner: nat): Result<(), Error>
      reads this
    {
      if c !in collections then Err(NotFound)
      else if collections[c].owner != owner then Err(Unauthorized)
      else Ok(())
    }

    method CreateCollection(id: nat, owner: nat, parent: Option<nat>) returns (r: Result<(), Error>)
      requires Valid() && id !in rank
      modifies this
      ensures Valid() && items == old(items) && urls == old(urls)
      ensures r.Ok? <==> parent.None? || (parent.value in old(collections) && old(collections)[parent.value].owner == owner)
      ensures r.Ok? ==> collections == old(collections)[id := Collection(owner, parent)]
      ensures r.Err? ==> r.error == NotFound && collections == old(collections)
    {
      if parent.Some? {
        if parent.value !in collections || collections[parent.value].owner != owner { return Err(NotFound); }
      }
      collections := collections[id := Collection(owner, parent)];
      rank := rank[id := if parent.Some? then rank[parent.value] + 1 else 0];
      return Ok(());
    }

    /** The cascade: the folder, every folder nested in it, and their items. Nothing else goes. */
    method DeleteCollection(c: nat, owner: nat) returns (r: Result<(), Error>)
      requires Valid()
      modifies this
      ensures Valid() && urls == old(urls) && rank == old(rank)
      ensures r == old(Access(c, owner))
      ensures r.Err? ==> collections == old(collections) && items == old(items)
      ensures r.Ok? ==>
        var gone := Subtree(old(collections), old(rank), c);
        && collections == (map k | k in old(collections) && k !in gone :: old(collections)[k])
        && items == (map i | i in old(items) && old(items)[i].collection !in gone :: old(items)[i])
    {
      if c !in collections { return Err(NotFound); }
      if collections[c].owner != owner { return Err(Unauthorized); }
      var doomed := {c};
      while exists k :: k in collections && k !in doomed && collections[k].parent.Some? && collections[k].parent.value in doomed
        invariant c in doomed && doomed <= Subtree(collections, rank, c)
        decreases collections.Keys - doomed
      {
        var k :| k in collections && k !in doomed && collections[k].parent.Some? && collections[k].parent.value in doomed;
        doomed := doomed + {k};
      }
      forall k | k in Subtree(collections, rank, c) ensures k in doomed {
        ClosedSetCovers(collections, rank, c, doomed, k);
      }
      items := map i | i in items && items[i].collection !in doomed :: items[i];
      collections := map k | k in collections && k !in doomed :: collections[k];
      return Ok(());
    }

    /** The item that links a url into a folder, if any. */
    method FindItem(c: nat, u: nat) returns (r: Option<nat>)
      ensures r.Some? ==> r.value in items && items[r.value].collection == c && items[r.value].url == u
      ensures r.None? ==> u !in Contents(c)
    {
      if i :| i in items && items[i].collection == c && items[i].url == u {
        return Some(i);
      }
      return None;
    }

    function AddError(c: nat, u: nat, owner: nat): Option<Error>
      reads this
    {
      if Access(c, owner).Err? then Some(Access(c, owner).error)
      else if u !in urls || urls[u] != Some(owner) then Some(NotFound)
      else if Links(items, c, u) then Some(Conflict)
      else None
    }

    method AddUrl(id: nat, c: nat, u: nat, owner: nat, order: int) returns (r: Result<(), Error>)
      requires Valid() && id !in items
      modifies this
      ensures Valid() && collections == old(collections) && urls == old(urls) && rank == old(rank)
      ensures r == if old(AddError(c, u, owner)).None? then Ok(()) else Err(old(AddError(c, u, owner)).value)
      ensures items == if r.Ok? then old(items)[id := Item(c, u, order)] else old(items)
    {
      if c !in collections { return Err(NotFound); }
      if collections[c].owner != owner { return Err(Unauthorized); }
      if u !in urls || urls[u] != Some(owner) { return Err(NotFound); }
      var existing := FindItem(c, u);
      if existing.Some? { return Err(Conflict); }
      items := items[id := Item(c, u, order)];
      return Ok(());
    }

    method RemoveUrl(c: nat, u: nat, owner: nat) returns (r: Result<(), Error>)
      requires Valid()
      modifies this
      ensures Valid() && collections == old(collections) && urls == old(urls)
      ensures old(Access(c, owner)).Err? ==> r == old(Access(c, owner)) && items == old(items)
      ensures old(Access(c, owner)).Ok? ==> (r.Ok? <==> u in old(Contents(c)))
      ensures r.Err? && old(Access(c, owner)).Ok? ==> r.error == NotFound && items == old(items)
      ensures r.Ok? ==> exists i :: i in old(items) && old(items)[i].collection == c && old(items)[i].url == u
                                    && items == old(items) - {i}
    {
      if c !in collections { return Err(NotFound); }
      if collections[c].owner != owner { return Err(Unauthorized); }
      var item := FindItem(c, u);
      if item.None? { return Err(NotFound); }
      assert items[item.value].url in Contents(c);
      items := items - {item.value};
      return Ok(());
    }

    /** One turn of the bulk move: true if the url is new in the folder, false if it was there. */
    method MoveOne(id: nat, c: nat, u: nat, owner: nat, order: int) returns (r: Result<bool, Error>)
      requires Valid() && id !in items && Access(c, owner).Ok?
      modifies this
      ensures Valid() && collections == old(collections) && urls == old(urls)
      ensures r.Ok? <==> u in urls && urls[u] == Some(owner)
      ensures r.Err? ==> r.error == NotFound && items == old(items)
      ensures r == Ok(false) ==> items == old(items)
      ensures r == Ok(true) ==> items == old(items)[id := Item(c, u, order)]
      ensures Extends(items, old(items), c)
      ensures r.Ok? ==> Linked(items, c) == Linked(old(items), c) + {u}
      ensures r.Ok? ==> |Linked(items, c)| == |Linked(old(items), c)| + (if r.value then 1 else 0)
    {
      ghost var before := items;
      var one := AddUrl(id, c, u, owner, order);
      if one.Ok? {
        NewItem(before, id, c, u, order);
        return Ok(true);
      }
      if one.error == Conflict {
        KnownItem(items, c, u);
        return Ok(false);
      }
      return Err(one.error);
    }

    /**
     On success the folder holds its old urls and the given ones, and the result is the number of urls
     that are new in it. It succeeds exactly when the folder and all the urls are the owner's. Items
     that were there stay as they are, and new ones are in this folder. `ids` are the new items' keys.
     */
    method BulkMove(urlIds: seq<nat>, c: nat, owner: nat, ids: seq<nat>) returns (r: Result<nat, Error>)
      requires Valid() && |ids| == |urlIds|
      requires (forall k :: 0 <= k < |ids| ==> ids[k] !in items) && forall j, k :: 0 <= j < k < |ids| ==> ids[j] != ids[k]
      modifies this
      ensures Valid() && collections == old(collections) && urls == old(urls)
      ensures r.Ok? ==> Contents(c) == old(Contents(c)) + Listed(urlIds)
      ensures r.Ok? ==> r.value == |Contents(c)| - |old(Contents(c))|
      ensures r.Ok? <==> old(Access(c, owner)).Ok? && OwnedBy(urls, urlIds, owner)
      ensures Extends(items, old(items), c) && MadeFrom(items, old(items), c, ids, urlIds)
    {
      if c !in collections { return Err(NotFound); }
      if collections[c].owner != owner { return Err(Unauthorized); }
      var moved, k := 0, 0;
      assert urlIds[..0] == [];
      while k < |urlIds|
        invariant 0 <= k <= |urlIds|
        invariant Valid() && collections == old(collections) && urls == old(urls)
        invariant forall j :: k <= j < |ids| ==> ids[j] !in items
        invariant Moved(items, old(items), c, ids, urlIds, k, moved)
        invariant OwnedBy(urls, urlIds[..k], owner)
      {
        assert urlIds[..k + 1] == urlIds[..k] + [urlIds[k]];
        ghost var before := items;
        var one := MoveOne(ids[k], c, urlIds[k], owner, k);
        if one.Err? {
          assert urlIds[k] in urlIds;
          return Err(one.error);
        }
        MovedFurther(items, before, old(items), c, ids, urlIds, k, moved);
        if one.value { moved := moved + 1; }
        k := k + 1;
      }
      assert urlIds[..|urlIds|] == urlIds;
      return Ok(moved);
    }

    /** Only items of this folder are touched, and only their order; the last order given for an item wins. */
    method ReorderItems(c: nat, owner: nat, orders: seq<(nat, int)>) returns (r: Result<(), Error>)
      requires Valid()
      modifies this
      ensures Valid() && collections == old(collections) && urls == old(urls)
      ensures r == old(Access(c, owner))
      ensures r.Err? ==> items == old(items)
      ensures r.Ok? ==> AllReordered(items, old(items), c, orders)
    {
      if c !in collections { return Err(NotFound); }
      if collections[c].owner != owner { return Err(Unauthorized); }
      var itemMap := set i | i in items && items[i].collection == c;
      ghost var before := items;
      var k := 0;
      while k < |orders|
        invariant 0 <= k <= |orders|
        invariant collections == old(collections) && urls == old(urls) && rank == old(rank)
        invariant AllReordered(items, before, c, orders[..k])
      {
        ReorderStep(items, before, c, orders, k);
        if orders[k].0 in itemMap {
          items := Placed(items, orders[k].0, orders[k].1);
        }
        k := k + 1;
      }
      assert orders[..|orders|] == orders;
      ReorderKeepsOwned(collections, items, before, urls, c, orders);
      return Ok(());
    }
  }

  function Placed(items: map<nat, Item>, i: nat, order: int): map<nat, Item>
    requires i in items
  {
    items[i := items[i].(order := order)]
  }

  /** Every item is what the list of new orders makes of it. */
  ghost predicate AllReordered(items: map<nat, Item>, before: map<nat, Item>, c: nat, orders: seq<(nat, int)>) {
    items.Keys == before.Keys && forall i :: i in before ==> items[i] == Reordered(i, before[i], c, orders)
  }

  lemma ReorderKeepsOwned(folders: Folders, items: map<nat, Item>, before: map<nat, Item>, urls: map<nat, Option<nat>>,
                          c: nat, orders: seq<(nat, int)>)
    requires ItemsOwned(folders, before, urls) && AllReordered(items, before, c, orders)
    ensures ItemsOwned(folders, items, urls)
  {
    assert forall i :: i in before ==> items[i].collection == before[i].collection && items[i].url == before[i].url;
  }

  lemma ReorderStep(items: map<nat, Item>, before: map<nat, Item>, c: nat, orders: seq<(nat, int)>, k: nat)
    requires k < |orders| && AllReordered(items, before, c, orders[..k])
    ensures var i := orders[k].0;
            if i in before && before[i].collection == c then AllReordered(Placed(items, i, orders[k].1), before, c, orders[..k + 1])
            else AllReordered(items, before, c, orders[..k + 1])
  {
    assert orders[..k + 1][..k] == orders[..k] && orders[..k + 1][k] == orders[k];
  }

  /** What a list of new orders makes of one item. */
  function Reordered(id: nat, item: Item, c: nat, orders: seq<(nat, int)>): (r: Item)
    ensures r.collection == item.collection && r.url == item.url
  {
    if orders == [] || item.collection != c then item
    else if orders[|orders| - 1].0 == id then item.(order := orders[|orders| - 1].1)
    else Reordered(id, item, c, orders[..|orders| - 1])
  }
}
