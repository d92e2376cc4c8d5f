/** The `/stock` routes: items, the stock-move ledger, the balance guard on
    `out` moves, and the two list endpoints. An item's quantity is never
    stored; it is derived from the moves each time it is asked for. */
module Ledger {
  import opened Outcomes
  import opened Store
  import opened Sorting

  // ---------------------------------------------------------------------
  // Derived quantity

  /** Sum of the quantities of item `i`'s moves of the given kind. */
  function Total(moves: seq<StockMove>, i: ItemId, kind: MoveType): real
  {
    if |moves| == 0 then 0.0
    else
      var m := moves[|moves| - 1];
      Total(moves[..|moves| - 1], i, kind)
        + Counted(m, i, kind)
  }

  /** The quantity of an item: everything that came in less everything that
      went out. */
  function StockQty(moves: seq<StockMove>, i: ItemId): real
  {
    Total(moves, i, In) - Total(moves, i, Out)
  }

  /** The signed effect of one move on item `i`. */
  function Delta(m: StockMove, i: ItemId): real
  {
    if m.payload.item != i then 0.0
    else if m.payload.kind == In then m.payload.qty
    else -(m.payload.qty as real)
  }

  /** The ledger read front to back as a running balance: an independent
      definition of the same quantity. */
  function Net(moves: seq<StockMove>, i: ItemId): real
  {
    if |moves| == 0 then 0.0 else Delta(moves[0], i) + Net(moves[1..], i)
  }

  /** No item's quantity is below zero. */
  ghost predicate NonNegativeStock(moves: seq<StockMove>)
  {
    forall i: ItemId :: StockQty(moves, i) >= 0.0
  }

  lemma {:induction false} TotalAppend(a: seq<StockMove>, b: seq<StockMove>, i: ItemId, kind: MoveType)
    ensures Total(a + b, i, kind) == Total(a, i, kind) + Total(b, i, kind)
  {
    if |b| == 0 {
      assert a + b == a;
    } else {
      var b' := b[..|b| - 1];
      assert (a + b)[..|a + b| - 1] == a + b';
      assert (a + b)[|a + b| - 1] == b[|b| - 1];
      TotalAppend(a, b', i, kind);
    }
  }

  /** Appending one move changes item `i`'s quantity by that move's delta. */
  lemma StockQtyAppend(moves: seq<StockMove>, m: StockMove, i: ItemId)
    ensures StockQty(moves + [m], i) == StockQty(moves, i) + Delta(m, i)
  {
    assert (moves + [m])[..|moves|] == moves;
  }

  /** The derived quantity and the running balance agree on every ledger. */
  lemma {:induction false} StockQtyIsNet(moves: seq<StockMove>, i: ItemId)
    ensures StockQty(moves, i) == Net(moves, i)
  {
    if |moves| > 0 {
      StockQtyIsNet(moves[1..], i);
      assert moves == [moves[0]] + moves[1..];
      TotalAppend([moves[0]], moves[1..], i, In);
      TotalAppend([moves[0]], moves[1..], i, Out);
      assert [moves[0]][..0] == [];
    }
  }

  /** The contribution of one move to `Total`. */
  function Counted(m: StockMove, i: ItemId, kind: MoveType): real
  {
    if m.payload.item == i && m.payload.kind == kind then m.payload.qty else 0.0
  }

  lemma TotalRemove(b: seq<StockMove>, j: nat, i: ItemId, kind: MoveType)
    requires j < |b|
    ensures Total(b, i, kind) == Total(b[..j] + b[j + 1..], i, kind) + Counted(b[j], i, kind)
  {
    assert b == b[..j] + [b[j]] + b[j + 1..];
    TotalAppend(b[..j] + [b[j]], b[j + 1..], i, kind);
    TotalAppend(b[..j], [b[j]], i, kind);
    TotalAppend(b[..j], b[j + 1..], i, kind);
    assert [b[j]][..0] == [];
  }

  lemma MultisetRemove(b: seq<StockMove>, j: nat)
    requires j < |b|
    ensures multiset(b[..j] + b[j + 1..]) == multiset(b) - multiset{b[j]}
  {
    assert b == b[..j] + [b[j]] + b[j + 1..];
  }

  lemma {:induction false} TotalPermutation(a: seq<StockMove>, b: seq<StockMove>, i: ItemId, kind: MoveType)
    requires multiset(a) == multiset(b)
    ensures Total(a, i, kind) == Total(b, i, kind)
  {
    if |a| > 0 {
      var x := a[|a| - 1];
      var a' := a[..|a| - 1];
      MultisetRemove(a, |a| - 1);
      assert a[|a| - 1 + 1..] == [];
      assert a' + [] == a';
      assert x in multiset(b);
      assert x in b;
      var j :| 0 <= j < |b| && b[j] == x;
      var b' := b[..j] + b[j + 1..];
      MultisetRemove(b, j);
      TotalPermutation(a', b', i, kind);
      TotalRemove(b, j, i, kind);
      assert Total(a, i, kind) == Total(a', i, kind) + Counted(x, i, kind);
    } else {
      assert |b| == |multiset(b)| == 0;
    }
  }

  /** The order in which moves were recorded does not affect any quantity. */
  lemma StockQtyOrderIndependent(a: seq<StockMove>, b: seq<StockMove>, i: ItemId)
    requires multiset(a) == multiset(b)
    ensures StockQty(a, i) == StockQty(b, i)
  {
    TotalPermutation(a, b, i, In);
    TotalPermutation(a, b, i, Out);
  }

  /** An item no move mentions has quantity 0. */
  lemma {:induction false} StockQtyWithoutMoves(moves: seq<StockMove>, i: ItemId)
    requires forall k :: 0 <= k < |moves| ==> moves[k].payload.item != i
    ensures StockQty(moves, i) == 0.0
  {
    if |moves| > 0 {
      StockQtyWithoutMoves(moves[..|moves| - 1], i);
    }
  }

  // ---------------------------------------------------------------------
  // Items

  /** `POST /stock/items`: store the payload as a new item. */
  function CreateItem(db: Db, p: ItemPayload): (r: Reply<Item>)
    ensures r.result.Ok?
    ensures r.result.value.category == p.category
    ensures r.result.value.name == p.name && r.result.value.unit == p.unit
    ensures r.db.items == db.items + [r.result.value]
    ensures r.db.moves == db.moves && r.db.tasks == db.tasks
    ensures r.db.feedEvents == db.feedEvents && r.db.outputs == db.outputs
    ensures WellFormed(db) ==> WellFormed(r.db)
    ensures WellFormed(db) ==>
      forall k :: 0 <= k < |db.items| ==> db.items[k].id != r.result.value.id
  {
    var item := Item(db.clock, p.category, p.name, p.unit);
    Reply(db.(items := db.items + [item], clock := db.clock + 1), Ok(item))
  }

  /** Items by category, then by name. */
  predicate ItemLe(a: Item, b: Item)
  {
    (StrLe(a.category, b.category) && a.category != b.category)
    || (a.category == b.category && StrLe(a.name, b.name))
  }

  lemma ItemLeIsTotalPreorder()
    ensures TotalPreorder(ItemLe)
  {
    forall a: Item, b: Item
      ensures ItemLe(a, b) || ItemLe(b, a)
    {
      StrLeTotal(a.category, b.category);
      StrLeTotal(a.name, b.name);
    }
    forall a: Item, b: Item, c: Item | ItemLe(a, b) && ItemLe(b, c)
      ensures ItemLe(a, c)
    {
      if a.category == b.category && b.category == c.category {
        StrLeTransitive(a.name, b.name, c.name);
      } else if a.category != b.category && b.category != c.category {
        StrLeTransitive(a.category, b.category, c.category);
        if a.category == c.category {
          StrLeAntisymmetric(a.category, b.category);
        }
      }
    }
  }

  lemma SortedItemsAreOrdered(r: seq<Item>)
    requires SortedBy(r, ItemLe)
    ensures forall i, j :: 0 <= i < j < |r| ==>
      StrLe(r[i].category, r[j].category)
      && (r[i].category == r[j].category ==> StrLe(r[i].name, r[j].name))
  {
    forall i, j | 0 <= i < j < |r|
      ensures StrLe(r[i].category, r[j].category)
    {
      assert ItemLe(r[i], r[j]);
      StrLeTotal(r[i].category, r[i].category);
    }
  }

  /** `GET /stock/items`: every item, ordered by (category, name). */
  function ListItems(db: Db): (r: seq<Item>)
    ensures multiset(r) == multiset(db.items)
    ensures forall i, j :: 0 <= i < j < |r| ==>
      StrLe(r[i].category, r[j].category)
      && (r[i].category == r[j].category ==> StrLe(r[i].name, r[j].name))
  {
    ItemLeIsTotalPreorder();
    var r := SortBy(db.items, ItemLe);
    SortedItemsAreOrdered(r);
    r
  }

  // ---------------------------------------------------------------------
  // Stock moves

  /** The guard of `create_stock_move`: only an `out` is checked, and it is
      refused when the current quantity is strictly below the request. */
  predicate Covered(moves: seq<StockMove>, p: MovePayload)
  {
    !(p.kind == Out && StockQty(moves, p.item) < p.qty)
  }

  /** Writes one move, stamped with the clock. */
  function AppendMove(db: Db, p: MovePayload): Db
  {
    db.(moves := db.moves + [StockMove(p, db.clock)], clock := db.clock + 1)
  }

  /** `POST /stock/moves`: the guarded append. */
  function CreateStockMove(db: Db, p: MovePayload): (r: Reply<StockMove>)
    ensures r.result.Err? <==> p.kind == Out && StockQty(db.moves, p.item) < p.qty
    ensures r.result.Err? ==>
      r.db == db && r.result.error == NotEnoughStock(StockQty(db.moves, p.item))
    ensures r.result.Ok? ==>
      && r.result.value.payload == p
      && r.db.moves == db.moves + [r.result.value]
      && r.db.items == db.items && r.db.tasks == db.tasks
      && r.db.feedEvents == db.feedEvents && r.db.outputs == db.outputs
    ensures WellFormed(db) ==> WellFormed(r.db)
    ensures WellFormed(db) && r.result.Ok? ==>
      forall k :: 0 <= k < |db.moves| ==> db.moves[k].createdAt < r.result.value.createdAt
  {
    if Covered(db.moves, p) then
      var db' := AppendMove(db, p);
      Reply(db', Ok(db'.moves[|db.moves|]))
    else
      Reply(db, Err(NotEnoughStock(StockQty(db.moves, p.item))))
  }

  /** After an accepted move, its item's quantity moves by exactly the
      move's quantity (up for `in`, down for `out`) and no other item's
      quantity changes. */
  lemma CreateStockMoveShiftsOnlyItsItem(db: Db, p: MovePayload)
    requires CreateStockMove(db, p).result.Ok?
    ensures StockQty(CreateStockMove(db, p).db.moves, p.item)
      == StockQty(db.moves, p.item) + (if p.kind == In then p.qty as real else -(p.qty as real))
    ensures forall j: ItemId :: j != p.item ==>
      StockQty(CreateStockMove(db, p).db.moves, j) == StockQty(db.moves, j)
  {
    var m := CreateStockMove(db, p).result.value;
    StockQtyAppend(db.moves, m, p.item);
    forall j: ItemId | j != p.item
      ensures StockQty(db.moves + [m], j) == StockQty(db.moves, j)
    {
      StockQtyAppend(db.moves, m, j);
    }
  }

  /** Whether accepted or refused, a call never drives a quantity below 0. */
  lemma CreateStockMoveKeepsStockNonNegative(db: Db, p: MovePayload)
    requires NonNegativeStock(db.moves)
    ensures NonNegativeStock(CreateStockMove(db, p).db.moves)
  {
    if CreateStockMove(db, p).result.Ok? {
      CreateStockMoveShiftsOnlyItsItem(db, p);
    }
  }

  /** The guard is strict: an `out` of exactly the current quantity is
      accepted and leaves the item at 0. */
  lemma ExactOutEmptiesStock(db: Db, p: MovePayload)
    requires p.kind == Out && p.qty == StockQty(db.moves, p.item)
    ensures CreateStockMove(db, p).result.Ok?
    ensures StockQty(CreateStockMove(db, p).db.moves, p.item) == 0.0
  {
    CreateStockMoveShiftsOnlyItsItem(db, p);
  }

  datatype QtyReport = QtyReport(itemId: ItemId, qtyKg: real)

  /** `GET /stock/qty/{item_id}`: the requested id and its quantity. */
  function GetItemStock(db: Db, i: ItemId): (r: QtyReport)
    ensures r.itemId == i
    ensures r.qtyKg == Net(db.moves, i)
  {
    StockQtyIsNet(db.moves, i);
    QtyReport(i, StockQty(db.moves, i))
  }

  /** Newest first. */
  predicate NewerOrSame(a: StockMove, b: StockMove)
  {
    a.createdAt >= b.createdAt
  }

  /** `GET /stock/moves`: every move, by `created_at` descending. */
  function ListStockMoves(db: Db): (r: seq<StockMove>)
    ensures multiset(r) == multiset(db.moves)
    ensures forall i, j :: 0 <= i < j < |r| ==> r[i].createdAt >= r[j].createdAt
  {
    SortBy(db.moves, NewerOrSame)
  }

  lemma {:induction false} SortNewestFirst(s: seq<StockMove>)
    requires forall i, j :: 0 <= i < j < |s| ==> s[i].createdAt < s[j].createdAt
    ensures SortBy(s, NewerOrSame) == Reverse(s)
  {
    if |s| > 0 {
      var init := s[..|s| - 1];
      SortNewestFirst(init);
    }
  }

  /** In a well-formed ledger the move list is exactly the moves in reverse
      order of writing: the most recent first. */
  lemma ListStockMovesNewestFirst(db: Db)
    requires WellFormed(db)
    ensures ListStockMoves(db) == Reverse(db.moves)
  {
    SortNewestFirst(db.moves);
  }
}
