/** The entities of the farm inventory and the database state they live in.
    Every table is an append-only sequence in insertion order; `clock` is the
    counter the database draws row identities and `created_at` stamps from. */
module Store {
  import opened Outcomes
  import opened Calendar

  type ItemId = nat

  /** A quantity in kilograms; quantities are never negative. */
  type Kg = r: real | 0.0 <= r witness 0.0

  datatype MoveType = In | Out

  /** Master data: an inventory item such as a feed. */
  datatype Item = Item(id: ItemId, category: string, name: string, unit: string)

  /** The fields a caller supplies when creating an item. */
  datatype ItemPayload = ItemPayload(category: string, name: string, unit: string)

  /** The fields a caller supplies for a stock move, including its
      provenance tag (`refType`, `refId`). */
  datatype MovePayload = MovePayload(
    item: ItemId, kind: MoveType, qty: Kg,
    refType: string, refId: string, note: string)

  /** A stored stock move: the payload as given, stamped when written. */
  datatype StockMove = StockMove(payload: MovePayload, createdAt: nat)

  /** Static reference data: a pallet and the trays it holds. */
  datatype Pallet = Pallet(id: nat, trayCount: nat)

  datatype Task = Task(
    id: nat, day: Date, name: string, responsible: string, minutes: int,
    location: string, note: string, pallets: seq<nat>)

  /** Feed of one item given to one pallet by one production task. */
  datatype FeedEvent = FeedEvent(taskId: nat, palletId: nat, item: ItemId, qty: Kg)

  /** Frass and larvae totals recorded by one production task. */
  datatype Output = Output(taskId: nat, frassKg: Option<Kg>, larvaeKg: Option<Kg>)

  datatype Db = Db(
    items: seq<Item>,
    moves: seq<StockMove>,
    tasks: seq<Task>,
    feedEvents: seq<FeedEvent>,
    outputs: seq<Output>,
    clock: nat)

  /** What a route leaves behind: the state its session holds afterwards
      and the outcome it reports. */
  datatype Reply<+T> = Reply(db: Db, result: Result<T>)

  /** Moves are stamped in the order they were written, and no stamp or
      item identity has been handed out beyond the clock. */
  predicate WellFormed(db: Db)
  {
    && (forall i, j :: 0 <= i < j < |db.moves| ==> db.moves[i].createdAt < db.moves[j].createdAt)
    && (forall i :: 0 <= i < |db.moves| ==> db.moves[i].createdAt < db.clock)
    && (forall i :: 0 <= i < |db.items| ==> db.items[i].id < db.clock)
  }
}
