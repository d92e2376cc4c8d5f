/** Recording one day's production task as a single transaction.

    The day is validated first; an impossible date is reported before any
    write. Then the writes are staged one after another on a copy of the
    state: the task, a feed event and an `out` move for every pallet and
    selected feed, and the output record. Any write may raise (the fault is
    an explicit parameter: the position of the write that raises) and every
    `out` move passes the same balance guard as `POST /stock/moves`. Commit
    returns the staged state; on any failure the original state is returned
    unchanged (rollback) with an error outcome. */
module Production {
  import opened Outcomes
  import opened Calendar
  import opened Store
  import opened Ledger

  /** One feed slot of the form: an item and the kilograms per tray. */
  datatype FeedSlot = FeedSlot(item: Option<ItemId>, qtyPerTray: Kg)

  /** A slot counts only when it names an item and a positive quantity. */
  predicate Selected(f: FeedSlot)
  {
    f.item.Some? && f.qtyPerTray > 0.0
  }

  datatype Request = Request(
    day: string, taskName: string, responsible: string, minutes: int,
    location: string, note: string,
    feed1: FeedSlot, feed2: FeedSlot,
    pallets: seq<Pallet>,
    frassKg: Option<Kg>, larvaeKg: Option<Kg>)

  /** One staged write of the transaction. */
  datatype Write =
    | NewTask(task: Task)
    | NewFeedEvent(event: FeedEvent)
    | NewStockMove(move: MovePayload)
    | NewOutput(output: Output)

  // ---------------------------------------------------------------------
  // The plan of writes

  function DecimalString(n: nat): string
  {
    if n < 10 then [('0' as int + n) as char]
    else DecimalString(n / 10) + [('0' as int + n % 10) as char]
  }

  function PalletIds(pallets: seq<Pallet>): seq<nat>
  {
    if |pallets| == 0 then [] else [pallets[0].id] + PalletIds(pallets[1..])
  }

  /** A feed event and the matching `out` move, for every pallet in turn. */
  function FeedLegs(taskId: nat, item: ItemId, perTray: Kg, pallets: seq<Pallet>): seq<Write>
  {
    if |pallets| == 0 then []
    else
      var p := pallets[0];
      var qty: Kg := perTray * (p.trayCount as real);
      [ NewFeedEvent(FeedEvent(taskId, p.id, item, qty)),
        NewStockMove(MovePayload(item, Out, qty, "production", DecimalString(taskId), ""))
      ] + FeedLegs(taskId, item, perTray, pallets[1..])
  }

  function SlotLegs(taskId: nat, f: FeedSlot, pallets: seq<Pallet>): seq<Write>
  {
    if Selected(f) then FeedLegs(taskId, f.item.value, f.qtyPerTray, pallets) else []
  }

  /** Every write one production record stages, in order. */
  function Plan(req: Request, day: Date, taskId: nat): seq<Write>
  {
    var task := Task(taskId, day, req.taskName, req.responsible, req.minutes,
                     req.location, req.note, PalletIds(req.pallets));
    [NewTask(task)]
      + SlotLegs(taskId, req.feed1, req.pallets)
      + SlotLegs(taskId, req.feed2, req.pallets)
      + (if req.frassKg.Some? || req.larvaeKg.Some?
         then [NewOutput(Output(taskId, req.frassKg, req.larvaeKg))] else [])
  }

  // ---------------------------------------------------------------------
  // What a sequence of writes adds to each table

  function TasksOf(ws: seq<Write>): seq<Task>
  {
    if |ws| == 0 then []
    else (if ws[0].NewTask? then [ws[0].task] else []) + TasksOf(ws[1..])
  }

  function FeedEventsOf(ws: seq<Write>): seq<FeedEvent>
  {
    if |ws| == 0 then []
    else (if ws[0].NewFeedEvent? then [ws[0].event] else []) + FeedEventsOf(ws[1..])
  }

  function MovesOf(ws: seq<Write>): seq<MovePayload>
  {
    if |ws| == 0 then []
    else (if ws[0].NewStockMove? then [ws[0].move] else []) + MovesOf(ws[1..])
  }

  function OutputsOf(ws: seq<Write>): seq<Output>
  {
    if |ws| == 0 then []
    else (if ws[0].NewOutput? then [ws[0].output] else []) + OutputsOf(ws[1..])
  }

  function Payloads(moves: seq<StockMove>): seq<MovePayload>
  {
    if |moves| == 0 then [] else [moves[0].payload] + Payloads(moves[1..])
  }

  /** `after` is `before` with all of `ws` written and nothing else. */
  predicate AllWritten(before: Db, after: Db, ws: seq<Write>)
  {
    && after.items == before.items
    && after.tasks == before.tasks + TasksOf(ws)
    && after.feedEvents == before.feedEvents + FeedEventsOf(ws)
    && after.outputs == before.outputs + OutputsOf(ws)
    && |after.moves| == |before.moves| + |MovesOf(ws)|
    && after.moves[..|before.moves|] == before.moves
    && Payloads(after.moves[|before.moves|..]) == MovesOf(ws)
    && after.clock == before.clock + |ws|
  }

  // ---------------------------------------------------------------------
  // Staging, commit and rollback

  /** Stages one write; only an `out` move can be refused, by the guard. */
  function ApplyWrite(db: Db, w: Write): (r: Result<Db>)
    ensures r.Err? <==> w.NewStockMove? && !Covered(db.moves, w.move)
    ensures r.Err? ==> r.error == NotEnoughStock(StockQty(db.moves, w.move.item))
    ensures r.Ok? ==> AllWritten(db, r.value, [w])
  {
    var db' := db.(clock := db.clock + 1);
    match w
    case NewTask(t) => Ok(db'.(tasks := db.tasks + [t]))
    case NewFeedEvent(e) => Ok(db'.(feedEvents := db.feedEvents + [e]))
    case NewOutput(o) => Ok(db'.(outputs := db.outputs + [o]))
    case NewStockMove(p) =>
      if Covered(db.moves, p) then
        var r := AppendMove(db, p);
        assert r.moves[|db.moves|..] == [StockMove(p, db.clock)];
        Ok(r)
      else
        Err(NotEnoughStock(StockQty(db.moves, p.item)))
  }

  /** Stages `ws`, whose first write is at position `pos` of the plan; the
      write at position `raisesAt` raises instead of being written. */
  function Stage(db: Db, ws: seq<Write>, raisesAt: Option<nat>, pos: nat): (r: Result<Db>)
    ensures r.Ok? ==> AllWritten(db, r.value, ws)
    decreases |ws|
  {
    if |ws| == 0 then
      assert db.moves[|db.moves|..] == [];
      Ok(db)
    else if raisesAt == Some(pos) then Err(WriteRaised(pos))
    else
      match ApplyWrite(db, ws[0])
      case Err(e) => Err(e)
      case Ok(db') =>
        var r := Stage(db', ws[1..], raisesAt, pos + 1);
        if r.Ok? then
          StagedMoves(db, db', r.value, ws);
          r
        else r
  }

  lemma StagedMoves(db: Db, db': Db, db'': Db, ws: seq<Write>)
    requires |ws| > 0
    requires AllWritten(db, db', [ws[0]])
    requires AllWritten(db', db'', ws[1..])
    ensures AllWritten(db, db'', ws)
  {
    WritesOfFirst(ws);
    MovesSplice(db.moves, db'.moves, db''.moves, MovesOf([ws[0]]), MovesOf(ws[1..]));
  }

  /** Each table's rows from `ws` are those of its first write, then the rest. */
  lemma WritesOfFirst(ws: seq<Write>)
    requires |ws| > 0
    ensures TasksOf([ws[0]]) + TasksOf(ws[1..]) == TasksOf(ws)
    ensures FeedEventsOf([ws[0]]) + FeedEventsOf(ws[1..]) == FeedEventsOf(ws)
    ensures OutputsOf([ws[0]]) + OutputsOf(ws[1..]) == OutputsOf(ws)
    ensures MovesOf([ws[0]]) + MovesOf(ws[1..]) == MovesOf(ws)
  {
    OneWrite(ws[0]);
  }

  /** The rows a single write adds to each table. */
  lemma OneWrite(w: Write)
    ensures TasksOf([w]) == if w.NewTask? then [w.task] else []
    ensures FeedEventsOf([w]) == if w.NewFeedEvent? then [w.event] else []
    ensures OutputsOf([w]) == if w.NewOutput? then [w.output] else []
    ensures MovesOf([w]) == if w.NewStockMove? then [w.move] else []
  {
    assert [w][1..] == [];
  }

  /** Two appends of move rows, each keeping its prefix, make one append. */
  lemma MovesSplice(a: seq<StockMove>, b: seq<StockMove>, c: seq<StockMove>,
                    pa: seq<MovePayload>, pb: seq<MovePayload>)
    requires |b| == |a| + |pa| && b[..|a|] == a && Payloads(b[|a|..]) == pa
    requires |c| == |b| + |pb| && c[..|b|] == b && Payloads(c[|b|..]) == pb
    ensures |c| == |a| + |pa + pb| && c[..|a|] == a && Payloads(c[|a|..]) == pa + pb
  {
    assert c[|a|..] == b[|a|..] + c[|b|..];
    PayloadsAppend(b[|a|..], c[|b|..]);
  }

  lemma {:induction false} PayloadsAppend(a: seq<StockMove>, b: seq<StockMove>)
    ensures Payloads(a + b) == Payloads(a) + Payloads(b)
  {
    if |a| > 0 {
      assert (a + b)[1..] == a[1..] + b;
      PayloadsAppend(a[1..], b);
    } else {
      assert a + b == b;
    }
  }

  /** The outcome of `ui_production_record` together with the state the
      session holds afterwards. On success the id of the new task. */
  function RecordProduction(db: Db, req: Request, raisesAt: Option<nat>): (r: Reply<nat>)
    ensures ParseDate(req.day).None? ==> r == Reply(db, Err(InvalidDate))
    ensures r.result.Err? ==> r.db == db
    ensures r.result.Err? && ParseDate(req.day).Some? ==> r.result.error.ProductionFailed?
    ensures r.result.Ok? ==>
      && ParseDate(req.day).Some?
      && r.result.value == db.clock
      && AllWritten(db, r.db, Plan(req, ParseDate(req.day).value, db.clock))
  {
    match ParseDate(req.day)
    case None => Reply(db, Err(InvalidDate))
    case Some(day) =>
      match Stage(db, Plan(req, day, db.clock), raisesAt, 0)
      case Ok(staged) => Reply(staged, Ok(db.clock))
      case Err(e) => Reply(db, Err(ProductionFailed(e)))
  }

  // ---------------------------------------------------------------------
  // Properties of the transaction

  /** A write that raises anywhere in the staged sequence fails the whole
      sequence. */
  lemma {:induction false} StageFailsOnFault(db: Db, ws: seq<Write>, k: nat, pos: nat)
    requires pos <= k < pos + |ws|
    ensures Stage(db, ws, Some(k), pos).Err?
    decreases |ws|
  {
    var first := ApplyWrite(db, ws[0]);
    if k != pos && first.Ok? {
      StageFailsOnFault(first.value, ws[1..], k, pos + 1);
    }
  }

  /** A write raising at any position of the plan yields an error outcome
      that names the rolled-back record, and the state is exactly the state
      before the call: no task, feed event, move or output survives. */
  lemma FaultRollsBack(db: Db, req: Request, k: nat)
    requires ParseDate(req.day).Some?
    requires k < |Plan(req, ParseDate(req.day).value, db.clock)|
    ensures RecordProduction(db, req, Some(k)).result.Err?
    ensures RecordProduction(db, req, Some(k)).result.error.ProductionFailed?
    ensures RecordProduction(db, req, Some(k)).db == db
  {
    StageFailsOnFault(db, Plan(req, ParseDate(req.day).value, db.clock), k, 0);
  }

  /** The `out` quantity `ws` would take from item `i`. */
  function Demand(ws: seq<Write>, i: ItemId): (d: real)
    ensures d >= 0.0
  {
    if |ws| == 0 then 0.0
    else
      (if ws[0].NewStockMove? && ws[0].move.kind == Out && ws[0].move.item == i
       then ws[0].move.qty as real else 0.0)
      + Demand(ws[1..], i)
  }

  /** Every stock move among `ws` is an `out`. */
  predicate OnlyOuts(ws: seq<Write>)
  {
    forall k :: 0 <= k < |ws| && ws[k].NewStockMove? ==> ws[k].move.kind == Out
  }

  /** The signed effect of one write on item `j`'s quantity. */
  function WriteDelta(w: Write, j: ItemId): real
  {
    if !w.NewStockMove? || w.move.item != j then 0.0
    else if w.move.kind == In then w.move.qty as real
    else -(w.move.qty as real)
  }

  /** A staged stock move shifts only its own item; other writes shift none. */
  lemma ApplyWriteQty(db: Db, w: Write)
    requires ApplyWrite(db, w).Ok?
    ensures forall j: ItemId ::
      StockQty(ApplyWrite(db, w).value.moves, j) == StockQty(db.moves, j) + WriteDelta(w, j)
  {
    if w.NewStockMove? {
      forall j: ItemId {
        StockQtyAppend(db.moves, StockMove(w.move, db.clock), j);
      }
    }
  }

  /** With no injected fault, a sequence of `out` moves and other writes is
      staged in full exactly when the stock covers, for every item, the total
      it takes: the per-move guard is then never tripped part-way. */
  lemma {:induction false} StageSucceedsIffStockCovers(db: Db, ws: seq<Write>, pos: nat)
    requires OnlyOuts(ws)
    requires NonNegativeStock(db.moves)
    ensures Stage(db, ws, None, pos).Ok?
      <==> forall i: ItemId :: Demand(ws, i) <= StockQty(db.moves, i)
    decreases |ws|
  {
    if |ws| > 0 {
      var w := ws[0];
      assert OnlyOuts(ws[1..]) by {
        forall k | 0 <= k < |ws[1..]| && ws[1..][k].NewStockMove?
          ensures ws[1..][k].move.kind == Out
        {
          assert ws[1..][k] == ws[k + 1];
        }
      }
      assert w.NewStockMove? ==> w.move.kind == Out by {
        assert ws[0] == w;
      }
      match ApplyWrite(db, w)
      case Err(_) =>
        assert Demand(ws, w.move.item) > StockQty(db.moves, w.move.item);
      case Ok(db') =>
        ApplyWriteQty(db, w);
        assert NonNegativeStock(db'.moves) by {
          if w.NewStockMove? {
            CreateStockMoveKeepsStockNonNegative(db, w.move);
            assert CreateStockMove(db, w.move).db == db';
          }
        }
        StageSucceedsIffStockCovers(db', ws[1..], pos + 1);
        assert (forall i: ItemId :: Demand(ws, i) <= StockQty(db.moves, i))
          <==> (forall i: ItemId :: Demand(ws[1..], i) <= StockQty(db'.moves, i));
    }
  }

  /** A committed sequence never leaves a quantity below zero. */
  lemma {:induction false} StageKeepsStockNonNegative(db: Db, ws: seq<Write>, raisesAt: Option<nat>, pos: nat)
    requires NonNegativeStock(db.moves)
    requires Stage(db, ws, raisesAt, pos).Ok?
    ensures NonNegativeStock(Stage(db, ws, raisesAt, pos).value.moves)
    decreases |ws|
  {
    if |ws| > 0 {
      var db' := ApplyWrite(db, ws[0]).value;
      if ws[0].NewStockMove? {
        CreateStockMoveKeepsStockNonNegative(db, ws[0].move);
        assert CreateStockMove(db, ws[0].move).db == db';
      }
      StageKeepsStockNonNegative(db', ws[1..], raisesAt, pos + 1);
    }
  }

  lemma {:induction false} StageKeepsWellFormed(db: Db, ws: seq<Write>, raisesAt: Option<nat>, pos: nat)
    requires WellFormed(db)
    requires Stage(db, ws, raisesAt, pos).Ok?
    ensures WellFormed(Stage(db, ws, raisesAt, pos).value)
    decreases |ws|
  {
    if |ws| > 0 {
      var db' := ApplyWrite(db, ws[0]).value;
      ApplyWriteKeepsWellFormed(db, ws[0]);
      StageKeepsWellFormed(db', ws[1..], raisesAt, pos + 1);
    }
  }

  lemma ApplyWriteKeepsWellFormed(db: Db, w: Write)
    requires WellFormed(db)
    requires ApplyWrite(db, w).Ok?
    ensures WellFormed(ApplyWrite(db, w).value)
  {
    if w.NewStockMove? {
      assert ApplyWrite(db, w).value == CreateStockMove(db, w.move).db;
    }
  }

  /** A production record, committed or rolled back, keeps every quantity
      non-negative and the ledger well formed. */
  lemma RecordProductionKeepsInvariants(db: Db, req: Request, raisesAt: Option<nat>)
    requires NonNegativeStock(db.moves) && WellFormed(db)
    ensures NonNegativeStock(RecordProduction(db, req, raisesAt).db.moves)
    ensures WellFormed(RecordProduction(db, req, raisesAt).db)
  {
    if RecordProduction(db, req, raisesAt).result.Ok? {
      var ws := Plan(req, ParseDate(req.day).value, db.clock);
      StageKeepsStockNonNegative(db, ws, raisesAt, 0);
      StageKeepsWellFormed(db, ws, raisesAt, 0);
    }
  }

  lemma {:induction false} FeedLegsOnlyOuts(taskId: nat, item: ItemId, perTray: Kg, pallets: seq<Pallet>)
    ensures OnlyOuts(FeedLegs(taskId, item, perTray, pallets))
  {
    if |pallets| > 0 {
      FeedLegsOnlyOuts(taskId, item, perTray, pallets[1..]);
    }
  }

  lemma PlanOnlyOuts(req: Request, day: Date, taskId: nat)
    ensures OnlyOuts(Plan(req, day, taskId))
  {
    if Selected(req.feed1) {
      FeedLegsOnlyOuts(taskId, req.feed1.item.value, req.feed1.qtyPerTray, req.pallets);
    }
    if Selected(req.feed2) {
      FeedLegsOnlyOuts(taskId, req.feed2.item.value, req.feed2.qtyPerTray, req.pallets);
    }
  }

  /** Without an injected fault, a valid production record commits exactly
      when the stock of every feed covers what the record consumes. */
  lemma RecordProductionSucceedsIffStockCovers(db: Db, req: Request)
    requires ParseDate(req.day).Some?
    requires NonNegativeStock(db.moves)
    ensures RecordProduction(db, req, None).result.Ok?
      <==> forall i: ItemId ::
             Demand(Plan(req, ParseDate(req.day).value, db.clock), i) <= StockQty(db.moves, i)
  {
    var ws := Plan(req, ParseDate(req.day).value, db.clock);
    PlanOnlyOuts(req, ParseDate(req.day).value, db.clock);
    StageSucceedsIffStockCovers(db, ws, 0);
  }
}
