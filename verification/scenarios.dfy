/** The production integration scenarios: a fixture of two pallets holding
    10 and 8 trays and one feed item, seeded with a 100 kg `in` move. */
module Scenarios {
  import opened Outcomes
  import opened Calendar
  import opened Store
  import opened Ledger
  import opened Production

  /** The seed purchase of the rollback scenario. */
  function SeedPurchase(feed: ItemId): MovePayload
  {
    MovePayload(feed, In, 100.0, "purchase", "init", "seed")
  }

  /** A database holding only the seed move and no production rows. */
  predicate Seeded(db: Db, feed: ItemId)
  {
    |db.moves| == 1 && db.moves[0].payload == SeedPurchase(feed)
    && db.tasks == [] && db.feedEvents == [] && db.outputs == []
  }

  /** The form of the feeding task: 1 kg per tray of one feed for both
      pallets, no second feed, no frass or larvae totals. */
  function FeedingRequest(day: string, feed: ItemId, p1: nat, p2: nat): Request
  {
    Request(day, "Alimentación", "", 0, "", "",
            FeedSlot(Some(feed), 1.0), FeedSlot(None, 0.0),
            [Pallet(p1, 10), Pallet(p2, 8)], None, None)
  }

  lemma ParseImpossibleDay()
    ensures ParseDate("2026-02-31") == None
  {
    var s := "2026-02-31";
    assert FullDateShape(s);
    assert s[..4] == "2026";
    assert s[5..7] == "02" by { assert s[5] == '0' && s[6] == '2'; }
    assert s[8..] == "31" by { assert s[8] == '3' && s[9] == '1'; }
    assert DigitsValue("02") == 2;
    assert DigitsValue("31") == 31;
    assert !ValidDate(Fields(s));
  }

  lemma ParseFeedingDay()
    ensures ParseDate("2026-02-10") == Some(Date(2026, 2, 10))
  {
    var d := Date(2026, 2, 10);
    ParseFormatRoundTrip(d);
    assert Digits(2026, 4) == "2026";
    assert Digits(2, 2) == "02";
    assert Digits(10, 2) == "10";
    assert FormatDate(d) == "2026-02-10";
  }

  /** 2026-02-31 is refused before any write, whatever would have failed
      later: the state is untouched and the redirect carries the
      invalid-date message. */
  lemma InvalidDayWritesNothing(db: Db, req: Request, raisesAt: Option<nat>)
    requires req.day == "2026-02-31"
    ensures RecordProduction(db, req, raisesAt) == Reply(db, Err(InvalidDate))
    ensures RecordProduction(db, req, raisesAt).db.tasks == db.tasks
    ensures Message(RecordProduction(db, req, raisesAt).result.error) == "Fecha inválida"
  {
    ParseImpossibleDay();
  }

  lemma FeedingPlan(day: string, t: nat, feed: ItemId, p1: nat, p2: nat)
    ensures Plan(FeedingRequest(day, feed, p1, p2), Date(2026, 2, 10), t)
      == FeedingWrites(t, feed, p1, p2)
  {
    var pallets := [Pallet(p1, 10), Pallet(p2, 8)];
    assert pallets[1..] == [Pallet(p2, 8)];
    assert [Pallet(p2, 8)][1..] == [];
    assert PalletIds([Pallet(p2, 8)]) == [p2];
    assert PalletIds(pallets) == [p1, p2];
    assert FeedLegs(t, feed, 1.0, [Pallet(p2, 8)])
      == [ NewFeedEvent(FeedEvent(t, p2, feed, 8.0)),
           NewStockMove(MovePayload(feed, Out, 8.0, "production", DecimalString(t), "")) ];
    assert FeedLegs(t, feed, 1.0, pallets)
      == [ NewFeedEvent(FeedEvent(t, p1, feed, 10.0)),
           NewStockMove(MovePayload(feed, Out, 10.0, "production", DecimalString(t), "")) ]
         + FeedLegs(t, feed, 1.0, [Pallet(p2, 8)]);
  }

  /** Counts the stock moves of a five-write sequence shaped like the
      feeding plan: task, then feed event and `out` move per pallet. */
  lemma MovesOfFive(ws: seq<Write>)
    requires |ws| == 5
    requires ws[0].NewTask? && ws[1].NewFeedEvent? && ws[2].NewStockMove?
    requires ws[3].NewFeedEvent? && ws[4].NewStockMove?
    ensures MovesOf(ws) == [ws[2].move, ws[4].move]
    ensures MovesOf(ws[..4]) == [ws[2].move]
  {
    assert ws[4..][1..] == [] && ws[4..][0] == ws[4];
    assert MovesOf(ws[4..]) == [ws[4].move];
    assert ws[3..][1..] == ws[4..] && ws[3..][0] == ws[3];
    assert MovesOf(ws[3..]) == [ws[4].move];
    assert ws[2..][1..] == ws[3..] && ws[2..][0] == ws[2];
    assert MovesOf(ws[2..]) == [ws[2].move, ws[4].move];
    assert ws[1..][1..] == ws[2..] && ws[1..][0] == ws[1];
    assert MovesOf(ws[1..]) == [ws[2].move, ws[4].move];
    var q := ws[..4];
    assert q[3..][1..] == [] && q[3..][0] == ws[3];
    assert MovesOf(q[3..]) == [];
    assert q[2..][1..] == q[3..] && q[2..][0] == ws[2];
    assert MovesOf(q[2..]) == [ws[2].move];
    assert q[1..][1..] == q[2..] && q[1..][0] == ws[1];
    assert MovesOf(q[1..]) == [ws[2].move];
    assert q[0] == ws[0];
  }

  lemma FailureMessage(cause: Error)
    ensures IsPrefix("PRO falló", Message(ProductionFailed(cause)))
  {
    assert Message(ProductionFailed(cause)) == "PRO falló: " + Message(cause);
  }

  /** The feeding record of a day that reads as 2026-02-10, with its
      second stock-move write raising. */
  lemma FaultAtSecondMove(db: Db, day: string, feed: ItemId, p1: nat, p2: nat)
    requires Seeded(db, feed)
    requires ParseDate(day) == Some(Date(2026, 2, 10))
    ensures
      var plan := Plan(FeedingRequest(day, feed, p1, p2), Date(2026, 2, 10), db.clock);
      |plan| == 5 && |MovesOf(plan)| >= 2 && |MovesOf(plan[..4])| == 1 && plan[4].NewStockMove?
    ensures
      var r := RecordProduction(db, FeedingRequest(day, feed, p1, p2), Some(4));
      && r.result.Err?
      && IsPrefix("PRO falló", Message(r.result.error))
      && |r.db.tasks| == 0 && |r.db.feedEvents| == 0
      && r.db.moves == db.moves
      && |r.db.moves| == 1 && r.db.moves[0].payload == SeedPurchase(feed)
  {
    var req := FeedingRequest(day, feed, p1, p2);
    FeedingPlan(day, db.clock, feed, p1, p2);
    var plan := Plan(req, Date(2026, 2, 10), db.clock);
    assert plan[..4] == [plan[0], plan[1], plan[2], plan[3]];
    MovesOfFive(plan);
    FaultRollsBack(db, req, 4);
    var r := RecordProduction(db, req, Some(4));
    FailureMessage(r.result.error.cause);
  }

  /** The second stock-move write of the feeding record raises: the outcome
      is an error naming the failed record, and the task, the feed events
      and the first `out` leg are all gone; only the seed move remains. */
  lemma SecondStockMoveFailureRollsBack(db: Db, feed: ItemId, p1: nat, p2: nat)
    requires Seeded(db, feed)
    ensures
      var plan := Plan(FeedingRequest("2026-02-10", feed, p1, p2), Date(2026, 2, 10), db.clock);
      |plan| == 5 && |MovesOf(plan)| >= 2 && |MovesOf(plan[..4])| == 1 && plan[4].NewStockMove?
    ensures
      var r := RecordProduction(db, FeedingRequest("2026-02-10", feed, p1, p2), Some(4));
      && r.result.Err?
      && IsPrefix("PRO falló", Message(r.result.error))
      && |r.db.tasks| == 0 && |r.db.feedEvents| == 0
      && r.db.moves == db.moves
      && |r.db.moves| == 1 && r.db.moves[0].payload == SeedPurchase(feed)
  {
    ParseFeedingDay();
    FaultAtSecondMove(db, "2026-02-10", feed, p1, p2);
  }

  function FeedOut(feed: ItemId, t: nat, qty: Kg): MovePayload
  {
    MovePayload(feed, Out, qty, "production", DecimalString(t), "")
  }

  /** The literal writes of the feeding record, as `FeedingPlan` computes them. */
  function FeedingWrites(t: nat, feed: ItemId, p1: nat, p2: nat): seq<Write>
  {
    [ NewTask(Task(t, Date(2026, 2, 10), "Alimentación", "", 0, "", "", [p1, p2])),
      NewFeedEvent(FeedEvent(t, p1, feed, 10.0)),
      NewStockMove(FeedOut(feed, t, 10.0)),
      NewFeedEvent(FeedEvent(t, p2, feed, 8.0)),
      NewStockMove(FeedOut(feed, t, 8.0)) ]
  }

  /** What the feeding writes add to each table, and what they take. */
  lemma FeedingWritesEffects(t: nat, feed: ItemId, p1: nat, p2: nat)
    ensures |TasksOf(FeedingWrites(t, feed, p1, p2))| == 1
    ensures FeedEventsOf(FeedingWrites(t, feed, p1, p2))
      == [FeedEvent(t, p1, feed, 10.0), FeedEvent(t, p2, feed, 8.0)]
    ensures MovesOf(FeedingWrites(t, feed, p1, p2)) == [FeedOut(feed, t, 10.0), FeedOut(feed, t, 8.0)]
    ensures forall i: ItemId :: Demand(FeedingWrites(t, feed, p1, p2), i) == if i == feed then 18.0 else 0.0
  {
    var ws := FeedingWrites(t, feed, p1, p2);
    assert ws[4..][1..] == [] && ws[4..][0] == ws[4];
    assert ws[3..][1..] == ws[4..] && ws[3..][0] == ws[3];
    assert ws[2..][1..] == ws[3..] && ws[2..][0] == ws[2];
    assert ws[1..][1..] == ws[2..] && ws[1..][0] == ws[1];
    assert TasksOf(ws[1..]) == [] by {
      assert TasksOf(ws[4..]) == [];
      assert TasksOf(ws[3..]) == [];
      assert TasksOf(ws[2..]) == [];
    }
    assert FeedEventsOf(ws[2..]) == [FeedEvent(t, p2, feed, 8.0)] by {
      assert FeedEventsOf(ws[4..]) == [];
    }
    assert MovesOf(ws[2..]) == [FeedOut(feed, t, 10.0), FeedOut(feed, t, 8.0)] by {
      assert MovesOf(ws[4..]) == [FeedOut(feed, t, 8.0)];
    }
    forall i: ItemId
      ensures Demand(ws, i) == if i == feed then 18.0 else 0.0
    {
      assert Demand(ws[4..], i) == if i == feed then 8.0 else 0.0;
      assert Demand(ws[2..], i) == if i == feed then 18.0 else 0.0;
    }
  }

  lemma TwoPayloads(tail: seq<StockMove>, a: MovePayload, b: MovePayload)
    requires Payloads(tail) == [a, b]
    ensures |tail| == 2 && tail[0].payload == a && tail[1].payload == b
  {
    assert |tail| > 0;
    assert [tail[0].payload] + Payloads(tail[1..]) == [a, b];
    assert Payloads(tail[1..]) == [a, b][1..] == [b];
    assert |tail[1..]| > 0 && tail[1..][0] == tail[1];
    assert |tail[1..][1..]| == |Payloads(tail[1..][1..])| == 0 by {
      PayloadsLength(tail[1..][1..]);
    }
  }

  lemma {:induction false} PayloadsLength(ms: seq<StockMove>)
    ensures |Payloads(ms)| == |ms|
  {
    if |ms| > 0 {
      PayloadsLength(ms[1..]);
    }
  }

  /** The seeded ledger holds 100 kg of the feed and nothing below zero. */
  lemma SeededStock(db: Db, feed: ItemId)
    requires Seeded(db, feed)
    ensures StockQty(db.moves, feed) == 100.0
    ensures NonNegativeStock(db.moves)
  {
    assert db.moves == [] + [db.moves[0]];
    forall i: ItemId
      ensures StockQty(db.moves, i) == if i == feed then 100.0 else 0.0
    {
      StockQtyAppend([], db.moves[0], i);
    }
  }

  /** The feeding record of a day that reads as 2026-02-10 commits in full:
      the stock covers its 18 kg. */
  lemma FeedingCommitsAll(db: Db, day: string, feed: ItemId, p1: nat, p2: nat)
    requires Seeded(db, feed)
    requires ParseDate(day) == Some(Date(2026, 2, 10))
    ensures
      var r := RecordProduction(db, FeedingRequest(day, feed, p1, p2), None);
      r.result.Ok? && AllWritten(db, r.db, FeedingWrites(db.clock, feed, p1, p2))
  {
    var req := FeedingRequest(day, feed, p1, p2);
    FeedingPlan(day, db.clock, feed, p1, p2);
    FeedingWritesEffects(db.clock, feed, p1, p2);
    SeededStock(db, feed);
    RecordProductionSucceedsIffStockCovers(db, req);
  }

  /** Two `out` moves of 10 and 8 kg after the 100 kg seed leave 82 kg. */
  lemma FeedLeft(db: Db, after: Db, feed: ItemId, p1: nat, p2: nat)
    requires Seeded(db, feed)
    requires AllWritten(db, after, FeedingWrites(db.clock, feed, p1, p2))
    ensures |after.moves| == 3
    ensures StockQty(after.moves, feed) == 82.0
  {
    var t := db.clock;
    FeedingWritesEffects(t, feed, p1, p2);
    SeededStock(db, feed);
    var tail := after.moves[1..];
    TwoPayloads(tail, FeedOut(feed, t, 10.0), FeedOut(feed, t, 8.0));
    assert after.moves == db.moves + [tail[0]] + [tail[1]];
    StockQtyAppend(db.moves, tail[0], feed);
    StockQtyAppend(db.moves + [tail[0]], tail[1], feed);
  }

  /** Without a fault the same record commits: one task, feed events of 10
      and 8 kg, two `out` moves, and 82 kg of feed left. */
  lemma FeedingRecordCommits(db: Db, feed: ItemId, p1: nat, p2: nat)
    requires Seeded(db, feed)
    ensures
      var r := RecordProduction(db, FeedingRequest("2026-02-10", feed, p1, p2), None);
      && r.result.Ok?
      && |r.db.tasks| == 1
      && r.db.feedEvents == [FeedEvent(db.clock, p1, feed, 10.0), FeedEvent(db.clock, p2, feed, 8.0)]
      && |r.db.moves| == 3
      && StockQty(r.db.moves, feed) == 82.0
  {
    ParseFeedingDay();
    FeedingCommitsAll(db, "2026-02-10", feed, p1, p2);
    FeedingWritesEffects(db.clock, feed, p1, p2);
    var r := RecordProduction(db, FeedingRequest("2026-02-10", feed, p1, p2), None);
    FeedLeft(db, r.db, feed, p1, p2);
  }
}
