/** The cost-lot ledger: each product owns a sequence of lots (batches) in creation order,
    and a sale line or a loss draws its quantity from the oldest lots that still hold stock,
    costing what it takes at each lot's own unit cost. Whatever the lots cannot cover is
    costed at the product's reference cost instead of failing. */
module Fifo {
  import opened Outcomes

  /** A batch of received stock. `current` is what is left of `initial`. */
  datatype Lot = Lot(initial: int, current: int, cost: int, provider: Option<string>)

  /** The invariant every lot the core creates keeps: `0 <= current <= initial`. */
  predicate ValidLot(l: Lot)
  {
    0 <= l.current <= l.initial
  }

  predicate ValidLots(lots: seq<Lot>)
  {
    forall i :: 0 <= i < |lots| ==> ValidLot(lots[i])
  }

  function Min(a: int, b: int): int
  {
    if a <= b then a else b
  }

  function Pos(x: int): nat
  {
    if x > 0 then x else 0
  }

  /** Units still available in the lots the allocator may draw from (`current > 0`). */
  function Available(lots: seq<Lot>): nat
  {
    if |lots| == 0 then 0 else Pos(lots[0].current) + Available(lots[1..])
  }

  /** Units drawn, lot by lot, between two versions of the same lot sequence. */
  function Drawn(before: seq<Lot>, after: seq<Lot>): int
    requires |before| == |after|
  {
    if |before| == 0 then 0
    else (before[0].current - after[0].current) + Drawn(before[1..], after[1..])
  }

  /** Cost of the units drawn, each at the unit cost of the lot it came from. */
  function DrawnCost(before: seq<Lot>, after: seq<Lot>): int
    requires |before| == |after|
  {
    if |before| == 0 then 0
    else (before[0].current - after[0].current) * before[0].cost + DrawnCost(before[1..], after[1..])
  }

  /** Only `current` may differ between the two versions of a lot. */
  predicate SameLotBut(before: Lot, after: Lot)
  {
    after == before.(current := after.current)
  }

  /** How one lot may change under the allocator: only `current` moves, an empty lot is left
      alone, and a lot with stock ends between 0 and what it held. */
  predicate Drains(before: Lot, after: Lot)
  {
    && SameLotBut(before, after)
    && (before.current <= 0 ==> after == before)
    && (before.current > 0 ==> 0 <= after.current <= before.current)
  }

  /** The result of walking the lots: the updated lots, the exact cost of what they covered and
      the quantity still to cost (`remaining`). */
  datatype Consumption = Consumption(lots: seq<Lot>, exactCost: int, remaining: int)

  /** The allocation loop shared by sales and losses: lots are visited oldest first, lots with
      nothing left are not among those fetched, the walk stops as soon as nothing remains to
      deduct, and each visited lot gives `min(remaining, current)`. */
  function Consume(lots: seq<Lot>, need: int): (c: Consumption)
    ensures |c.lots| == |lots|
    ensures forall i :: 0 <= i < |lots| ==> Drains(lots[i], c.lots[i])
    ensures need <= 0 ==> c == Consumption(lots, 0, need)
    ensures need > 0 ==> 0 <= c.remaining <= need
    ensures c.remaining > 0 ==> forall i :: 0 <= i < |lots| ==> c.lots[i].current <= 0
  {
    if |lots| == 0 then Consumption([], 0, need)
    else if lots[0].current <= 0 then
      var rest := Consume(lots[1..], need);
      Consumption([lots[0]] + rest.lots, rest.exactCost, rest.remaining)
    else if need <= 0 then Consumption(lots, 0, need)
    else
      var take := Min(need, lots[0].current);
      var rest := Consume(lots[1..], need - take);
      Consumption([lots[0].(current := lots[0].current - take)] + rest.lots,
                  take * lots[0].cost + rest.exactCost, rest.remaining)
  }

  lemma DrawnSelf(lots: seq<Lot>)
    ensures Drawn(lots, lots) == 0 && DrawnCost(lots, lots) == 0
  {
  }

  /** The lots drop by exactly the quantity that was not left over. */
  lemma {:induction false} ConsumeDrawn(lots: seq<Lot>, need: int)
    ensures var c := Consume(lots, need); need > 0 ==> Drawn(lots, c.lots) == need - c.remaining
    decreases |lots|
  {
    if |lots| > 0 && need > 0 {
      var need' := if lots[0].current <= 0 then need else need - Min(need, lots[0].current);
      var c := Consume(lots, need);
      var rest := Consume(lots[1..], need');
      assert c.lots[1..] == rest.lots;
      if need' > 0 {
        ConsumeDrawn(lots[1..], need');
      } else {
        DrawnSelf(lots[1..]);
      }
    }
  }

  lemma MulCongruence(a: int, b: int, k: int)
    requires a == b
    ensures a * k == b * k
  {
  }

  /** The exact cost is what the drawn units cost at their own lots' prices. */
  lemma {:induction false} ConsumeCost(lots: seq<Lot>, need: int)
    ensures var c := Consume(lots, need); c.exactCost == DrawnCost(lots, c.lots)
    decreases |lots|, 1
  {
    if |lots| > 0 {
      if lots[0].current <= 0 {
        ConsumeCostSkip(lots, need);
      } else if need <= 0 {
        DrawnSelf(lots);
      } else {
        ConsumeCostTake(lots, need);
      }
    }
  }

  lemma {:induction false} ConsumeCostSkip(lots: seq<Lot>, need: int)
    requires |lots| > 0 && lots[0].current <= 0
    ensures var c := Consume(lots, need); c.exactCost == DrawnCost(lots, c.lots)
    decreases |lots|, 0
  {
    var c := Consume(lots, need);
    var rest := Consume(lots[1..], need);
    assert c.lots[0] == lots[0] && c.lots[1..] == rest.lots;
    ConsumeCost(lots[1..], need);
  }

  lemma {:induction false} ConsumeCostTake(lots: seq<Lot>, need: int)
    requires |lots| > 0 && lots[0].current > 0 && need > 0
    ensures var c := Consume(lots, need); c.exactCost == DrawnCost(lots, c.lots)
    decreases |lots|, 0
  {
    var c := Consume(lots, need);
    var take := Min(need, lots[0].current);
    var rest := Consume(lots[1..], need - take);
    assert c.lots[1..] == rest.lots;
    assert c.exactCost == take * lots[0].cost + rest.exactCost;
    MulCongruence(lots[0].current - c.lots[0].current, take, lots[0].cost);
    ConsumeCost(lots[1..], need - take);
  }

  /** Cost of one line: the exact part from the lots plus the uncovered remainder at the
      product's reference cost. */
  datatype LineCost = LineCost(lots: seq<Lot>, cogs: int, exactCost: int, fallbackCost: int)

  function CostLine(lots: seq<Lot>, need: int, referenceCost: int): (r: LineCost)
    ensures r.cogs == r.exactCost + r.fallbackCost
    ensures |r.lots| == |lots| && r.exactCost == DrawnCost(lots, r.lots)
    ensures forall i :: 0 <= i < |lots| ==> Drains(lots[i], r.lots[i])
    ensures need > 0 ==> r.fallbackCost == (need - Drawn(lots, r.lots)) * referenceCost
    ensures need <= 0 ==> r == LineCost(lots, 0, 0, 0)
    ensures ValidLots(lots) ==> ValidLots(r.lots)
  {
    var c := Consume(lots, need);
    ConsumeCost(lots, need);
    ConsumeDrawn(lots, need);
    var fallback := if c.remaining > 0 then c.remaining * referenceCost else 0;
    LineCost(c.lots, c.exactCost + fallback, c.exactCost, fallback)
  }

  // ---- an independent description of the allocation ----

  /** Units available in the lots strictly before index `i`. */
  function AvailableBefore(lots: seq<Lot>, i: nat): nat
    requires i <= |lots|
  {
    if i == 0 then 0 else AvailableBefore(lots, i - 1) + Pos(lots[i - 1].current)
  }

  /** What lot `i` must give under oldest-first allocation of `need` units: what it holds, but
      no more than what the earlier lots leave uncovered. */
  function TakeAt(lots: seq<Lot>, need: int, i: nat): nat
    requires i < |lots|
  {
    Min(Pos(lots[i].current), Pos(need - AvailableBefore(lots, i)))
  }

  lemma AvailableBeforeShift(lots: seq<Lot>, i: nat)
    requires 0 < |lots| && i < |lots|
    ensures AvailableBefore(lots, i + 1) == Pos(lots[0].current) + AvailableBefore(lots[1..], i)
  {
    if i > 0 {
      AvailableBeforeShift(lots, i - 1);
    }
  }

  /** The recursive allocator draws from every lot exactly what `TakeAt` prescribes. */
  lemma {:induction false} ConsumeMatchesTakeAt(lots: seq<Lot>, need: int)
    ensures var c := Consume(lots, need);
      forall i :: 0 <= i < |lots| ==> lots[i].current - c.lots[i].current == TakeAt(lots, need, i)
    decreases |lots|, 1
  {
    if |lots| > 0 {
      if lots[0].current > 0 && need <= 0 {
        var c := Consume(lots, need);
        forall i | 0 <= i < |lots|
          ensures lots[i].current - c.lots[i].current == TakeAt(lots, need, i)
        {
          assert Pos(need - AvailableBefore(lots, i)) == 0;
        }
      } else {
        ConsumeMatchesTakeAtStep(lots, need);
      }
    }
  }

  /** After the first lot gives `TakeAt(lots, need, 0)`, the rest of the allocation is the
      allocation of what is left over the remaining lots. */
  lemma TakeAtShift(lots: seq<Lot>, need: int, i: nat)
    requires 0 < i < |lots|
    ensures TakeAt(lots[1..], need - TakeAt(lots, need, 0), i - 1) == TakeAt(lots, need, i)
  {
    AvailableBeforeShift(lots, i - 1);
    assert lots[1..][i - 1] == lots[i];
  }

  lemma {:induction false} ConsumeMatchesTakeAtStep(lots: seq<Lot>, need: int)
    requires |lots| > 0 && !(lots[0].current > 0 && need <= 0)
    ensures var c := Consume(lots, need);
      forall i :: 0 <= i < |lots| ==> lots[i].current - c.lots[i].current == TakeAt(lots, need, i)
    decreases |lots|, 0
  {
    var c := Consume(lots, need);
    var need' := need - TakeAt(lots, need, 0);
    assert need' == if lots[0].current <= 0 then need else need - Min(need, lots[0].current);
    ConsumeMatchesTakeAt(lots[1..], need');
    var rest := Consume(lots[1..], need');
    assert c.lots[1..] == rest.lots;
    forall i | 1 <= i < |lots|
      ensures lots[i].current - c.lots[i].current == TakeAt(lots, need, i)
    {
      assert c.lots[i] == rest.lots[i - 1];
      TakeAtShift(lots, need, i);
    }
  }

  /** Units drawn never exceed what is available, and they are all of it when the line asks
      for more: the lots drop by exactly `min(need, Available(lots))`. */
  lemma {:induction false} DrawnIsMinOfNeedAndAvailable(lots: seq<Lot>, need: int)
    requires need > 0
    ensures Drawn(lots, Consume(lots, need).lots) == Min(need, Available(lots))
    decreases |lots|
  {
    if |lots| > 0 {
      if lots[0].current <= 0 {
        DrawnIsMinOfNeedAndAvailable(lots[1..], need);
        assert Consume(lots, need).lots[1..] == Consume(lots[1..], need).lots;
      } else {
        var take := Min(need, lots[0].current);
        if need - take > 0 {
          DrawnIsMinOfNeedAndAvailable(lots[1..], need - take);
        } else {
          DrawnSelf(lots[1..]);
        }
        assert Consume(lots, need).lots[1..] == Consume(lots[1..], need - take).lots;
      }
    }
  }

  lemma {:induction false} AvailableBeforeMonotone(lots: seq<Lot>, i: nat, j: nat)
    requires i <= j <= |lots|
    ensures AvailableBefore(lots, i) <= AvailableBefore(lots, j)
    decreases j
  {
    if i < j {
      AvailableBeforeMonotone(lots, i, j - 1);
    }
  }

  /** Oldest first: a later lot is touched only once every earlier lot is exhausted. */
  lemma ConsumeTouchesOnlyAPrefix(lots: seq<Lot>, need: int)
    ensures var c := Consume(lots, need);
      forall i, j :: 0 <= i < j < |lots| && c.lots[j] != lots[j] ==> c.lots[i].current <= 0
  {
    var c := Consume(lots, need);
    ConsumeMatchesTakeAt(lots, need);
    forall i, j | 0 <= i < j < |lots| && c.lots[j] != lots[j]
      ensures c.lots[i].current <= 0
    {
      TouchedLotTakes(lots[j], c.lots[j]);
      TakeAtPrefix(lots, need, i, j);
    }
  }

  /** A draining lot that changed gave something. */
  lemma TouchedLotTakes(before: Lot, after: Lot)
    requires Drains(before, after) && after != before
    ensures before.current - after.current > 0
  {
  }

  /** When lot `j` must give something, every earlier lot gives all it holds. */
  lemma TakeAtPrefix(lots: seq<Lot>, need: int, i: nat, j: nat)
    requires i < j < |lots| && TakeAt(lots, need, j) > 0
    ensures TakeAt(lots, need, i) == Pos(lots[i].current)
  {
    AvailableBeforeMonotone(lots, i + 1, j);
  }

  // ---- what the lots hold afterwards ----

  /** Draining lot by lot lowers what is available by exactly what was drawn. */
  lemma {:induction false} AvailableAfterDrain(before: seq<Lot>, after: seq<Lot>)
    requires |before| == |after|
    requires forall i :: 0 <= i < |before| ==> Drains(before[i], after[i])
    ensures Available(after) == Available(before) - Drawn(before, after)
    decreases |before|
  {
    if |before| > 0 {
      assert Drains(before[0], after[0]);
      AvailableAfterDrain(before[1..], after[1..]);
    }
  }

  /** Draining never puts units back. */
  lemma {:induction false} DrawnNonNegative(before: seq<Lot>, after: seq<Lot>)
    requires |before| == |after|
    requires forall i :: 0 <= i < |before| ==> Drains(before[i], after[i])
    ensures Drawn(before, after) >= 0
    decreases |before|
  {
    if |before| > 0 {
      assert Drains(before[0], after[0]);
      DrawnNonNegative(before[1..], after[1..]);
    }
  }

  /** Nothing drawn from draining lots means no lot changed. */
  lemma {:induction false} NothingDrawnNothingChanged(before: seq<Lot>, after: seq<Lot>)
    requires |before| == |after|
    requires forall i :: 0 <= i < |before| ==> Drains(before[i], after[i])
    requires Drawn(before, after) == 0
    ensures after == before
    decreases |before|
  {
    if |before| > 0 {
      assert Drains(before[0], after[0]);
      DrawnNonNegative(before[1..], after[1..]);
      NothingDrawnNothingChanged(before[1..], after[1..]);
      assert after == [after[0]] + after[1..];
    }
  }

  /** A new lot at the end adds what it holds to what is available. */
  lemma {:induction false} AvailableAppend(lots: seq<Lot>, l: Lot)
    ensures Available(lots + [l]) == Available(lots) + Pos(l.current)
    decreases |lots|
  {
    if |lots| == 0 {
      assert [l][1..] == [];
    } else {
      assert (lots + [l])[1..] == lots[1..] + [l];
      AvailableAppend(lots[1..], l);
    }
  }

  /** When no lot holds stock the whole line is costed at the reference cost and no lot is
      modified; in particular this is the case for a product without lots. */
  lemma CostLineWithoutStock(lots: seq<Lot>, need: int, referenceCost: int)
    requires Available(lots) == 0 && need > 0
    ensures CostLine(lots, need, referenceCost) == LineCost(lots, need * referenceCost, 0, need * referenceCost)
  {
    var c := Consume(lots, need);
    DrawnIsMinOfNeedAndAvailable(lots, need);
    NothingDrawnNothingChanged(lots, c.lots);
    DrawnSelf(lots);
  }

  // ---- worked examples ----

  /** Two lots (5 at 10, then 5 at 20); 7 units cost 5*10 + 2*20 and leave the lots at 0 and 3. */
  lemma TwoLotExample()
    ensures var l := CostLine([Lot(5, 5, 10, None), Lot(5, 5, 20, None)], 7, 99);
      l.cogs == 90 && l.fallbackCost == 0 && l.lots[0].current == 0 && l.lots[1].current == 3
  {
  }

  /** No lots: 4 units at reference cost 15 cost 60 and no lot changes. */
  lemma NoLotExample()
    ensures CostLine([], 4, 15) == LineCost([], 60, 0, 60)
  {
  }
}
