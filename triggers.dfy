/**
 * The stop-loss / take-profit trigger pass of the chart session, specified on
 * values. The pass visits a snapshot of the ledger; every condition that holds
 * calls closeOrder, whose lookup sees the snapshot while its credit and its
 * removal land on the live state. `PassCredit` and `FiredIds` give the total
 * credit and the removed ids after a prefix of the snapshot has been visited.
 */
module Triggers {
  import opened Wrappers
  import opened Ledger

  /** A buy's stop fires at or below its level, a sell's at or above; an unset level never fires. */
  predicate StopLossHit(o: Order, p: real) {
    match o.stopLoss
    case None => false
    case Some(sl) => (o.side == Buy && p <= sl) || (o.side == Sell && p >= sl)
  }

  /** A buy's take-profit fires at or above its level, a sell's at or below; an unset level never fires. */
  predicate TakeProfitHit(o: Order, p: real) {
    match o.takeProfit
    case None => false
    case Some(tp) => (o.side == Buy && p >= tp) || (o.side == Sell && p <= tp)
  }

  predicate Fires(o: Order, p: real) {
    StopLossHit(o, p) || TakeProfitHit(o, p)
  }

  /** How many times the pass calls closeOrder for `o`: once per condition that holds. */
  function Closes(o: Order, p: real): nat {
    (if StopLossHit(o, p) then 1 else 0) + (if TakeProfitHit(o, p) then 1 else 0)
  }

  /** The credit of closeOrder(id) when its lookup sees `view`; nothing when it finds no order. */
  function LookupCredit(view: seq<Order>, id: OrderId, p: real): real {
    match Find(view, id)
    case None => 0.0
    case Some(f) => CloseCredit(f, p)
  }

  /** What the pass credits while visiting `o`. */
  function OrderPassCredit(view: seq<Order>, o: Order, p: real): real {
    (if StopLossHit(o, p) then LookupCredit(view, o.id, p) else 0.0)
    + (if TakeProfitHit(o, p) then LookupCredit(view, o.id, p) else 0.0)
  }

  /** Total credited once the orders in `visited` have been visited. */
  function PassCredit(view: seq<Order>, visited: seq<Order>, p: real): real {
    if visited == [] then 0.0
    else PassCredit(view, visited[..|visited| - 1], p) + OrderPassCredit(view, visited[|visited| - 1], p)
  }

  /** Ids closed once the orders in `visited` have been visited. */
  function FiredIds(visited: seq<Order>, p: real): set<OrderId> {
    set o | o in visited && Fires(o, p) :: o.id
  }

  lemma FiredIdsStep(visited: seq<Order>, o: Order, p: real)
    ensures FiredIds(visited + [o], p) == FiredIds(visited, p) + (if Fires(o, p) then {o.id} else {})
  {
  }

  lemma PassCreditStep(view: seq<Order>, visited: seq<Order>, o: Order, p: real)
    ensures PassCredit(view, visited + [o], p) == PassCredit(view, visited, p) + OrderPassCredit(view, o, p)
  {
    assert (visited + [o])[..|visited|] == visited;
  }

  /** Before the pass visits anything it has credited and closed nothing. */
  lemma PassStart(snapshot: seq<Order>, p: real)
    ensures PassCredit(snapshot, snapshot[..0], p) == 0.0 && FiredIds(snapshot[..0], p) == {}
  {
    assert snapshot[..0] == [];
  }

  /** Visiting the order at index `i` of the snapshot adds its credit and, when it fires, its id. */
  lemma PassPrefixStep(snapshot: seq<Order>, i: nat, p: real)
    requires i < |snapshot|
    ensures PassCredit(snapshot, snapshot[..i + 1], p) ==
      PassCredit(snapshot, snapshot[..i], p) + OrderPassCredit(snapshot, snapshot[i], p)
    ensures FiredIds(snapshot[..i + 1], p) ==
      FiredIds(snapshot[..i], p) + (if Fires(snapshot[i], p) then {snapshot[i].id} else {})
  {
    assert snapshot[..i + 1] == snapshot[..i] + [snapshot[i]];
    FiredIdsStep(snapshot[..i], snapshot[i], p);
    PassCreditStep(snapshot, snapshot[..i], snapshot[i], p);
  }

  /**
   * With unique ids the snapshot lookup finds the visited order itself, so
   * `o` is credited its close value once for each condition that holds.
   */
  lemma OrderPassCreditUnique(view: seq<Order>, o: Order, p: real)
    requires UniqueIds(view) && o in view
    ensures OrderPassCredit(view, o, p) == (Closes(o, p) as real) * CloseCredit(o, p)
  {
    FindListed(view, o);
  }

  /**
   * An order meeting both its stop-loss and its take-profit condition is
   * credited twice by one pass and removed once.
   */
  lemma BothConditionsCreditTwice(o: Order, p: real)
    requires StopLossHit(o, p) && TakeProfitHit(o, p)
    ensures PassCredit([o], [o], p) == 2.0 * CloseCredit(o, p)
    ensures RemoveIds([o], FiredIds([o], p)) == []
  {
    assert [o][..0] == [];
    assert o.id in FiredIds([o], p);
  }

  /**
   * Both conditions can hold at one price only when the levels are crossed:
   * a buy's take-profit at or below its stop, a sell's at or above it; and then
   * every price between the two levels meets both.
   */
  lemma BothConditionsIffCrossedLevels(o: Order, p: real)
    requires o.stopLoss.Some? && o.takeProfit.Some?
    ensures StopLossHit(o, p) && TakeProfitHit(o, p) <==>
      if o.side == Buy then o.takeProfit.value <= p <= o.stopLoss.value
      else o.stopLoss.value <= p <= o.takeProfit.value
  {
  }

  /**
   * An order that a pass at `p0` left in the ledger does not have crossed
   * levels, so at no price does it meet both conditions.
   */
  lemma SurvivorNeverMeetsBoth(o: Order, p0: real, p: real)
    requires !Fires(o, p0)
    ensures !(StopLossHit(o, p) && TakeProfitHit(o, p))
  {
  }

  /**
   * Setting one level of an order that the last pass at `p` left in place
   * makes the next pass at `p` close it at most once.
   */
  lemma EditedSurvivorClosesOnce(o: Order, p: real, level: Level, v: real)
    requires !Fires(o, p)
    ensures Closes(SetLevel(o, level, v), p) <= 1
  {
  }

  /** A pass in which no order meets a condition credits nothing and removes nothing. */
  lemma QuietPass(s: seq<Order>, p: real)
    requires forall o :: o in s ==> !Fires(o, p)
    ensures FiredIds(s, p) == {} && PassCredit(s, s, p) == 0.0 && RemoveIds(s, FiredIds(s, p)) == s
  {
    PassCreditNoneFire(s, s, p);
    RemoveAbsentIds(s, {});
  }

  /**
   * After one pass with unique ids, an order is still in the ledger exactly
   * when neither of its conditions holds.
   */
  lemma PassRemovesExactlyFired(s: seq<Order>, p: real, o: Order)
    requires UniqueIds(s) && o in s
    ensures o in RemoveIds(s, FiredIds(s, p)) <==> !StopLossHit(o, p) && !TakeProfitHit(o, p)
  {
    if o.id in FiredIds(s, p) {
      var f :| f in s && Fires(f, p) && f.id == o.id;
      FindListed(s, o);
      FindListed(s, f);
    }
  }

  lemma {:induction false} PassCreditNoneFire(view: seq<Order>, visited: seq<Order>, p: real)
    requires forall o :: o in visited ==> !Fires(o, p)
    ensures PassCredit(view, visited, p) == 0.0
  {
    if visited != [] {
      var n := |visited| - 1;
      assert visited[n] in visited;
      assert forall o :: o in visited[..n] ==> o in visited;
      PassCreditNoneFire(view, visited[..n], p);
    }
  }

  /**
   * A second pass at the same price closes nothing and credits nothing: every
   * order the first pass left has no condition that holds.
   */
  lemma SecondPassInert(s: seq<Order>, p: real)
    ensures var r := RemoveIds(s, FiredIds(s, p));
      FiredIds(r, p) == {} && PassCredit(r, r, p) == 0.0
  {
    var r := RemoveIds(s, FiredIds(s, p));
    forall o | o in r ensures !Fires(o, p) {
      assert o in s && o.id !in FiredIds(s, p);
    }
    PassCreditNoneFire(r, r, p);
  }
}
