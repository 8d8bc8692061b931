/** The lifecycle of orders in the order management system. */
module OmsState {
  import opened Book

  datatype Stage =
    | Created | PendingValidation | Validated | Accepted | Queued | PartFilled | FullyFilled
    | Withdrawn | Expired | Declined | Failed | Archived

  /** An order as its owner sees it. */
  datatype OmsOrder = OmsOrder(
    id: string, user: string, side: Side, otype: OrderType, price: real, stopPrice: real,
    qty: real, filled: real, tif: TimeInForce, postOnly: bool, stage: Stage)

  predicate Final(s: Stage) {
    s.FullyFilled? || s.Withdrawn? || s.Declined? || s.Expired? || s.Failed? || s.Archived?
  }

  /** Is the move from `prev` to `next` allowed? */
  predicate CanMove(prev: Stage, next: Stage) {
    prev == next ||
    (!Final(prev) &&
     match next
     case PendingValidation => prev == Created
     case Validated => prev == PendingValidation
     case Accepted => prev == Validated
     case Queued => prev == Accepted
     case PartFilled => prev == Queued || prev == Accepted
     case FullyFilled => prev == Queued || prev == Accepted || prev == PartFilled
     case Withdrawn => prev != Created
     case _ => true)
  }

  /** The way to the queue: each stage is entered from the one before it alone; fills come to queued or
      accepted orders, a withdrawal to any but a new one, and nothing to a final one. */
  lemma EnteredFrom(prev: Stage, next: Stage)
    requires prev != next
    ensures next == PendingValidation ==> (CanMove(prev, next) <==> prev == Created)
    ensures next == Validated ==> (CanMove(prev, next) <==> prev == PendingValidation)
    ensures next == Accepted ==> (CanMove(prev, next) <==> prev == Validated)
    ensures next == Queued ==> (CanMove(prev, next) <==> prev == Accepted)
    ensures next == PartFilled ==> (CanMove(prev, next) <==> prev in {Queued, Accepted})
    ensures next == FullyFilled ==> (CanMove(prev, next) <==> prev in {Queued, Accepted, PartFilled})
    ensures next == Withdrawn ==> (CanMove(prev, next) <==> prev in {PendingValidation, Validated, Accepted, Queued, PartFilled})
    ensures next in {Created, Expired, Declined, Failed, Archived} ==>
      (CanMove(prev, next) <==> prev in {Created, PendingValidation, Validated, Accepted, Queued, PartFilled})
  {}

  type Register = map<string, OmsOrder>

  /** An attempted move; a move that is not allowed changes nothing. */
  function Move(orders: Register, id: string, next: Stage): Register {
    if id in orders && CanMove(orders[id].stage, next) then orders[id := orders[id].(stage := next)] else orders
  }

  function MoveAll(orders: Register, moves: seq<(string, Stage)>): Register
    decreases |moves|
  {
    if moves == [] then orders else MoveAll(Move(orders, moves[0].0, moves[0].1), moves[1..])
  }

  /** How far an order is on its way to the queue and its fills. */
  function Progress(s: Stage): int {
    match s
    case Created => 0 case PendingValidation => 1 case Validated => 2 case Accepted => 3
    case Queued => 4 case PartFilled => 5 case _ => 6
  }

  /** An allowed move goes back exactly when it is a move to the created stage, which no rule forbids. */
  lemma GoesBackIff(prev: Stage, next: Stage)
    requires CanMove(prev, next)
    ensures Progress(next) < Progress(prev) <==> next.Created? && !prev.Created?
  {}

  /** Whatever moves are attempted on whatever orders, short of a move to the created stage, an order
      never goes back; it keeps everything but its stage, and once final it never moves again. */
  lemma {:induction false} NeverGoesBack(orders: Register, moves: seq<(string, Stage)>, id: string)
    requires id in orders
    ensures
      var after := MoveAll(orders, moves);
      id in after && after[id] == orders[id].(stage := after[id].stage) &&
      ((forall i :: 0 <= i < |moves| ==> !moves[i].1.Created?) ==> Progress(orders[id].stage) <= Progress(after[id].stage)) &&
      (Final(orders[id].stage) ==> after[id] == orders[id])
    decreases |moves|
  {
    if moves != [] { NeverGoesBack(Move(orders, moves[0].0, moves[0].1), moves[1..], id); }
  }

  datatype Audit = Audit(id: string, prev: Stage, next: Stage, applied: bool)

  class OMSStateMachine {
    var activeOrders: Register
    var auditLogs: seq<Audit>

    constructor ()
      ensures activeOrders == map[] && auditLogs == []
    {
      activeOrders, auditLogs := map[], [];
    }

    /** Enter an order; `unstored` says that the database insert fails.  The failure ends the request
        with the order entered in memory and not audited. */
    method SubmitOrder(order: OmsOrder, unstored: bool) returns (ok: bool)
      modifies this`activeOrders, this`auditLogs
      ensures ok <==> !unstored
      ensures activeOrders == old(activeOrders)[order.id := order.(stage := Created)]
      ensures auditLogs == if unstored then old(auditLogs) else old(auditLogs) + [Audit(order.id, Created, Created, true)]
    {
      activeOrders := activeOrders[order.id := order.(stage := Created)];
      ok := !unstored;
      if unstored { return; }
      auditLogs := auditLogs + [Audit(order.id, Created, Created, true)];
    }

    /** Try to move an order; `unstored` says that the database update fails.  The order has moved in
        memory by then, so a failed update is reported, and not audited, but not undone. */
    method TransitionOrder(id: string, next: Stage, unstored: bool) returns (ok: bool)
      modifies this`activeOrders, this`auditLogs
      ensures activeOrders == Move(old(activeOrders), id, next)
      ensures ok <==> id in old(activeOrders) && CanMove(old(activeOrders)[id].stage, next) && !unstored
      ensures auditLogs ==
        if id !in old(activeOrders) || (CanMove(old(activeOrders)[id].stage, next) && unstored) then old(auditLogs)
        else old(auditLogs) + [Audit(id, old(activeOrders)[id].stage, next, ok)]
    {
      if id !in activeOrders { return false; }
      var order := activeOrders[id];
      ok := CanMove(order.stage, next);
      if ok {
        activeOrders := activeOrders[id := order.(stage := next)];
        if unstored { return false; }
      }
      auditLogs := auditLogs + [Audit(id, order.stage, next, ok)];
    }

    /** The router writes the filled quantity straight into the tracked order. */
    method SetFilled(id: string, filled: real)
      requires id in activeOrders
      modifies this`activeOrders
      ensures activeOrders == old(activeOrders)[id := old(activeOrders)[id].(filled := filled)]
    {
      activeOrders := activeOrders[id := activeOrders[id].(filled := filled)];
    }
  }
}
