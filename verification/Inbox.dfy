// The in-process queue for messages that arrive while a session is at work
// (src/flops_agent/seams/inbox.py).
module Inbox {
  import opened Messages

  /** Where a message may be delivered: after a tool step, or only when the model is done. */
  datatype Boundary = AtStep | AtTurn

  datatype Queues = Queues(step: seq<Message>, turn: seq<Message>)

  class MemoryInbox {
    var queues: map<string, Queues>

    constructor ()
      ensures queues == map[]
    {
      queues := map[];
    }

    function Waiting(session: string): (q: Queues)
      reads this
    {
      if session in queues then queues[session] else Queues([], [])
    }

    method Push(session: string, message: Message, deliver: Boundary)
      modifies this
      ensures Waiting(session) == Pushed(old(Waiting(session)), message, deliver)
      ensures var was, now := old(Waiting(session)), Waiting(session);
              && now.step == was.step + (if deliver.AtStep? then [message] else [])
              && now.turn == was.turn + (if deliver.AtTurn? then [message] else [])
      ensures forall s: string :: s != session ==> Waiting(s) == old(Waiting(s))
    {
      var q := Waiting(session);
      queues := queues[session :=
        if deliver.AtStep? then q.(step := q.step + [message]) else q.(turn := q.turn + [message])];
    }

    /** Step messages are due at either boundary, turn messages only at the end of a turn. */
    method Poll(session: string, boundary: Boundary) returns (out: seq<Message>)
      modifies this
      ensures Polled(old(Waiting(session)), boundary) == (out, Waiting(session))
      ensures var was, now := old(Waiting(session)), Waiting(session);
              && now.step == []
              && (boundary.AtStep? ==> out == was.step && now.turn == was.turn)
              && (boundary.AtTurn? ==> out == was.step + was.turn && now.turn == [])
      ensures forall s: string :: s != session ==> Waiting(s) == old(Waiting(s))
    {
      if session !in queues {
        assert Waiting(session).step + Waiting(session).turn == [];
        return [];
      }
      var q := queues[session];
      out := q.step;
      q := q.(step := []);
      if boundary.AtTurn? {
        out := out + q.turn;
        q := q.(turn := []);
      }
      queues := queues[session := q];
    }
  }

  function Pushed(q: Queues, message: Message, deliver: Boundary): (r: Queues) {
    match deliver
    case AtStep => q.(step := q.step + [message])
    case AtTurn => q.(turn := q.turn + [message])
  }

  function Polled(q: Queues, boundary: Boundary): (r: (seq<Message>, Queues)) {
    match boundary
    case AtStep => (q.step, q.(step := []))
    case AtTurn => (q.step + q.turn, Queues([], []))
  }

  datatype Op = Push(message: Message, deliver: Boundary) | Poll(boundary: Boundary)

  /** What one session's queues hold and what has been delivered, after a history of operations. */
  datatype Ledger = Ledger(queues: Queues, delivered: seq<Message>)

  function Replay(ops: seq<Op>): (l: Ledger) {
    if ops == [] then Ledger(Queues([], []), [])
    else
      var before := Replay(ops[..|ops| - 1]);
      match ops[|ops| - 1]
      case Push(m, deliver) => before.(queues := Pushed(before.queues, m, deliver))
      case Poll(boundary) =>
        var (out, rest) := Polled(before.queues, boundary);
        Ledger(rest, before.delivered + out)
  }

  function PushedAll(ops: seq<Op>): (r: multiset<Message>) {
    if ops == [] then multiset{}
    else PushedAll(ops[..|ops| - 1]) + (if ops[|ops| - 1].Push? then multiset{ops[|ops| - 1].message} else multiset{})
  }

  /** Every message pushed is delivered exactly once or still waiting, under any sequence of pushes and polls. */
  lemma {:induction false} NothingLostOrDoubled(ops: seq<Op>)
    ensures var l := Replay(ops);
            PushedAll(ops) == multiset(l.delivered) + multiset(l.queues.step) + multiset(l.queues.turn)
    decreases |ops|
  {
    if ops != [] {
      NothingLostOrDoubled(ops[..|ops| - 1]);
    }
  }

  /** The messages pushed for a boundary, in order. */
  function PushedFor(ops: seq<Op>, deliver: Boundary): (r: seq<Message>) {
    if ops == [] then []
    else
      var last := ops[|ops| - 1];
      PushedFor(ops[..|ops| - 1], deliver) + if last.Push? && last.deliver == deliver then [last.message] else []
  }

  /** Until the turn ends the step messages are delivered in the order pushed, and the turn messages wait, also in
      order; at its end everything is delivered that was still waiting. */
  lemma {:induction false} TurnMailWaitsForTheTurn(ops: seq<Op>)
    requires forall i :: 0 <= i < |ops| ==> ops[i] != Poll(AtTurn)
    ensures var l := Replay(ops);
            && l.delivered + l.queues.step == PushedFor(ops, AtStep) && l.queues.turn == PushedFor(ops, AtTurn)
            && Replay(ops + [Poll(AtTurn)]) ==
               Ledger(Queues([], []), PushedFor(ops, AtStep) + PushedFor(ops, AtTurn))
    decreases |ops|
  {
    var all := ops + [Poll(AtTurn)];
    assert all[..|all| - 1] == ops;
    if ops == [] {
    } else {
      TurnMailWaitsForTheTurn(ops[..|ops| - 1]);
    }
    var l := Replay(ops);
    assert l.delivered + (l.queues.step + l.queues.turn) == (l.delivered + l.queues.step) + l.queues.turn;
  }
}
