/** A client's outbound queue: one coalesced view, a byte bound and a notify token. */
module Subscription {
  import StateEngine

  /** A broadcast view and its serialized size. */
  datatype Item = Item(view: StateEngine.View, bytes: nat)

  /** `token` is the one-slot notify channel. */
  datatype Queue = Queue(pending: seq<Item>, bytes: nat, closed: bool, overflow: bool, token: bool)

  datatype Limits = Limits(maxItems: int, maxBytes: int)

  const EMPTY := Queue([], 0, false, false, false)

  function Shut(q: Queue): Queue { if q.closed then q else q.(closed := true, pending := [], bytes := 0) }

  /** Delivers an item over any undelivered one; a client it cannot fit is dropped. */
  function Enqueue(lim: Limits, q: Queue, x: Item): (Queue, bool) {
    if q.closed then (q, false)
    else
      var q := q.(pending := [x], bytes := x.bytes);
      if q.bytes > lim.maxBytes || |q.pending| > lim.maxItems then (Shut(q.(overflow := true)), false)
      else (q.(token := true), true)
  }

  function Drain(q: Queue): (Queue, seq<Item>) {
    if q.pending == [] then (q, []) else (q.(pending := [], bytes := 0), q.pending)
  }

  class Client {
    const limits: Limits
    var pending: seq<Item>
    var bytes: nat
    var closed: bool
    var overflow: bool
    var token: bool

    function Now(): Queue reads this { Queue(pending, bytes, closed, overflow, token) }

    constructor (limits: Limits)
      ensures Now() == EMPTY && this.limits == limits
    {
      this.limits := limits;
      pending, bytes, closed, overflow, token := [], 0, false, false, false;
    }

    method Offer(x: Item) returns (ok: bool)
      requires |pending| <= 1
      modifies this
      ensures (Now(), ok) == Enqueue(limits, old(Now()), x)
    {
      if closed {
        return false;
      }
      pending := pending + [x];
      if |pending| > 1 {
        pending := pending[|pending| - 1..];
      }
      assert pending == [x];
      bytes := x.bytes;
      if bytes > limits.maxBytes || |pending| > limits.maxItems {
        overflow := true;
        Close();
        return false;
      }
      if !token {
        token := true;
      }
      return true;
    }

    method Take() returns (items: seq<Item>)
      modifies this
      ensures (Now(), items) == Drain(old(Now()))
    {
      if |pending| == 0 {
        return [];
      }
      items := pending;
      pending, bytes := [], 0;
    }

    method Close()
      modifies this
      ensures Now() == Shut(old(Now()))
    {
      if closed {
        return;
      }
      closed, pending, bytes := true, [], 0;
    }
  }

  /** Offers a view to every registered client, in any order, and keeps those that took it. */
  method Broadcast(subs: set<Client>, x: Item) returns (kept: set<Client>)
    requires forall c :: c in subs ==> |c.pending| <= 1
    modifies subs
    ensures forall c :: c in subs ==> c.Now() == Enqueue(c.limits, old(c.Now()), x).0
    ensures kept == set c | c in subs && Enqueue(c.limits, old(c.Now()), x).1
  {
    kept := subs;
    var todo := subs;
    while todo != {}
      invariant todo <= subs && kept <= subs
      invariant forall c :: c in todo ==> c in kept && c.Now() == old(c.Now())
      invariant forall c :: c in subs - todo ==>
                  && c.Now() == Enqueue(c.limits, old(c.Now()), x).0
                  && (c in kept <==> Enqueue(c.limits, old(c.Now()), x).1)
      decreases |todo|
    {
      var c :| c in todo;
      assert c.Now() == old(c.Now());
      var ok := c.Offer(x);
      if !ok {
        kept := kept - {c};
      }
      todo := todo - {c};
    }
  }
}
