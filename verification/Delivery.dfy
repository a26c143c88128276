/** The engine, its clients' queues and the clients draining them, in every interleaving. */
module Delivery {
  import opened Prelude
  import opened Subscription
  import StateEngine
  import EngineTheorems

  /** A subscriber: its queue, whether it took a token it has not yet drained for, and what it got. */
  datatype Subscriber = Subscriber(queue: Queue, awake: bool, drained: seq<Item>, registered: bool)

  /** `bytes` is the serialized size of the engine's current view. */
  datatype System = System(engine: StateEngine.Engine, bytes: nat, clients: map<nat, Subscriber>)

  const START := System(StateEngine.NEW, 0, map[])

  /** `bytes` is the size of the view a poll leads to, if it leads to one. */
  datatype Action =
    | Poll(out: StateEngine.Outcome, bytes: nat)
    | Subscribe(id: nat)
    | Deregister(id: nat)
    | CloseQueue(id: nat)
    | TakeToken(id: nat)
    | DrainQueue(id: nat)

  function Current(s: System): Option<Item> {
    if s.engine.current == None then None else Some(Item(s.engine.current.value, s.bytes))
  }

  ghost predicate Enabled(s: System, a: Action) {
    match a
    case Poll(out, _) => EngineTheorems.Sane(out)
    case Subscribe(id) => id !in s.clients
    case Deregister(id) => id in s.clients
    case CloseQueue(id) => id in s.clients && !s.clients[id].registered
    case TakeToken(id) => id in s.clients && s.clients[id].queue.token && !s.clients[id].awake
    case DrainQueue(id) => id in s.clients && s.clients[id].awake
  }

  function Deliver(lim: Limits, c: Subscriber, x: Item): Subscriber {
    if !c.registered then c
    else
      var r := Enqueue(lim, c.queue, x);
      c.(queue := r.0, registered := r.1)
  }

  /** A new client is seeded with the current view, if there is one. */
  function Seeded(lim: Limits, current: Option<Item>): Subscriber {
    var c := Subscriber(EMPTY, false, [], true);
    if current == None then c else Deliver(lim, c, current.value)
  }

  /** A poll that makes no new version delivers nothing. */
  function DoPoll(lim: Limits, s: System, out: StateEngine.Outcome, bytes: nat): System {
    var e := StateEngine.Apply(s.engine, out);
    if e.seqNo == s.engine.seqNo || e.current == None then s.(engine := e)
    else System(e, bytes, map id | id in s.clients :: Deliver(lim, s.clients[id], Item(e.current.value, bytes)))
  }

  ghost function Apply(lim: Limits, s: System, a: Action): System
    requires Enabled(s, a)
  {
    match a
    case Poll(out, bytes) => DoPoll(lim, s, out, bytes)
    case Subscribe(id) => s.(clients := s.clients[id := Seeded(lim, Current(s))])
    case Deregister(id) => s.(clients := s.clients[id := s.clients[id].(registered := false)])
    case CloseQueue(id) => s.(clients := s.clients[id := s.clients[id].(queue := Shut(s.clients[id].queue))])
    case TakeToken(id) =>
      var c := s.clients[id];
      s.(clients := s.clients[id := c.(queue := c.queue.(token := false), awake := true)])
    case DrainQueue(id) =>
      var c := s.clients[id];
      var r := Drain(c.queue);
      s.(clients := s.clients[id := c.(queue := r.0, awake := false, drained := c.drained + r.1)])
  }

  ghost predicate IsRun(lim: Limits, states: seq<System>, actions: seq<Action>) {
    && |states| == |actions| + 1 && states[0] == START
    && forall i :: 0 <= i < |actions| ==>
         Enabled(states[i], actions[i]) && states[i + 1] == Apply(lim, states[i], actions[i])
  }

  function Version(current: Option<Item>): nat { if current == None then 0 else current.value.view.seqNo }

  function LastDrained(c: Subscriber): nat {
    if c.drained == [] then 0 else c.drained[|c.drained| - 1].view.seqNo
  }

  /** Coalesced to one item within budget, with a wake-up owed whenever something waits. */
  predicate QueueOk(lim: Limits, c: Subscriber) {
    && |c.queue.pending| <= 1
    && c.queue.bytes == (if c.queue.pending == [] then 0 else c.queue.pending[0].bytes)
    && (c.queue.pending != [] ==> c.queue.bytes <= lim.maxBytes)
    && (c.queue.closed ==> c.queue.pending == [])
    && (c.registered ==> !c.queue.closed)
    && (c.queue.pending != [] ==> c.queue.token || c.awake)
  }

  predicate Advancing(drained: seq<Item>) {
    forall i, j :: 0 <= i < j < |drained| ==> drained[i].view.seqNo < drained[j].view.seqNo
  }

  /** Versions only move forward, through the queue and to the client. */
  predicate OrderOk(c: Subscriber, version: nat) {
    && Advancing(c.drained) && LastDrained(c) <= version
    && (c.queue.pending != [] ==> LastDrained(c) < c.queue.pending[0].view.seqNo <= version)
  }

  /** The newest view is waiting, or was the last one taken. */
  predicate Fresh(c: Subscriber, current: Option<Item>) {
    c.registered && current.Some? ==>
      || c.queue.pending == [current.value]
      || (c.queue.pending == [] && c.drained != [] && c.drained[|c.drained| - 1] == current.value)
  }

  predicate ClientOk(lim: Limits, current: Option<Item>, c: Subscriber) {
    QueueOk(lim, c) && OrderOk(c, Version(current)) && Fresh(c, current)
  }

  /** The engine's view is its newest version, and its guard is the one the view shows. */
  ghost predicate EngineOk(e: StateEngine.Engine) {
    && EngineTheorems.Inv(e)
    && e.seqNo == (if e.current == None then 0 else e.current.value.seqNo)
    && (e.current.Some? ==> e.seqNo >= 1)
  }

  ghost predicate Inv(lim: Limits, s: System) {
    EngineOk(s.engine) && forall id :: id in s.clients ==> ClientOk(lim, Current(s), s.clients[id])
  }

  lemma DeliverKeeps(lim: Limits, current: Option<Item>, c: Subscriber, x: Item)
    requires ClientOk(lim, current, c) && x.view.seqNo == Version(current) + 1
    ensures ClientOk(lim, Some(x), Deliver(lim, c, x))
  {
  }

  lemma SeedKeeps(lim: Limits, current: Option<Item>)
    requires current.Some? ==> current.value.view.seqNo >= 1
    ensures ClientOk(lim, current, Seeded(lim, current))
  {
  }

  lemma DrainKeeps(lim: Limits, current: Option<Item>, c: Subscriber)
    requires ClientOk(lim, current, c) && c.awake
    ensures var r := Drain(c.queue);
            ClientOk(lim, current, c.(queue := r.0, awake := false, drained := c.drained + r.1))
  {
    if c.queue.pending != [] {
      var x := c.queue.pending[0];
      assert c.queue.pending == [x];
      AdvancingSnoc(c.drained, x);
    } else {
      assert c.drained + [] == c.drained;
    }
  }

  lemma AdvancingSnoc(drained: seq<Item>, x: Item)
    requires Advancing(drained)
    requires drained != [] ==> drained[|drained| - 1].view.seqNo < x.view.seqNo
    ensures Advancing(drained + [x])
  {
    var more := drained + [x];
    forall i, j | 0 <= i < j < |more| ensures more[i].view.seqNo < more[j].view.seqNo {
      assert i == |drained| - 1 || drained[i].view.seqNo < drained[|drained| - 1].view.seqNo;
    }
  }

  lemma ShutKeeps(lim: Limits, current: Option<Item>, c: Subscriber)
    requires ClientOk(lim, current, c) && !c.registered
    ensures ClientOk(lim, current, c.(queue := Shut(c.queue)))
  {
  }

  lemma SmallKeeps(lim: Limits, current: Option<Item>, c: Subscriber)
    requires ClientOk(lim, current, c)
    ensures ClientOk(lim, current, c.(registered := false))
    ensures ClientOk(lim, current, c.(queue := c.queue.(token := false), awake := true))
  {
  }

  lemma OneClient(lim: Limits, s: System, id: nat, c: Subscriber)
    requires Inv(lim, s) && ClientOk(lim, Current(s), c)
    ensures Inv(lim, s.(clients := s.clients[id := c]))
  {
    hide ClientOk, EngineOk;
    assert Current(s.(clients := s.clients[id := c])) == Current(s);
  }

  /** One poll: a new version is the next one and is what the engine now shows, or nothing moved. */
  lemma PollEngine(e: StateEngine.Engine, out: StateEngine.Outcome)
    requires EngineOk(e) && EngineTheorems.Sane(out)
    ensures var f := StateEngine.Apply(e, out);
            && EngineOk(f)
            && (f.seqNo == e.seqNo ==> f.current == e.current)
            && (f.seqNo != e.seqNo ==> f.current.Some? && f.current.value.seqNo == e.seqNo + 1)
  {
    hide EngineTheorems.Inv, EngineTheorems.Sane;
    EngineTheorems.ApplyInv(e, out);
  }

  lemma PollKeeps(lim: Limits, s: System, out: StateEngine.Outcome, bytes: nat)
    requires Inv(lim, s) && EngineTheorems.Sane(out)
    ensures Inv(lim, DoPoll(lim, s, out, bytes))
  {
    hide ClientOk, Deliver, EngineTheorems.Inv, EngineTheorems.Sane, StateEngine.Apply;
    PollEngine(s.engine, out);
    var s' := DoPoll(lim, s, out, bytes);
    if s'.engine.seqNo == s.engine.seqNo {
      assert Current(s') == Current(s);
    } else {
      forall id | id in s'.clients ensures ClientOk(lim, Current(s'), s'.clients[id]) {
        DeliverKeeps(lim, Current(s), s.clients[id], Current(s').value);
      }
    }
  }

  lemma StepInv(lim: Limits, s: System, a: Action)
    requires Inv(lim, s) && Enabled(s, a)
    ensures Inv(lim, Apply(lim, s, a))
  {
    if a.Poll? {
      hide Inv, DoPoll;
      PollKeeps(lim, s, a.out, a.bytes);
    } else if a.Subscribe? {
      hide ClientOk, Seeded, EngineTheorems.Inv, EngineTheorems.Sane;
      SeedKeeps(lim, Current(s));
      OneClient(lim, s, a.id, Seeded(lim, Current(s)));
    } else {
      hide ClientOk, Shut, Drain, EngineOk, EngineTheorems.Sane;
      var c := s.clients[a.id];
      SmallKeeps(lim, Current(s), c);
      if a.CloseQueue? {
        ShutKeeps(lim, Current(s), c);
      } else if a.DrainQueue? {
        DrainKeeps(lim, Current(s), c);
      }
      OneClient(lim, s, a.id, Apply(lim, s, a).clients[a.id]);
    }
  }

  lemma {:induction false} RunInv(lim: Limits, states: seq<System>, actions: seq<Action>, i: nat)
    requires IsRun(lim, states, actions) && i < |states|
    ensures Inv(lim, states[i])
  {
    if i > 0 {
      hide Inv, Enabled, Apply;
      RunInv(lim, states, actions, i - 1);
      StepInv(lim, states[i - 1], actions[i - 1]);
    }
  }

  /**
    * In every state of every run a registered client's newest view is either the
    * one item waiting, with a wake-up owed, or the last it drained; what it has
    * drained strictly advances, and what waits fits its budget.
    */
  lemma NewestIsDelivered(lim: Limits, states: seq<System>, actions: seq<Action>, i: nat, id: nat)
    requires IsRun(lim, states, actions) && i < |states| && id in states[i].clients
    ensures var c := states[i].clients[id];
            && Fresh(c, Current(states[i])) && Advancing(c.drained)
            && (c.queue.pending != [] ==>
                  && |c.queue.pending| == 1 && c.queue.pending[0].bytes == c.queue.bytes <= lim.maxBytes
                  && (c.queue.token || c.awake))
  {
    hide IsRun, EngineOk;
    RunInv(lim, states, actions, i);
    assert ClientOk(lim, Current(states[i]), states[i].clients[id]);
  }

  /** Once a registered client has drained, it has the newest view, whatever it missed. */
  lemma DrainCatchesUp(lim: Limits, states: seq<System>, actions: seq<Action>, i: nat, id: nat)
    requires IsRun(lim, states, actions) && i < |actions| && actions[i] == DrainQueue(id)
    requires states[i].clients[id].registered && Current(states[i]).Some?
    ensures id in states[i + 1].clients
    ensures var c := states[i + 1].clients[id];
            c.queue.pending == [] && c.drained != [] && c.drained[|c.drained| - 1] == Current(states[i]).value
  {
    RunInv(lim, states, actions, i);
    hide EngineOk;
    assert ClientOk(lim, Current(states[i]), states[i].clients[id]);
    assert states[i + 1] == Apply(lim, states[i], actions[i]);
  }

  /**
    * A registered client with nothing waiting can act on what it saw: its last view
    * carries exactly the generations the live guard will check, for exactly the
    * panes it shows.
    */
  lemma ClientAgreesWithGuard(lim: Limits, states: seq<System>, actions: seq<Action>, i: nat, id: nat)
    requires IsRun(lim, states, actions) && i < |states| && id in states[i].clients
    requires var c := states[i].clients[id];
             c.registered && c.queue.pending == [] && Current(states[i]).Some?
    ensures var c, guards := states[i].clients[id], states[i].engine.guards;
            && c.drained != []
            && var seen := c.drained[|c.drained| - 1].view;
               && seen.generations == guards.gens && guards.gens.Keys == StateEngine.Ids(seen.topology.panes)
               && forall p :: p in guards.gens ==> guards.gens[p] >= 1
  {
    hide IsRun;
    RunInv(lim, states, actions, i);
    NewestIsDelivered(lim, states, actions, i, id);
  }

  /** A client is cut off by a new view exactly when that view cannot fit its budget. */
  lemma OverflowExactly(lim: Limits, s: System, id: nat, out: StateEngine.Outcome, bytes: nat)
    requires Inv(lim, s) && EngineTheorems.Sane(out) && id in s.clients && s.clients[id].registered && lim.maxItems >= 1
    ensures var s' := DoPoll(lim, s, out, bytes);
            && id in s'.clients
            && (!s'.clients[id].registered <==> s'.engine.seqNo != s.engine.seqNo && bytes > lim.maxBytes)
            && (!s'.clients[id].registered ==> s'.clients[id].queue.overflow && s'.clients[id].queue.closed)
  {
    hide EngineTheorems.Inv, EngineTheorems.Sane, StateEngine.Apply;
    PollEngine(s.engine, out);
    assert ClientOk(lim, Current(s), s.clients[id]);
  }

  /** What waits for a registered client can be drained: the wake-up it is owed leads to the newest view. */
  lemma WaitingCanBeDrained(lim: Limits, states: seq<System>, actions: seq<Action>, i: nat, id: nat)
    requires IsRun(lim, states, actions) && i < |states| && id in states[i].clients
    requires states[i].clients[id].registered && states[i].clients[id].queue.pending != []
    ensures var s := states[i];
            && (s.clients[id].awake || Enabled(s, TakeToken(id)))
            && var t := if s.clients[id].awake then s else Apply(lim, s, TakeToken(id));
            && Enabled(t, DrainQueue(id))
            && var c := Apply(lim, t, DrainQueue(id)).clients[id];
               c.queue.pending == [] && c.drained != [] && Some(c.drained[|c.drained| - 1]) == Current(s)
  {
    hide IsRun, EngineOk;
    RunInv(lim, states, actions, i);
    assert ClientOk(lim, Current(states[i]), states[i].clients[id]);
  }
}
