/** The debounced poll loop: wakes coalesce, polls never overlap, no wake is forgotten. */
module PollLoop {
  datatype Event = Woke | Started

  /**
    * `inProgress` and `queued` belong to the loop, `token` is the one-slot wake
    * channel, `flying` counts poll goroutines, `answer` is the result channel.
    */
  datatype Loop = Loop(inProgress: bool, queued: bool, token: bool, flying: nat, answer: bool, log: seq<Event>)

  datatype Action = Wake | Tick | TakeWake | PollReturns | Finish

  function Trigger(s: Loop): Loop {
    if s.inProgress then s.(queued := true)
    else s.(inProgress := true, flying := s.flying + 1, log := s.log + [Started])
  }

  /** The loop polls once at startup. */
  function Start(): Loop { Trigger(Loop(false, false, false, 0, false, [])) }

  predicate Enabled(s: Loop, a: Action) {
    match a
    case Wake => true
    case Tick => true
    case TakeWake => s.token
    case PollReturns => s.flying > 0 && !s.answer
    case Finish => s.answer
  }

  function Apply(s: Loop, a: Action): Loop
    requires Enabled(s, a)
  {
    match a
    case Wake => s.(token := true, log := s.log + [Woke])
    case Tick => Trigger(s)
    case TakeWake => Trigger(s.(token := false))
    case PollReturns => s.(flying := s.flying - 1, answer := true)
    case Finish =>
      var s := s.(answer := false, inProgress := false);
      if s.queued then Trigger(s.(queued := false)) else s
  }

  ghost predicate IsRun(states: seq<Loop>, actions: seq<Action>) {
    && |states| == |actions| + 1 && states[0] == Start()
    && forall i :: 0 <= i < |actions| ==>
         Enabled(states[i], actions[i]) && states[i + 1] == Apply(states[i], actions[i])
  }

  /** Some wake has had no poll start after it. */
  predicate Owed(log: seq<Event>) { log != [] && log[|log| - 1] == Woke }

  ghost predicate Inv(s: Loop) {
    && s.flying + (if s.answer then 1 else 0) == (if s.inProgress then 1 else 0)
    && (s.queued ==> s.inProgress)
    && (Owed(s.log) ==> s.token || s.queued)
  }

  lemma StepInv(s: Loop, a: Action)
    requires Inv(s) && Enabled(s, a)
    ensures Inv(Apply(s, a))
  {
  }

  lemma {:induction false} RunInv(states: seq<Loop>, actions: seq<Action>, i: nat)
    requires IsRun(states, actions) && i < |states|
    ensures Inv(states[i])
  {
    if i > 0 {
      RunInv(states, actions, i - 1);
      StepInv(states[i - 1], actions[i - 1]);
    }
  }

  /** Never two polls at once, and a follow-up is queued only behind one. */
  lemma OnePollOutstanding(states: seq<Loop>, actions: seq<Action>, i: nat)
    requires IsRun(states, actions) && i < |states|
    ensures states[i].flying <= 1 && (states[i].answer ==> states[i].flying == 0)
    ensures states[i].queued ==> states[i].flying == 1 || states[i].answer
  {
    RunInv(states, actions, i);
  }

  /** Every wake without a poll started after it is still owed one. */
  lemma NoWakeForgotten(states: seq<Loop>, actions: seq<Action>, i: nat, k: nat)
    requires IsRun(states, actions) && i < |states| && k < |states[i].log| && states[i].log[k] == Woke
    requires forall j :: k < j < |states[i].log| ==> states[i].log[j] != Started
    ensures states[i].token || states[i].queued
  {
    RunInv(states, actions, i);
    assert states[i].log[|states[i].log| - 1] != Started || k == |states[i].log| - 1;
  }

  function TakeIfWaiting(s: Loop): Loop { if s.token then Apply(s, TakeWake) else s }
  function ReturnIfFlying(s: Loop): Loop { if Enabled(s, PollReturns) then Apply(s, PollReturns) else s }
  function FinishIfAnswered(s: Loop): Loop { if s.answer then Apply(s, Finish) else s }

  /** Once the loop takes the token and the poll in progress comes back, an owed poll has started. */
  lemma OwedPollStarts(states: seq<Loop>, actions: seq<Action>, i: nat)
    requires IsRun(states, actions) && i < |states| && (states[i].token || states[i].queued)
    ensures var taken := TakeIfWaiting(states[i]);
            var s := FinishIfAnswered(ReturnIfFlying(taken));
            taken.log == states[i].log + [Started] || s.log == states[i].log + [Started]
  {
    RunInv(states, actions, i);
  }

  /**
    * When polls start: at once, at a tick or a wake taken while none is outstanding, and when
    * one finishes with a follow-up queued; never otherwise. A tick or wake taken
    * while one is outstanding queues the follow-up.
    */
  lemma StartsExactly(states: seq<Loop>, actions: seq<Action>, i: nat)
    requires IsRun(states, actions) && i < |actions|
    ensures states[0].log == [Started]
    ensures var s, a, t := states[i], actions[i], states[i + 1];
            var idle := s.flying == 0 && !s.answer;
            var starts := (a in {Tick, TakeWake} && idle) || (a == Finish && s.queued);
            && t.log == s.log + (if starts then [Started] else if a == Wake then [Woke] else [])
            && t.flying == s.flying + (if starts then 1 else if a == PollReturns then -1 else 0)
            && (t.queued <==> (s.queued && a != Finish) || (a in {Tick, TakeWake} && !idle))
  {
    RunInv(states, actions, i);
    assert Enabled(states[i], actions[i]) && states[i + 1] == Apply(states[i], actions[i]);
    assert states[i].log + [] == states[i].log;
  }
}
