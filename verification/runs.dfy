/**
 This module lifts the controller's single-event transitions to whole runs: a
 run feeds an event sequence through `Step` from one state and collects every
 output. The lemmas state the run-level guarantees: the latch is one-way, at
 most one automatic rejoin is requested per run, and no rejoin is requested
 while the user is not known to have joined a party.
 */
module Runs {
  import opened Wrappers
  import Config
  import Controller

  /** Feeds `events` through the controller in order. */
  function Run(s: Controller.State, events: seq<Controller.Event>): (t: Controller.Transition)
    // The latch is one-way over any run.
    ensures s.loggedInOnce ==> t.next.loggedInOnce
    // The controller never writes `showPassphrase`, however long the run.
    ensures Config.ShowPassphrase(t.next.config) == Config.ShowPassphrase(s.config)
    ensures Config.ChangesOnlyJoinedParty(s.config, t.next.config)
    decreases |events|
  {
    if |events| == 0 then
      Controller.Transition(s, [])
    else
      var first := Controller.Step(s, events[0]);
      var rest := Run(first.next, events[1..]);
      Config.ChangesOnlyJoinedPartyTransitive(s.config, first.next.config, rest.next.config);
      Controller.Transition(rest.next, first.outputs + rest.outputs)
  }

  /** A run emits one change-party request if it sets the latch, none otherwise. */
  lemma {:induction false} RunDispatchesExactlyWhenLatchSet(s: Controller.State, events: seq<Controller.Event>)
    ensures var t := Run(s, events);
      Controller.DispatchCount(t.outputs) == (if !s.loggedInOnce && t.next.loggedInOnce then 1 else 0)
    decreases |events|
  {
    if |events| != 0 {
      var first := Controller.Step(s, events[0]);
      var rest := Run(first.next, events[1..]);
      RunDispatchesExactlyWhenLatchSet(first.next, events[1..]);
      Controller.DispatchCountAppend(first.outputs, rest.outputs);
    }
  }

  /** At most one automatic rejoin per run, and none once the latch is set. */
  lemma AtMostOneRejoinPerRun(s: Controller.State, events: seq<Controller.Event>)
    ensures Controller.DispatchCount(Run(s, events).outputs) <= 1
    ensures s.loggedInOnce ==> Controller.DispatchCount(Run(s, events).outputs) == 0
  {
    RunDispatchesExactlyWhenLatchSet(s, events);
  }

  /** After a run that requested a rejoin, no continuation requests another. */
  lemma {:induction false} NoSecondRejoin(s: Controller.State, before: seq<Controller.Event>, after: seq<Controller.Event>)
    requires Controller.DispatchCount(Run(s, before).outputs) == 1
    ensures Controller.DispatchCount(Run(Run(s, before).next, after).outputs) == 0
  {
    RunDispatchesExactlyWhenLatchSet(s, before);
    AtMostOneRejoinPerRun(Run(s, before).next, after);
  }

  /** A run of login-state events while `joinedParty` is false is inert. */
  lemma {:induction false} LoginsWithoutJoinedPartyAreInert(s: Controller.State, events: seq<Controller.Event>)
    requires !Config.JoinedParty(s.config)
    requires forall i :: 0 <= i < |events| ==> events[i].GameStateChanged?
    ensures Run(s, events) == Controller.Transition(s, [])
    decreases |events|
  {
    if |events| != 0 {
      LoginsWithoutJoinedPartyAreInert(s, events[1..]);
      assert events[1..] + [] == events[1..];
    }
  }

  /** True iff `e` is a party-changed event that carries a party id. */
  predicate JoinsParty(e: Controller.Event)
  {
    e.PartyChanged? && e.partyId.Some?
  }

  /** Starting with `joinedParty` false, no rejoin is requested before some
      party-changed event reports a party; `joinedParty` stays false too. */
  lemma {:induction false} NoRejoinBeforeJoining(s: Controller.State, events: seq<Controller.Event>)
    requires !Config.JoinedParty(s.config)
    requires forall i :: 0 <= i < |events| ==> !JoinsParty(events[i])
    ensures Controller.DispatchCount(Run(s, events).outputs) == 0
    ensures !Config.JoinedParty(Run(s, events).next.config)
    decreases |events|
  {
    if |events| != 0 {
      var first := Controller.Step(s, events[0]);
      assert !JoinsParty(events[0]);
      assert !Config.JoinedParty(first.next.config);
      NoRejoinBeforeJoining(first.next, events[1..]);
      Controller.DispatchCountAppend(first.outputs, Run(first.next, events[1..]).outputs);
    }
  }

  /** A fresh installation never rejoins before the user joins a party. */
  lemma {:induction false} FreshInstallNeverRejoinsUnprompted(events: seq<Controller.Event>)
    requires forall i :: 0 <= i < |events| ==> !JoinsParty(events[i])
    ensures Controller.DispatchCount(Run(Controller.Start(Config.Fresh), events).outputs) == 0
  {
    Config.FreshDefaults();
    NoRejoinBeforeJoining(Controller.Start(Config.Fresh), events);
  }

  /** Shutting down ends every run with `joinedParty` false. */
  lemma RunEndingInShutDownClearsJoinedParty(s: Controller.State, events: seq<Controller.Event>)
    requires 0 < |events| && events[|events| - 1] == Controller.ShutDown
    ensures !Config.JoinedParty(Run(s, events).next.config)
  {
    RunSplit(s, events[..|events| - 1], [Controller.ShutDown]);
    assert events[..|events| - 1] + [Controller.ShutDown] == events;
  }

  /** A run over `a + b` is the run over `a` followed by the run over `b`. */
  lemma {:induction false} RunSplit(s: Controller.State, a: seq<Controller.Event>, b: seq<Controller.Event>)
    ensures Run(s, a + b).next == Run(Run(s, a).next, b).next
    ensures Run(s, a + b).outputs == Run(s, a).outputs + Run(Run(s, a).next, b).outputs
    decreases |a|
  {
    if |a| == 0 {
      assert a + b == b;
    } else {
      assert (a + b)[0] == a[0];
      assert (a + b)[1..] == a[1..] + b;
      RunSplit(Controller.Step(s, a[0]).next, a[1..], b);
    }
  }
}
