/**
 This module models the rejoin controller: an event-driven state machine over
 the persisted configuration store and the in-memory `loggedInOnce` latch.
 Every host query the handlers make (party membership, the plugin list, the
 Party plugin's stored `previousPartyId`) arrives as a field of the event, and
 every side effect (the change-party request, the console notification) is an
 output of the transition.
 */
module Controller {
  import opened Wrappers
  import Config
  import Plugins
  import Notification

  /** The host's client lifecycle states; only `LoggedIn` is acted upon. */
  datatype GameState =
    | Unknown | Starting | LoginScreen | LoginScreenAuthenticator
    | LoggingIn | Loading | LoggedIn | ConnectionLost | Hopping

  /** The inputs the controller reacts to. */
  datatype Event =
      /** The client changed lifecycle state. `inParty`, `plugins` and
          `previousPartyId` are what the host answers when asked during this
          event (the id is read once per event). */
    | GameStateChanged(gameState: GameState, inParty: bool,
                       plugins: seq<Plugins.Plugin>, previousPartyId: Option<string>)
      /** Party membership changed; `partyId` is `None` when the event carries
          no party, `inParty` is the host's membership answer. */
    | PartyChanged(partyId: Option<string>, inParty: bool)
      /** The plugin is being shut down. */
    | ShutDown

  /** The controller's side effects. */
  datatype Output =
      /** A fire-and-forget request to the host to switch to party `partyId`. */
    | Dispatch(partyId: string)
      /** A console notification, as its plain lines. */
    | Message(lines: seq<string>)

  /** The persisted settings and the per-run `loggedInOnce` latch. */
  datatype State = State(config: Config.Store, loggedInOnce: bool)

  /** The state after an event, and what the event emitted, in order. */
  datatype Transition = Transition(next: State, outputs: seq<Output>)

  /** A freshly constructed controller: the latch starts unset. */
  function Start(config: Config.Store): (s: State)
    ensures !s.loggedInOnce
    ensures s.config == config
  {
    State(config, false)
  }

  /** The number of change-party requests among `outputs`. */
  function DispatchCount(outputs: seq<Output>): nat
  {
    if |outputs| == 0 then 0
    else (if outputs[0].Dispatch? then 1 else 0) + DispatchCount(outputs[1..])
  }

  lemma {:induction false} DispatchCountAppend(a: seq<Output>, b: seq<Output>)
    ensures DispatchCount(a + b) == DispatchCount(a) + DispatchCount(b)
  {
    if |a| == 0 {
      assert a + b == b;
    } else {
      assert (a + b)[1..] == a[1..] + b;
      DispatchCountAppend(a[1..], b);
    }
  }

  /** The four guards of a login that may rejoin: the client is logged in, the
      user is not in a party, no rejoin was attempted this run, and the user
      was last known to be in a party. */
  predicate RejoinEligible(s: State, gameState: GameState, inParty: bool)
  {
    gameState == LoggedIn && !inParty && !s.loggedInOnce && Config.JoinedParty(s.config)
  }

  /** `onGameStateChanged`. */
  function OnGameStateChanged(s: State, gameState: GameState, inParty: bool,
                              plugins: seq<Plugins.Plugin>, previousPartyId: Option<string>): (t: Transition)
    // A login that fails a guard changes nothing and emits nothing.
    ensures !RejoinEligible(s, gameState, inParty) ==> t == Transition(s, [])
    // With the Party plugin off, the handler gives up without touching anything.
    ensures RejoinEligible(s, gameState, inParty) && !Plugins.PartyPluginEnabled(plugins)
      ==> t == Transition(s, [])
    // With a stored id: one request for that id, one notification, latch set.
    ensures RejoinEligible(s, gameState, inParty) && Plugins.PartyPluginEnabled(plugins) && previousPartyId.Some?
      ==> && t.outputs == [Dispatch(previousPartyId.value),
                           Message(Notification.RejoinMessage(Config.ShowPassphrase(s.config), previousPartyId.value))]
          && t.next == s.(loggedInOnce := true)
    // Without a stored id: `joinedParty` is cleared, latch kept, nothing emitted.
    ensures RejoinEligible(s, gameState, inParty) && Plugins.PartyPluginEnabled(plugins) && previousPartyId.None?
      ==> && t.outputs == []
          && !Config.JoinedParty(t.next.config)
          && t.next.loggedInOnce == s.loggedInOnce
          && Config.ChangesOnlyJoinedParty(s.config, t.next.config)
    // A request is emitted exactly when this login sets the latch.
    ensures DispatchCount(t.outputs) == (if !s.loggedInOnce && t.next.loggedInOnce then 1 else 0)
  {
    if RejoinEligible(s, gameState, inParty) then
      if !Plugins.PartyPluginEnabled(plugins) then
        Transition(s, [])
      else
        match previousPartyId
        case Some(id) =>
          var lines := Notification.RejoinMessage(Config.ShowPassphrase(s.config), id);
          assert DispatchCount([Message(lines)]) == 0;
          Transition(s.(loggedInOnce := true), [Dispatch(id), Message(lines)])
        case None =>
          Transition(s.(config := Config.SetJoinedParty(s.config, false)), [])
    else
      Transition(s, [])
  }

  /** `onPartyChanged`: keeps `joinedParty` in step with membership. */
  function OnPartyChanged(s: State, partyId: Option<string>, inParty: bool): (t: Transition)
    ensures t.outputs == []
    ensures t.next.loggedInOnce == s.loggedInOnce
    ensures Config.ChangesOnlyJoinedParty(s.config, t.next.config)
    // Joining or creating a party makes the user eligible for a later rejoin.
    ensures partyId.Some? ==> Config.JoinedParty(t.next.config)
    // Leaving for good makes them ineligible.
    ensures partyId.None? && !inParty ==> !Config.JoinedParty(t.next.config)
    // A partyless event while the host still reports membership is ignored.
    ensures partyId.None? && inParty ==> t.next == s
  {
    if partyId.Some? then
      Transition(s.(config := Config.SetJoinedParty(s.config, true)), [])
    else if !inParty then
      Transition(s.(config := Config.SetJoinedParty(s.config, false)), [])
    else
      Transition(s, [])
  }

  /** `shutDown`: clears `joinedParty` whatever it was; the latch is kept. */
  function OnShutDown(s: State): (t: Transition)
    ensures t.outputs == []
    ensures !Config.JoinedParty(t.next.config)
    ensures t.next.loggedInOnce == s.loggedInOnce
    ensures Config.ChangesOnlyJoinedParty(s.config, t.next.config)
  {
    Transition(s.(config := Config.SetJoinedParty(s.config, false)), [])
  }

  /** One event, routed to its handler. */
  function Step(s: State, e: Event): (t: Transition)
    // The user's `showPassphrase` choice is never written by the controller.
    ensures Config.ShowPassphrase(t.next.config) == Config.ShowPassphrase(s.config)
    ensures Config.ChangesOnlyJoinedParty(s.config, t.next.config)
    // The latch never goes from set back to unset.
    ensures s.loggedInOnce ==> t.next.loggedInOnce
    // A change-party request is emitted exactly when the latch gets set.
    ensures DispatchCount(t.outputs) == (if !s.loggedInOnce && t.next.loggedInOnce then 1 else 0)
    // Only a login event can request a rejoin.
    ensures !e.GameStateChanged? ==> DispatchCount(t.outputs) == 0
  {
    match e
    case GameStateChanged(gameState, inParty, plugins, previousPartyId) =>
      OnGameStateChanged(s, gameState, inParty, plugins, previousPartyId)
    case PartyChanged(partyId, inParty) =>
      OnPartyChanged(s, partyId, inParty)
    case ShutDown =>
      OnShutDown(s)
  }
}
