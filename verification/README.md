# Auto Party rejoin controller — a Dafny model

Auto Party is a RuneLite client plugin that rejoins the user's last party
automatically after login. This project models its rejoin controller
(`AutoPartyPlugin`) and its configuration schema (`AutoPartyConfig`) as a pure
state machine, and proves what the controller promises over single events and
over arbitrary event sequences.

- `wrappers.dfy` — `Option`, standing for a value the host may return as `null`.
- `config.dfy` — the "autopartyplugin" configuration group as a key/value store:
  the `showPassphrase` and `joinedParty` items with their declared defaults
  (both false), and `setJoinedParty`, which writes the same key `joinedParty`
  reads and no other.
- `plugins.dfy` — `CheckForPartyPlugin`: scan the host's plugin list for the
  first Party plugin and answer its enabled flag (false if there is none), as
  a loop with a `break` and as a recursive reference function.
- `notification.dfy` — the lines of the console message sent after a rejoin
  request: "Auto Party: Last party rejoined." and, only when `showPassphrase`
  is set, "Passphrase: " followed by the party id.
- `controller.dfy` — the state (`config` store plus the per-run
  `loggedInOnce` latch), the events (game state changed, party changed, shut
  down), the outputs (`Dispatch(id)`, a change-party request, and
  `Message(lines)`), and one transition function per handler.
- `runs.dfy` — runs over event sequences: the latch is one-way, a rejoin is
  requested exactly when the latch gets set, so at most once per run, and never
  while `joinedParty` is false and no party has been joined.

Every host query a handler makes — `isInParty()`, the plugin list with its
enabled flags, and the Party plugin's stored `previousPartyId` — is a field of
the incoming event. The handler reads the stored id several times; the model
reads it once per event, so the request and the notification carry the same id.

The model follows the code in three respects:
- the latch is set only on the branch that sends the change-party request; a
  disabled Party plugin or a missing stored id leaves it unset;
- `startUp` only logs, so activation neither checks the Party plugin nor
  disables the plugin itself;
- the latch is set as soon as the request is sent, whether or not the host's
  change of party later succeeds.

## Model

| member | source | states |
|---|---|---|
| Config.SetJoinedParty | src/main/java/com/autoparty/AutoPartyConfig.java:36-60 | after setting `joinedParty` to b, reading it gives b; `showPassphrase` and every other key are unchanged, because the setter's key "joinedParty" differs from "showPassphrase" |
| Config.FreshDefaults | src/main/java/com/autoparty/AutoPartyConfig.java:41-53 | on a store where nothing was written, the getters `ShowPassphrase` and `JoinedParty` both return their declared default, false |
| Plugins.PartyPluginEnabledIsFirstMatch | src/main/java/com/autoparty/AutoPartyPlugin.java:90-107 | `PartyPluginEnabled`, the form of the check the controller uses, answers true iff the list holds a Party plugin and the first such plugin is enabled |
| Plugins.NoPartyPluginNotEnabled | src/main/java/com/autoparty/AutoPartyPlugin.java:90-107 | with no Party plugin in the list, the check answers false |
| Plugins.CheckForPartyPlugin | src/main/java/com/autoparty/AutoPartyPlugin.java:90-107 | the loop that stops at the first Party plugin returns true iff that plugin is enabled, and agrees with the reference function |
| Notification.RejoinMessage | src/main/java/com/autoparty/AutoPartyPlugin.java:186-199 | the message always starts with "Auto Party: Last party rejoined."; it contains the line "Passphrase: " followed by the id iff `showPassphrase` is set; it has two lines then and one otherwise |
| Controller.Start | src/main/java/com/autoparty/AutoPartyPlugin.java:77 | a new controller keeps the given settings and starts with the latch unset |
| Controller.OnGameStateChanged | src/main/java/com/autoparty/AutoPartyPlugin.java:128-158 | a state other than logged in, or a login while in a party, with the latch set or with `joinedParty` false, changes nothing and emits nothing; with the Party plugin disabled nothing changes and nothing is emitted; with a stored id exactly one request for that id and one notification are emitted and the latch is set; with no stored id `joinedParty` becomes false, the latch is kept and nothing is emitted; a request is emitted exactly when the latch gets set |
| Controller.OnPartyChanged | src/main/java/com/autoparty/AutoPartyPlugin.java:165-181 | an event with a party id sets `joinedParty`; one without an id while not in a party clears it; one without an id while still in a party changes nothing; the latch is never touched and nothing is emitted |
| Controller.OnShutDown | src/main/java/com/autoparty/AutoPartyPlugin.java:114-119 | afterwards `joinedParty` is false whatever it was; the latch and every other setting are unchanged; nothing is emitted |
| Controller.Step | src/main/java/com/autoparty/AutoPartyPlugin.java:128-181 | no event changes `showPassphrase` or any key besides `joinedParty`; the latch never goes from set to unset; an event emits a request exactly when it sets the latch; only a game-state event can emit a request |
| Runs.Run | src/main/java/com/autoparty/AutoPartyPlugin.java:128-181 | over any event sequence the latch stays set once set, and `showPassphrase` and every key besides `joinedParty` keep their values |
| Runs.RunDispatchesExactlyWhenLatchSet | src/main/java/com/autoparty/AutoPartyPlugin.java:140-148 | a run emits one change-party request if it takes the latch from unset to set, and none otherwise |
| Runs.AtMostOneRejoinPerRun | src/main/java/com/autoparty/AutoPartyPlugin.java:131-148 | any run emits at most one change-party request, and none when it starts with the latch set |
| Runs.NoSecondRejoin | src/main/java/com/autoparty/AutoPartyPlugin.java:133-147 | once a run has requested a rejoin, no continuation of it requests another, whatever membership changes happen in between |
| Runs.LoginsWithoutJoinedPartyAreInert | src/main/java/com/autoparty/AutoPartyPlugin.java:131-133 | a sequence of game-state events while `joinedParty` is false changes nothing and emits nothing |
| Runs.NoRejoinBeforeJoining | src/main/java/com/autoparty/AutoPartyPlugin.java:128-181 | from a state with `joinedParty` false, no rejoin is requested and `joinedParty` stays false until a party-changed event carries a party id |
| Runs.FreshInstallNeverRejoinsUnprompted | src/main/java/com/autoparty/AutoPartyConfig.java:50-53 | because `joinedParty` defaults to false, a fresh installation requests no rejoin before the user joins a party |
| Runs.RunEndingInShutDownClearsJoinedParty | src/main/java/com/autoparty/AutoPartyPlugin.java:114-119 | any run that ends with a shutdown leaves `joinedParty` false |

## Left out

- `startUp`: it only writes a debug log line, so it has no state effect to model.
- The deferred execution of the change-party request (`SwingUtilities.invokeLater`) and whether the host's `changeParty` succeeds: the request is an output, fire-and-forget.
- Chat colour markup (`ChatMessageBuilder`, `ChatColorType.HIGHLIGHT`) and queueing through `ChatMessageManager` as a console message: the notification is its plain lines.
- Configuration persistence (`ConfigManager`), dependency injection (`@Inject`, `provideConfig`) and the plugin and config-item annotations (names, descriptions, the `hidden` flag, the Party-plugin dependency): host plumbing.
- The Party plugin's own networking (`PartyService`) and the plugin registry's internals (`PluginManager`): they appear only as event fields (`inParty`, the plugin list, `previousPartyId`).
- Debug and info logging, which has no behavioural effect.
- Only `LoggedIn` among the host's `GameState` values is distinguished; the others all behave alike.
- Controller.OnGameStateChanged: reads the Party plugin's stored `previousPartyId` once per event. The handler itself calls `getLastPartyID()` again inside the deferred `invokeLater` request (AutoPartyPlugin.java line 143) and again for the message (line 192), so in the running plugin the id passed to `changeParty` could differ from the notified one, or be null, if the stored value changed in between; the model does not represent that interleaving.
