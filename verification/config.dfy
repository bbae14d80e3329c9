/**
 This module models the plugin's persisted settings, the configuration group
 "autopartyplugin": a user-visible `showPassphrase` item and a hidden
 `joinedParty` item, each with a declared default, plus the setter that
 writes `joinedParty`.
 */
module Config {

  /** The configuration group every key below lives in. */
  const Group: string := "autopartyplugin"

  /** Key of the user-visible "Show Passphrase on Login" item. */
  const ShowPassphraseKey: string := "showPassphrase"

  /** Key shared by the hidden `joinedParty` getter and its setter. */
  const JoinedPartyKey: string := "joinedParty"

  /** The host's key/value store restricted to this plugin's group. A key that
      was never written is absent and reads as the item's declared default. */
  type Store = map<string, bool>

  /** The store of a fresh installation: nothing has been written yet. */
  const Fresh: Store := map[]

  /** Reads `key`, falling back to the item's declared default. */
  function Read(st: Store, key: string, default: bool): bool
  {
    if key in st then st[key] else default
  }

  /** The `showPassphrase` item; its declared default is false. */
  function ShowPassphrase(st: Store): bool
  {
    Read(st, ShowPassphraseKey, false)
  }

  /** The `joinedParty` item; its declared default is false. */
  function JoinedParty(st: Store): bool
  {
    Read(st, JoinedPartyKey, false)
  }

  /** True iff `st'` agrees with `st` on every key other than `joinedParty`. */
  ghost predicate ChangesOnlyJoinedParty(st: Store, st': Store)
  {
    forall k :: k != JoinedPartyKey ==> (k in st <==> k in st') && (k in st ==> st[k] == st'[k])
  }

  /** `setJoinedParty(b)`: writes the key its getter reads, and no other. */
  function SetJoinedParty(st: Store, b: bool): (st': Store)
    ensures JoinedParty(st') == b
    ensures ShowPassphrase(st') == ShowPassphrase(st)
    ensures ChangesOnlyJoinedParty(st, st')
  {
    st[JoinedPartyKey := b]
  }

  /** Both items read false on a fresh installation. */
  lemma FreshDefaults()
    ensures !ShowPassphrase(Fresh)
    ensures !JoinedParty(Fresh)
  {
  }

  /** Agreement outside `joinedParty` is an equivalence: it composes. */
  lemma ChangesOnlyJoinedPartyTransitive(st1: Store, st2: Store, st3: Store)
    requires ChangesOnlyJoinedParty(st1, st2)
    requires ChangesOnlyJoinedParty(st2, st3)
    ensures ChangesOnlyJoinedParty(st1, st3)
  {
  }
}
