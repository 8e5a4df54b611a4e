/**
 * Whose vault the native shell holds (native-desktop/src/durable.rs), over runs of
 * writes, and where its guard and the other shell's (electron/durableStore.ts) differ.
 */
module NativeGuard {
  import opened Prelude
  import opened JsonText
  import opened Vault
  import opened StoreText
  import opened NativeFiles

  /** Whose the stored vault is; nothing where it does not open or is no JSON. */
  function Owner(contents: Contents): Option<string> {
    if VAULT_KEY in contents && contents[VAULT_KEY].Some? then IdentityKey(contents[VAULT_KEY].value) else None
  }

  predicate Names(owner: Option<string>) {
    owner.Some? && owner.value != ""
  }

  /** A write without the override, and what the disk makes of it. */
  datatype Write = Write(key: string, value: string, sealed: bool, faults: Faults)

  function Wrote(contents: Contents, w: Write): Contents {
    MapSet(contents, w.key, w.value, false, w.sealed, w.faults).0
  }

  function WroteAll(contents: Contents, writes: seq<Write>): Contents
    decreases |writes|
  {
    if writes == [] then contents else WroteAll(Wrote(contents, writes[0]), writes[1..])
  }

  /** A vault that is written says whose it is. */
  predicate Signed(w: Write) {
    w.key == VAULT_KEY ==> Names(IdentityKey(w.value))
  }

  lemma {:induction false} EmptyNamesNobody()
    ensures !Names(IdentityKey(""))
  {
    assert ParseDocument("") == None;
  }

  lemma {:induction false} WriteKeepsOwner(contents: Contents, w: Write)
    requires Names(Owner(contents)) && Signed(w)
    ensures Owner(Wrote(contents, w)) == Owner(contents)
  {
    KeyFacts();
    EmptyNamesNobody();
  }

  /** Over any run of writes without the override, a vault that opens and says whose it is stays that owner's. */
  lemma {:induction false} OwnerNeverChanges(contents: Contents, writes: seq<Write>)
    requires Names(Owner(contents)) && forall i :: 0 <= i < |writes| ==> Signed(writes[i])
    ensures Owner(WroteAll(contents, writes)) == Owner(contents)
    decreases |writes|
  {
    if writes != [] {
      var rest := writes[1..];
      assert forall i :: 0 <= i < |rest| ==> rest[i] == writes[i + 1];
      WriteKeepsOwner(contents, writes[0]);
      OwnerNeverChanges(Wrote(contents, writes[0]), rest);
    }
  }

  /** A vault that says whose it is takes another's place, the disk willing, if and only if that is its owner's too, nobody's, or does not open. */
  lemma {:induction false} VaultReplacedExactlyWhen(contents: Contents, value: string, sealed: bool, faults: Faults)
    requires VAULT_KEY in contents && Names(IdentityKey(value)) && Replaces(faults.write)
    ensures Owner(Wrote(contents, Write(VAULT_KEY, value, sealed, faults))) == IdentityKey(value)
            <==> Owner(contents) == IdentityKey(value) || Owner(contents) == Some("") || contents[VAULT_KEY] == None
  {
    KeyFacts();
    EmptyNamesNobody();
  }

  /** The other shell's guard on the same vault. */
  predicate ElectronStops(previous: Option<string>, value: string, allow: bool) {
    previous.None? || !GuardAllows(previous.value, value, allow)
  }

  predicate IsNull(text: string) {
    ParseDocument(text) == Some(Null)
  }

  /** Both say whose they are, one of them with an empty name, and not the same. */
  predicate OneUnnamed(previous: string, value: string) {
    var (before, after) := (IdentityOf(previous), IdentityOf(value));
    before.Some? && after.Some? && before != after && (before.value == "" || after.value == "")
  }

  /**
   * The native guard stops nothing the other would pass. It passes what the other stops if and only if the stored vault
   * does not open; or is written again and is no JSON or null; or both are JSON and the old is null, or the new is null
   * and the old says whose it is, or, without the override, just one of them has an empty name.
   */
  lemma {:induction false} NativeGuardIsWeakerExactlyWhen(previous: Option<string>, value: string, allow: bool)
    ensures NativeStops(previous, value, allow) ==> ElectronStops(previous, value, allow)
    ensures ElectronStops(previous, value, allow) && !NativeStops(previous, value, allow)
            <==> || previous.None?
                 || (previous.value == value && (ParseDocument(value).None? || IsNull(value)))
                 || (&& ParseDocument(previous.value).Some? && ParseDocument(value).Some?
                     && (|| IsNull(previous.value)
                         || (IsNull(value) && IdentityOf(previous.value).Some?)
                         || (!allow && OneUnnamed(previous.value, value))))
  {
  }

  /** The other shell's guard is the one its store applies. */
  lemma {:induction false} ElectronStopsIs(store: Store, value: string, raw: string, ks: Keystore, allow: bool, stamp: nat)
    requires VAULT_KEY in store
    ensures Replaced(store, VAULT_KEY, value, raw, ks, allow, stamp).None? <==> ElectronStops(Unseal(ks, VAULT_KEY, store[VAULT_KEY]), value, allow)
  {
  }
}
