/**
 * The wallet vault inside the store (electron/durableStore.ts): sealing with
 * the operating system's keystore, the guard against overwriting one wallet
 * with another, and the backups each overwrite leaves.
 */
module Vault {
  import opened Prelude
  import opened JsonText
  import opened CanonicalJson
  import opened StoreText

  const VAULT_KEY := "handcash.brc100.vault.v1"
  const VAULT_BACKUP_KEY := "handcash.brc100.vault.backup.v1"
  const VAULT_HISTORY_PREFIX := "handcash.brc100.vault.history."
  const VAULT_PREFIX := "handcash.brc100.vault"
  const VAULT_SEAL_STATUS_KEY := "handcash.brc100.vaultSealStatus"
  const SEALED_PREFIX := "sealed:v1:"
  const MAX_VAULT_HISTORY := 10

  /**
   * The operating system's keystore on one run: whether it is available, whether it is
   * Chromium's built-in key, and what encrypting and decrypting give, None where they throw.
   */
  datatype Keystore = Keystore(available: bool, basicText: bool,
                               encrypt: string -> Option<string>, decrypt: string -> Option<string>)

  predicate IsVaultKey(key: string) {
    StartsWith(key, VAULT_PREFIX)
  }

  predicate CanSeal(ks: Keystore) {
    ks.available && !ks.basicText
  }

  /** The stored form of a value, and whether it is sealed. */
  function Sealed(ks: Keystore, key: string, value: string): (r: (string, bool)) {
    if !IsVaultKey(key) || StartsWith(value, SEALED_PREFIX) then (value, false)
    else if CanSeal(ks) && ks.encrypt(value).Some? && ks.decrypt(ks.encrypt(value).value) == Some(value)
    then (SEALED_PREFIX + ks.encrypt(value).value, true)
    else (value, false)
  }

  /** Whether sealing `value` under `key` records a seal status. */
  predicate RecordsStatus(key: string, value: string) {
    key == VAULT_KEY && !StartsWith(value, SEALED_PREFIX)
  }

  /** What a stored form opens to while the keystore is at hand. */
  function Plain(ks: Keystore, key: string, raw: string): Option<string> {
    if !IsVaultKey(key) || !StartsWith(raw, SEALED_PREFIX) then Some(raw)
    else ks.decrypt(raw[|SEALED_PREFIX|..])
  }

  /** unsealIfNeeded: a sealed vault does not open while the keystore is not at hand. */
  function Unseal(ks: Keystore, key: string, raw: string): Option<string> {
    if IsVaultKey(key) && StartsWith(raw, SEALED_PREFIX) && !ks.available then None else Plain(ks, key, raw)
  }

  /** What is stored always opens to what was written. */
  lemma {:induction false} SealedOpens(ks: Keystore, key: string, value: string)
    requires !StartsWith(value, SEALED_PREFIX)
    ensures Plain(ks, key, Sealed(ks, key, value).0) == Some(value)
    ensures Unseal(ks, key, Sealed(ks, key, value).0) == Some(value)
  {
    var (raw, sealed) := Sealed(ks, key, value);
    if sealed {
      assert raw[|SEALED_PREFIX|..] == ks.encrypt(value).value;
    }
  }

  // ----- the guard -----

  /** `value.identityKey`, where it is a string. */
  function Identity(j: Json): Option<string> {
    if j.Obj? && "identityKey" in j.fields && j.fields["identityKey"].Str? then Some(j.fields["identityKey"].s) else None
  }

  function IdentityOf(text: string): Option<string> {
    match ParseDocument(text)
    case Some(j) => Identity(j)
    case None => None
  }

  /** Whether the guard lets `value` take the place of a vault that opens to `previous`. */
  predicate GuardAllows(previous: string, value: string, allow: bool) {
    match (ParseDocument(previous), ParseDocument(value))
    case (Some(prev), Some(next)) =>
      // reading a property of null throws, and a throw refuses
      && !prev.Null?
      && (Identity(prev).Some? ==> !next.Null?)
      && (Identity(prev).Some? && Identity(next).Some? && Identity(prev) != Identity(next) ==> allow)
    case _ => false
  }

  // ----- backups and history -----

  predicate IsHistoryKey(key: string) {
    StartsWith(key, VAULT_HISTORY_PREFIX)
  }

  function HistoryKey(stamp: nat): string {
    VAULT_HISTORY_PREFIX + Decimal(stamp)
  }

  /** The history entries newer than `key`. */
  function NewerThan(store: Store, key: string): set<string> {
    set h | h in store && IsHistoryKey(h) && Less(key, h)
  }

  /** The store with only its newest history entries. */
  function Pruned(store: Store): Store {
    map k | k in store && !(IsHistoryKey(k) && |NewerThan(store, k)| >= MAX_VAULT_HISTORY) :: store[k]
  }

  function Archived(store: Store, raw: string, stamp: nat): Store {
    Pruned(store[VAULT_BACKUP_KEY := raw][HistoryKey(stamp) := raw])
  }

  // ----- one accepted write -----

  /** The store a write asks to be saved, or None where the guard refuses it. */
  function Replaced(store: Store, key: string, value: string, raw: string, ks: Keystore, allow: bool, stamp: nat): Option<Store> {
    if key == VAULT_KEY && key in store then
      match Unseal(ks, key, store[key])
      case None => None
      case Some(previous) =>
        if GuardAllows(previous, value, allow) then Some(Archived(store, store[key], stamp)[key := raw]) else None
    else Some(store[key := raw])
  }

  /** The store without `key`; removing the vault keeps a backup of it. */
  function Removed(store: Store, key: string, stamp: nat): Store {
    if key == VAULT_KEY && key in store then Archived(store, store[key], stamp) - {key} else store - {key}
  }

  lemma {:induction false} KeyFacts()
    ensures IsVaultKey(VAULT_KEY) && !IsHistoryKey(VAULT_KEY)
    ensures IsVaultKey(VAULT_BACKUP_KEY) && !IsHistoryKey(VAULT_BACKUP_KEY) && VAULT_BACKUP_KEY != VAULT_KEY
    ensures VAULT_SEAL_STATUS_KEY != VAULT_KEY && VAULT_SEAL_STATUS_KEY != VAULT_BACKUP_KEY && !IsHistoryKey(VAULT_SEAL_STATUS_KEY)
    ensures IsVaultKey(VAULT_SEAL_STATUS_KEY)
    ensures forall k :: IsHistoryKey(k) ==> IsVaultKey(k)
  {
    assert VAULT_BACKUP_KEY[22] == 'b' && VAULT_HISTORY_PREFIX[22] == 'h';
    assert VAULT_SEAL_STATUS_KEY[21] == 'S' && VAULT_HISTORY_PREFIX[21] == '.';
    assert VAULT_SEAL_STATUS_KEY[21] == 'S' && VAULT_KEY[21] == '.';
    assert VAULT_PREFIX <= VAULT_HISTORY_PREFIX;
  }

  // ----- the guard over histories -----

  datatype Op =
    | Set(key: string, value: string, ks: Keystore, allow: bool, stamp: nat)
    | Remove(key: string, stamp: nat)

  /** The store after an operation that is carried out or refused. */
  function After(store: Store, op: Op): Store {
    match op
    case Set(key, value, ks, allow, stamp) =>
      (match Replaced(store, key, value, Sealed(ks, key, value).0, ks, allow, stamp)
       case Some(next) => next
       case None => store)
    case Remove(key, stamp) => if key in store then Removed(store, key, stamp) else store
  }

  function AfterAll(store: Store, ops: seq<Op>): Store {
    if ops == [] then store else After(AfterAll(store, ops[..|ops| - 1]), ops[|ops| - 1])
  }

  /** The identity of the stored vault. */
  function StoredIdentity(store: Store, decrypt: string -> Option<string>): Option<string> {
    if VAULT_KEY !in store then None
    else match Plain(Keystore(true, false, decrypt, decrypt), VAULT_KEY, store[VAULT_KEY])
      case None => None
      case Some(plain) => IdentityOf(plain)
  }

  /** A write that keeps the rules: no override, and a vault that says whose it is. */
  ghost predicate Ordinary(op: Op, decrypt: string -> Option<string>) {
    match op
    case Set(key, value, ks, allow, _) =>
      ks.decrypt == decrypt && (key == VAULT_KEY ==> !allow && IdentityOf(value).Some?)
    case Remove(key, _) => key != VAULT_KEY
  }

  /** A sealed form is not JSON, so it says nobody's name. */
  lemma {:induction false} SealedNamesNobody(value: string)
    ensures StartsWith(value, SEALED_PREFIX) ==> IdentityOf(value) == None
  {
    if StartsWith(value, SEALED_PREFIX) {
      assert value[0] == SEALED_PREFIX[0] == 's';
      assert SkipWs(value, 0) == 0;
      assert ParseValue(value, 0).Fail?;
    }
  }

  lemma {:induction false} ArchiveKeepsOthers(store: Store, raw: string, stamp: nat, key: string)
    requires !IsHistoryKey(key) && key != VAULT_BACKUP_KEY
    ensures key in Archived(store, raw, stamp) <==> key in store
    ensures key in store ==> Archived(store, raw, stamp)[key] == store[key]
  {
    assert StartsWith(HistoryKey(stamp), VAULT_HISTORY_PREFIX);
  }

  lemma {:induction false} StepKeepsIdentity(store: Store, op: Op, decrypt: string -> Option<string>)
    requires Ordinary(op, decrypt) && StoredIdentity(store, decrypt).Some?
    ensures StoredIdentity(After(store, op), decrypt) == StoredIdentity(store, decrypt)
  {
    KeyFacts();
    match op
    case Set(key, value, ks, allow, stamp) =>
      if key == VAULT_KEY {
        SealedNamesNobody(value);
        SealedOpens(ks, key, value);
      }
    case Remove(key, stamp) =>
  }

  /** Without an override or a removal, no sequence of writes ever changes whose vault is stored. */
  lemma {:induction false} IdentityNeverChanges(store: Store, ops: seq<Op>, decrypt: string -> Option<string>)
    requires forall i :: 0 <= i < |ops| ==> Ordinary(ops[i], decrypt)
    requires StoredIdentity(store, decrypt).Some?
    ensures StoredIdentity(AfterAll(store, ops), decrypt) == StoredIdentity(store, decrypt)
  {
    if ops != [] {
      IdentityNeverChanges(store, ops[..|ops| - 1], decrypt);
      StepKeepsIdentity(AfterAll(store, ops[..|ops| - 1]), ops[|ops| - 1], decrypt);
    }
  }

  /** Between two vaults that say whose they are, and where the old one opens, the guard refuses exactly an unasked change of owner. */
  lemma {:induction false} GuardRefusesExactlyWhen(store: Store, value: string, ks: Keystore, allow: bool, stamp: nat)
    requires StoredIdentity(store, ks.decrypt).Some? && IdentityOf(value).Some? && ks.available
    ensures Replaced(store, VAULT_KEY, value, Sealed(ks, VAULT_KEY, value).0, ks, allow, stamp).None?
            <==> !allow && StoredIdentity(store, ks.decrypt) != IdentityOf(value)
  {
    KeyFacts();
  }

  /** A write the guard lets through stores its own identity; a change of owner was asked for, or one side names none. */
  lemma {:induction false} PassedWriteIsStored(store: Store, value: string, ks: Keystore, allow: bool, stamp: nat)
    requires VAULT_KEY in store && !StartsWith(value, SEALED_PREFIX)
    requires Replaced(store, VAULT_KEY, value, Sealed(ks, VAULT_KEY, value).0, ks, allow, stamp).Some?
    ensures var before := StoredIdentity(store, ks.decrypt);
            var after := StoredIdentity(After(store, Set(VAULT_KEY, value, ks, allow, stamp)), ks.decrypt);
            && after == IdentityOf(value)
            && (before != after ==> allow || before == None || IdentityOf(value) == None)
  {
    KeyFacts();
    SealedOpens(ks, VAULT_KEY, value);
  }

  /** The gap the guard leaves: a vault that names no identity may take any wallet's place, and any may take its. */
  lemma {:induction false} NamelessVaultPassesGuard(first: string, second: string)
    requires IdentityOf(first).Some? && IdentityOf(second).Some?
    ensures GuardAllows(first, "{}", false) && GuardAllows("{}", second, false)
  {
    var text := "{}";
    assert SkipWs(text, 0) == 0 && SkipWs(text, 1) == 1 && SkipWs(text, 2) == 2;
    assert ParseDocument(text) == Some(Obj(map[]));
  }

  // ----- what an overwrite leaves behind -----

  lemma {:induction false} LessCommonPrefix(p: string, a: string, b: string)
    ensures Less(p + a, p + b) <==> Less(a, b)
  {
    if p == "" {
      assert p + a == a && p + b == b;
    } else {
      assert (p + a)[1..] == p[1..] + a && (p + b)[1..] == p[1..] + b;
      LessCommonPrefix(p[1..], a, b);
    }
  }

  lemma {:induction false} LessExtends(a: string, b: string, x: string, y: string)
    requires |a| == |b| && Less(a, b)
    ensures Less(a + x, b + y)
  {
    assert (a + x)[1..] == a[1..] + x && (b + y)[1..] == b[1..] + y;
    if a[0] == b[0] { LessExtends(a[1..], b[1..], x, y); }
  }

  /** Equally long stamps are ordered as text the way they are as numbers. */
  lemma {:induction false} DecimalOrder(a: nat, b: nat)
    requires a < b && |Decimal(a)| == |Decimal(b)|
    ensures Less(Decimal(a), Decimal(b))
  {
    if b >= 10 {
      if a / 10 < b / 10 {
        DecimalOrder(a / 10, b / 10);
        LessExtends(Decimal(a / 10), Decimal(b / 10), [('0' as int + a % 10) as char], [('0' as int + b % 10) as char]);
      } else {
        LessCommonPrefix(Decimal(b / 10), [('0' as int + a % 10) as char], [('0' as int + b % 10) as char]);
      }
    }
  }

  lemma {:induction false} StampOrder(a: nat, b: nat)
    requires a < b && |Decimal(a)| == |Decimal(b)|
    ensures Less(HistoryKey(a), HistoryKey(b))
  {
    DecimalOrder(a, b);
    LessCommonPrefix(VAULT_HISTORY_PREFIX, Decimal(a), Decimal(b));
  }

  /** Every overwrite keeps the replaced vault, word for word, as the backup and, newest of all, in the history. */
  lemma {:induction false} OverwriteKeepsBackup(store: Store, raw: string, stamp: nat)
    requires forall h :: h in store && IsHistoryKey(h) && h != HistoryKey(stamp) ==> Less(h, HistoryKey(stamp))
    ensures var next := Archived(store, raw, stamp);
            && VAULT_BACKUP_KEY in next && next[VAULT_BACKUP_KEY] == raw
            && HistoryKey(stamp) in next && next[HistoryKey(stamp)] == raw
  {
    KeyFacts();
    var full := store[VAULT_BACKUP_KEY := raw][HistoryKey(stamp) := raw];
    assert IsHistoryKey(HistoryKey(stamp));
    forall h | h in full && IsHistoryKey(h) ensures !Less(HistoryKey(stamp), h) {
      LessTotal(h, HistoryKey(stamp));
    }
    assert NewerThan(full, HistoryKey(stamp)) == {};
  }

  ghost predicate HistoryOf(store: Store, keys: seq<string>) {
    && (forall i, j :: 0 <= i < j < |keys| ==> Less(keys[i], keys[j]))
    && (forall k :: k in keys <==> k in store && IsHistoryKey(k))
  }

  lemma {:induction false} NewestHasNoneNewer(store: Store, keys: seq<string>)
    requires HistoryOf(store, keys) && keys != []
    ensures NewerThan(store, keys[|keys| - 1]) == {}
  {
    var last := keys[|keys| - 1];
    forall h | h in keys ensures !Less(last, h) {
      LessTotal(last, h);
    }
  }

  lemma {:induction false} CountNewer(store: Store, keys: seq<string>, i: nat)
    requires HistoryOf(store, keys) && i < |keys|
    ensures |NewerThan(store, keys[i])| == |keys| - 1 - i
    decreases |keys| - i
  {
    if i == |keys| - 1 {
      NewestHasNoneNewer(store, keys);
    } else {
      CountNewer(store, keys, i + 1);
      NewerNext(store, keys, i);
    }
  }

  lemma {:induction false} NewerNext(store: Store, keys: seq<string>, i: nat)
    requires HistoryOf(store, keys) && i + 1 < |keys|
    ensures NewerThan(store, keys[i]) == NewerThan(store, keys[i + 1]) + {keys[i + 1]}
    ensures keys[i + 1] !in NewerThan(store, keys[i + 1])
  {
    LessTotal(keys[i + 1], keys[i + 1]);
    forall h | h in keys ensures Less(keys[i], h) <==> Less(keys[i + 1], h) || h == keys[i + 1] {
      var j :| 0 <= j < |keys| && keys[j] == h;
      LessTotal(keys[i], h);
      LessTotal(keys[i + 1], h);
      if j < i + 1 { assert j == i || Less(keys[j], keys[i]); }
    }
  }

  /** Pruning keeps exactly the last ten of the history, in key order, and nothing else changes. */
  lemma {:induction false} PrunedKeepsNewestTen(store: Store, keys: seq<string>)
    requires HistoryOf(store, keys)
    ensures forall i :: 0 <= i < |keys| ==> (keys[i] in Pruned(store) <==> i >= |keys| - MAX_VAULT_HISTORY)
    ensures forall k :: k in store && !IsHistoryKey(k) ==> k in Pruned(store)
    ensures forall k :: k in Pruned(store) ==> k in store && Pruned(store)[k] == store[k]
  {
    forall i | 0 <= i < |keys| ensures keys[i] in Pruned(store) <==> i >= |keys| - MAX_VAULT_HISTORY {
      CountNewer(store, keys, i);
      assert keys[i] in keys;
    }
  }

  // ----- how long a replaced vault stays -----

  /** An operation that touches no history entry by name, and does not stamp a new one `key`. */
  predicate LeavesHistory(op: Op, key: string) {
    !IsHistoryKey(op.key) && HistoryKey(op.stamp) != key
  }

  lemma {:induction false} ArchiveAgesByOne(store: Store, raw: string, stamp: nat, key: string)
    requires IsHistoryKey(key) && key in store && HistoryKey(stamp) != key
    requires |NewerThan(store, key)| < MAX_VAULT_HISTORY - 1
    ensures var next := Archived(store, raw, stamp);
            && key in next && next[key] == store[key]
            && NewerThan(next, key) <= NewerThan(store, key) + {HistoryKey(stamp)}
            && |NewerThan(next, key)| <= |NewerThan(store, key)| + 1
  {
    KeyFacts();
    var full := store[VAULT_BACKUP_KEY := raw][HistoryKey(stamp) := raw];
    Fewer(NewerThan(full, key), NewerThan(store, key), HistoryKey(stamp));
    Fewer(NewerThan(Pruned(full), key), NewerThan(store, key), HistoryKey(stamp));
  }

  lemma {:induction false} Fewer(a: set<string>, b: set<string>, x: string)
    requires a <= b + {x}
    ensures |a| <= |b| + 1
  {
    var d := a - {x};
    assert d <= b;
    Within(d, b);
    assert a <= d + {x};
    Within(a, d + {x});
  }

  lemma {:induction false} Within(a: set<string>, b: set<string>)
    requires a <= b
    ensures |a| <= |b|
  {
    assert b == a + (b - a);
  }

  /** An operation that puts the stored vault aside: an overwrite the guard passes, or a removal. */
  predicate Archives(store: Store, op: Op) {
    op.key == VAULT_KEY && VAULT_KEY in store
    && (op.Set? ==> Replaced(store, op.key, op.value, Sealed(op.ks, op.key, op.value).0, op.ks, op.allow, op.stamp).Some?)
  }

  /** How many of the operations do. */
  function Agings(store: Store, ops: seq<Op>): nat {
    if ops == [] then 0
    else
      var front := ops[..|ops| - 1];
      Agings(store, front) + if Archives(AfterAll(store, front), ops[|ops| - 1]) then 1 else 0
  }

  lemma {:induction false} OtherStepAgesNone(store: Store, op: Op, key: string)
    requires IsHistoryKey(key) && key in store && LeavesHistory(op, key) && !Archives(store, op)
    ensures var next := After(store, op);
            key in next && next[key] == store[key] && |NewerThan(next, key)| <= |NewerThan(store, key)|
  {
    KeyFacts();
    assert NewerThan(After(store, op), key) <= NewerThan(store, key);
    Within(NewerThan(After(store, op), key), NewerThan(store, key));
  }

  lemma {:induction false} ArchivingStepAgesOne(store: Store, op: Op, key: string)
    requires IsHistoryKey(key) && key in store && LeavesHistory(op, key) && Archives(store, op)
    requires |NewerThan(store, key)| < MAX_VAULT_HISTORY - 1
    ensures var next := After(store, op);
            key in next && next[key] == store[key] && |NewerThan(next, key)| <= |NewerThan(store, key)| + 1
  {
    KeyFacts();
    var next := After(store, op);
    ArchiveAgesByOne(store, store[op.key], op.stamp, key);
    assert NewerThan(next, key) <= NewerThan(store, key) + {HistoryKey(op.stamp)};
    Fewer(NewerThan(next, key), NewerThan(store, key), HistoryKey(op.stamp));
  }

  /** A replaced vault is still in the history, word for word, until ten more were put aside after it. */
  lemma {:induction false} ReplacedVaultStays(store: Store, key: string, ops: seq<Op>)
    requires IsHistoryKey(key) && key in store
    requires forall i :: 0 <= i < |ops| ==> LeavesHistory(ops[i], key)
    requires |NewerThan(store, key)| + Agings(store, ops) < MAX_VAULT_HISTORY
    ensures key in AfterAll(store, ops) && AfterAll(store, ops)[key] == store[key]
    ensures |NewerThan(AfterAll(store, ops), key)| <= |NewerThan(store, key)| + Agings(store, ops)
  {
    if ops != [] {
      var front, op := ops[..|ops| - 1], ops[|ops| - 1];
      ReplacedVaultStays(store, key, front);
      assert LeavesHistory(op, key);
      if Archives(AfterAll(store, front), op) {
        ArchivingStepAgesOne(AfterAll(store, front), op, key);
      } else {
        OtherStepAgesNone(AfterAll(store, front), op, key);
      }
    }
  }

  // ----- the history over a run -----

  /** Stamps that increase and are all equally long, as milliseconds are for centuries. */
  ghost predicate Stamped(ops: seq<Op>) {
    forall i, j :: 0 <= i < j < |ops| ==> ops[i].stamp < ops[j].stamp && |Decimal(ops[i].stamp)| == |Decimal(ops[j].stamp)|
  }

  /** Every history entry on hand is older than this stamp. */
  ghost predicate HistoryBefore(store: Store, stamp: nat) {
    forall h {:trigger IsHistoryKey(h)} :: h in store && IsHistoryKey(h) ==> Less(h, HistoryKey(stamp))
  }

  lemma {:induction false} StepKeepsBefore(store: Store, op: Op, later: nat)
    requires HistoryBefore(store, op.stamp) && !IsHistoryKey(op.key)
    requires op.stamp < later && |Decimal(op.stamp)| == |Decimal(later)|
    ensures HistoryBefore(After(store, op), later)
  {
    KeyFacts();
    StampOrder(op.stamp, later);
    forall h | h in After(store, op) && IsHistoryKey(h) ensures Less(h, HistoryKey(later)) {
      if h != HistoryKey(op.stamp) {
        assert h in store;
        LessTransitive(h, HistoryKey(op.stamp), HistoryKey(later));
      }
    }
  }

  lemma {:induction false} RunKeepsBefore(store: Store, ops: seq<Op>, i: nat)
    requires Stamped(ops) && i < |ops| && (forall k :: 0 <= k < |ops| ==> !IsHistoryKey(ops[k].key))
    requires HistoryBefore(store, ops[0].stamp)
    ensures HistoryBefore(AfterAll(store, ops[..i]), ops[i].stamp)
  {
    if i > 0 {
      RunKeepsBefore(store, ops, i - 1);
      assert ops[..i][..i - 1] == ops[..i - 1];
      StepKeepsBefore(AfterAll(store, ops[..i - 1]), ops[i - 1], ops[i].stamp);
    }
  }

  lemma {:induction false} AfterAllSplit(store: Store, first: seq<Op>, second: seq<Op>)
    ensures AfterAll(store, first + second) == AfterAll(AfterAll(store, first), second)
  {
    if second == [] {
      assert first + second == first;
    } else {
      var all, front := first + second, second[..|second| - 1];
      assert all[..|all| - 1] == first + front && all[|all| - 1] == second[|second| - 1];
      AfterAllSplit(store, first, front);
    }
  }

  /** An operation that puts the vault aside keeps it, word for word, under its own stamp, newest of all, and as the backup. */
  lemma {:induction false} PutAside(store: Store, op: Op)
    requires Archives(store, op) && HistoryBefore(store, op.stamp)
    ensures var next, key := After(store, op), HistoryKey(op.stamp);
            && key in next && next[key] == store[VAULT_KEY] && NewerThan(next, key) == {}
            && VAULT_BACKUP_KEY in next && next[VAULT_BACKUP_KEY] == store[VAULT_KEY]
  {
    KeyFacts();
    var next, key := After(store, op), HistoryKey(op.stamp);
    OverwriteKeepsBackup(store, store[VAULT_KEY], op.stamp);
    assert IsHistoryKey(key);
    forall h | h in next && IsHistoryKey(h) ensures !Less(key, h) {
      LessTotal(h, key);
    }
  }

  /** Stamps after `i` name other entries than `i`'s. */
  lemma {:induction false} LaterLeave(ops: seq<Op>, i: nat, j: nat)
    requires Stamped(ops) && i < j < |ops| && !IsHistoryKey(ops[j].key)
    ensures LeavesHistory(ops[j], HistoryKey(ops[i].stamp))
  {
    StampOrder(ops[i].stamp, ops[j].stamp);
    LessTotal(HistoryKey(ops[i].stamp), HistoryKey(ops[j].stamp));
  }

  /** At its own place in a run an operation that puts the vault aside does so. */
  lemma {:induction false} PutAsideAt(store: Store, ops: seq<Op>, i: nat)
    requires Stamped(ops) && i < |ops| && (forall k :: 0 <= k < |ops| ==> !IsHistoryKey(ops[k].key))
    requires HistoryBefore(store, ops[0].stamp) && Archives(AfterAll(store, ops[..i]), ops[i])
    ensures var after, key := AfterAll(store, ops[..i + 1]), HistoryKey(ops[i].stamp);
            key in after && after[key] == AfterAll(store, ops[..i])[VAULT_KEY] && NewerThan(after, key) == {}
  {
    assert ops[..i + 1][..i] == ops[..i] && ops[..i + 1][i] == ops[i];
    RunKeepsBefore(store, ops, i);
    PutAside(AfterAll(store, ops[..i]), ops[i]);
  }

  lemma {:induction false} RestLeaves(ops: seq<Op>, i: nat)
    requires Stamped(ops) && i < |ops| && (forall k :: 0 <= k < |ops| ==> !IsHistoryKey(ops[k].key))
    ensures var rest := ops[i + 1..]; forall k :: 0 <= k < |rest| ==> LeavesHistory(rest[k], HistoryKey(ops[i].stamp))
  {
    var rest := ops[i + 1..];
    forall k | 0 <= k < |rest| ensures LeavesHistory(rest[k], HistoryKey(ops[i].stamp)) { LaterLeave(ops, i, i + 1 + k); }
  }

  lemma {:induction false} SplitAt(store: Store, ops: seq<Op>, i: nat)
    requires i <= |ops|
    ensures AfterAll(store, ops) == AfterAll(AfterAll(store, ops[..i]), ops[i..])
  {
    AfterAllSplit(store, ops[..i], ops[i..]);
    assert ops[..i] + ops[i..] == ops;
  }

  /**
   * Over any run with increasing stamps, each of the last ten vaults put aside, overwritten or removed,
   * is in the history under its own stamp, word for word.
   */
  lemma {:induction false} LastTenStay(store: Store, ops: seq<Op>, i: nat)
    requires Stamped(ops) && i < |ops| && (forall k :: 0 <= k < |ops| ==> !IsHistoryKey(ops[k].key))
    requires HistoryBefore(store, ops[0].stamp) && Archives(AfterAll(store, ops[..i]), ops[i])
    requires Agings(AfterAll(store, ops[..i + 1]), ops[i + 1..]) < MAX_VAULT_HISTORY
    ensures var key, final := HistoryKey(ops[i].stamp), AfterAll(store, ops);
            key in final && final[key] == AfterAll(store, ops[..i])[VAULT_KEY]
  {
    PutAsideAt(store, ops, i);
    RestLeaves(ops, i);
    assert IsHistoryKey(HistoryKey(ops[i].stamp));
    ReplacedVaultStays(AfterAll(store, ops[..i + 1]), HistoryKey(ops[i].stamp), ops[i + 1..]);
    SplitAt(store, ops, i + 1);
  }

  // ----- the gap in the guard, as a run -----

  /** Two ordinary writes, neither asking for it, after which the stored vault is another's. */
  lemma {:induction false} NamelessVaultChangesOwner(first: string, second: string, ks: Keystore)
    requires IdentityOf(first).Some? && IdentityOf(second).Some? && !CanSeal(ks)
    ensures var ops := [Set(VAULT_KEY, "{}", ks, false, 1), Set(VAULT_KEY, second, ks, false, 2)];
            && StoredIdentity(map[VAULT_KEY := first], ks.decrypt) == IdentityOf(first)
            && StoredIdentity(AfterAll(map[VAULT_KEY := first], ops), ks.decrypt) == IdentityOf(second)
  {
    KeyFacts();
    SealedNamesNobody(first);
    SealedNamesNobody(second);
    NamelessVaultPassesGuard(first, second);
    var s0: Store := map[VAULT_KEY := first];
    var one, two := Set(VAULT_KEY, "{}", ks, false, 1), Set(VAULT_KEY, second, ks, false, 2);
    NoPrefix("{}");
    assert Unseal(ks, VAULT_KEY, first) == Some(first);
    var s1 := After(s0, one);
    assert VAULT_KEY in s1 && s1[VAULT_KEY] == "{}";
    var s2 := After(s1, two);
    assert VAULT_KEY in s2 && s2[VAULT_KEY] == second;
    TwoOps(s0, one, two);
  }

  lemma {:induction false} NoPrefix(text: string)
    requires text == "" || text[0] == '{'
    ensures !StartsWith(text, SEALED_PREFIX)
  {
    assert SEALED_PREFIX[0] == 's';
  }

  lemma {:induction false} TwoOps(store: Store, one: Op, two: Op)
    ensures AfterAll(store, [one, two]) == After(After(store, one), two)
  {
    assert [one, two][..1] == [one] && [one][..0] == [];
    assert AfterAll(store, [one]) == After(AfterAll(store, []), one);
  }
}
