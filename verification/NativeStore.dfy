/**
 * The native shell's store (native-desktop/src/durable.rs): one file a key,
 * long or awkward keys under a hash with a side file that names them, and a
 * cache in front, together behaving as one map.
 */
module NativeFiles {
  import opened Prelude
  import opened JsonText
  import opened Vault

  const HASHED_PREFIX := "h-"
  const KEY_SIDECAR := ".key"
  const TMP_SUFFIX := ".tmp"
  const MAX_PLAIN_NAME := 200
  const NATIVE_SEALED_PREFIX := "sealed:native:v1:"

  type Files = map<string, string>

  /** The map the store stands for; a stored value that does not open is there, and has none to give. */
  type Contents = map<string, Option<string>>

  predicate EndsWith(s: string, suffix: string) {
    |s| >= |suffix| && s[|s| - |suffix|..] == suffix
  }

  predicate IsPlainChar(c: char) {
    'a' <= c <= 'z' || 'A' <= c <= 'Z' || '0' <= c <= '9' || c == '.' || c == '_' || c == '-' || c == ':'
  }

  predicate IsPlainName(key: string) {
    && key != "" && (forall i | 0 <= i < |key| :: IsPlainChar(key[i]))
    && (forall i | 0 <= i < |key| - 1 :: key[i] != '.' || key[i + 1] != '.')
  }

  /** Stored under its own name; such a name's characters are one byte each. */
  predicate IsPlain(key: string) {
    |key| <= MAX_PLAIN_NAME && IsPlainName(key)
  }

  /** The hash in lowercase hex. */
  type Hash = string -> string

  predicate IsHexDigits(s: string) {
    forall i | 0 <= i < |s| :: '0' <= s[i] <= '9' || 'a' <= s[i] <= 'f'
  }

  /** Sixty-four digits, as SHA-256 gives; nothing is asked of keys that are not in use. */
  ghost predicate IsHashing(sha: Hash) {
    forall k :: |sha(k)| == 64 && IsHexDigits(sha(k))
  }

  /** Even one that gives all keys the same digits. */
  lemma {:induction false} HashingExists()
    ensures exists sha: Hash :: IsHashing(sha)
  {
    var sha: Hash := _ => seq(64, _ => '0');
    assert IsHashing(sha);
  }

  /** No other key among `keys` is stored under this one's hash. */
  ghost predicate Own(keys: set<string>, key: string, sha: Hash) {
    forall k :: k in keys && !IsPlain(k) && !IsPlain(key) && sha(k) == sha(key) ==> k == key
  }

  function FileName(key: string, sha: Hash): string {
    if IsPlain(key) then key else HASHED_PREFIX + sha(key)
  }

  function SideName(key: string, sha: Hash): string {
    FileName(key, sha) + KEY_SIDECAR
  }

  function TmpName(key: string, sha: Hash): string {
    FileName(key, sha) + TMP_SUFFIX
  }

  predicate IsTmp(name: string) {
    EndsWith(name, TMP_SUFFIX)
  }

  predicate IsSide(name: string) {
    EndsWith(name, KEY_SIDECAR)
  }

  predicate IsReserved(name: string) {
    StartsWith(name, HASHED_PREFIX) || IsTmp(name) || IsSide(name)
  }

  /** A key the file names can tell from everything else in the folder. */
  predicate Admissible(key: string) {
    key != "" && (IsPlain(key) ==> key != "." && !IsReserved(key))
  }

  // ----- names keep apart -----

  lemma {:induction false} SuffixOf(a: string, suffix: string)
    ensures EndsWith(a + suffix, suffix)
  {
  }

  lemma {:induction false} TmpEnds(name: string)
    ensures IsTmp(name) ==> name != "" && name[|name| - 1] == 'p'
  {
    if IsTmp(name) { assert name[|name| - 1] == name[|name| - |TMP_SUFFIX|..][3]; }
  }

  lemma {:induction false} SideEnds(name: string)
    ensures IsSide(name) ==> name != "" && name[|name| - 1] == 'y'
  {
    if IsSide(name) { assert name[|name| - 1] == name[|name| - |KEY_SIDECAR|..][3]; }
  }

  lemma {:induction false} HashedNameIsData(key: string, sha: Hash)
    requires IsHashing(sha)
    ensures var n := HASHED_PREFIX + sha(key); !IsTmp(n) && !IsSide(n) && StartsWith(n, HASHED_PREFIX)
  {
    var h := sha(key);
    var n := HASHED_PREFIX + h;
    assert n[|n| - 1] == h[|h| - 1];
    TmpEnds(n);
    SideEnds(n);
  }

  lemma {:induction false} DataNames(key: string, sha: Hash)
    requires IsHashing(sha) && Admissible(key)
    ensures !IsTmp(FileName(key, sha)) && !IsSide(FileName(key, sha))
    ensures StartsWith(FileName(key, sha), HASHED_PREFIX) <==> !IsPlain(key)
    ensures IsSide(SideName(key, sha)) && !IsTmp(SideName(key, sha))
    ensures IsTmp(TmpName(key, sha)) && !IsSide(TmpName(key, sha))
  {
    HashedNameIsData(key, sha);
    SuffixOf(FileName(key, sha), KEY_SIDECAR);
    SuffixOf(FileName(key, sha), TMP_SUFFIX);
    TmpEnds(SideName(key, sha));
    SideEnds(SideName(key, sha));
    TmpEnds(TmpName(key, sha));
    SideEnds(TmpName(key, sha));
  }

  /** Different keys have different files, and different side files. */
  lemma {:induction false} NamesApart(a: string, b: string, sha: Hash)
    requires IsHashing(sha) && Admissible(a) && Admissible(b) && a != b && Own({a}, b, sha)
    ensures FileName(a, sha) != FileName(b, sha) && SideName(a, sha) != SideName(b, sha)
  {
    DataNames(a, sha);
    DataNames(b, sha);
    if !IsPlain(a) && !IsPlain(b) {
      assert FileName(a, sha)[2..] == sha(a) && FileName(b, sha)[2..] == sha(b);
    }
    var na, nb := FileName(a, sha), FileName(b, sha);
    assert SideName(a, sha)[..|na|] == na && SideName(b, sha)[..|nb|] == nb;
    assert |SideName(a, sha)| == |na| + 4 && |SideName(b, sha)| == |nb| + 4;
  }

  // ----- the folder -----

  /**
   * What goes wrong with a write: the temp file, the rename, reading the file back, or the side file,
   * which is left as it was or with other text.
   */
  datatype Fault = NoFault | WriteFails(part: string) | RenameFails | ReadBackFails | SideFails(left: Option<string>)

  /** Writing a value under its names: the temp file, the rename, and the side file where the name is a hash. */
  function PutAt(files: Files, name: string, side: string, tmp: string, hashed: bool, key: string, stored: string, fault: Fault): Files {
    var renamed := files[name := stored] - {tmp};
    match fault
    case WriteFails(part) => files[tmp := part]
    case RenameFails => files - {tmp}
    case ReadBackFails => renamed
    case NoFault => if hashed then renamed[side := key] else renamed
    case SideFails(left) => if hashed && left.Some? then renamed[side := left.value] else renamed
  }

  /** Whether the value's file was replaced, and whether the write is reported done. */
  predicate Replaces(fault: Fault) {
    !fault.WriteFails? && !fault.RenameFails?
  }

  predicate Reported(fault: Fault) {
    fault.NoFault? || fault.SideFails?
  }

  function PutTo(files: Files, key: string, stored: string, fault: Fault, sha: Hash): Files {
    PutAt(files, FileName(key, sha), SideName(key, sha), TmpName(key, sha), !IsPlain(key), key, stored, fault)
  }

  /** Which of a key's two files can be unlinked. */
  datatype Unlinks = Unlinks(file: bool, side: bool)

  function RemoveAt(files: Files, name: string, side: string, u: Unlinks): Files {
    files - (if u.file then {name} else {}) - (if u.side then {side} else {})
  }

  function RemoveFrom(files: Files, key: string, u: Unlinks, sha: Hash): Files {
    RemoveAt(files, FileName(key, sha), SideName(key, sha), u)
  }

  /** The key a file in the folder is for, if it holds a key's value. */
  function KeyAt(files: Files, name: string): Option<string>
    requires name in files
  {
    if IsTmp(name) || IsSide(name) then None
    else if StartsWith(name, HASHED_PREFIX) then
      (if name + KEY_SIDECAR in files then Some(files[name + KEY_SIDECAR]) else None)
    else Some(name)
  }

  function ListedKeys(files: Files): set<string> {
    set n | n in files && KeyAt(files, n).Some? :: KeyAt(files, n).value
  }

  datatype Sealer = Sealer(available: bool, seal: string -> Option<string>, unseal: string -> Option<string>)

  predicate IsSealed(raw: string) {
    StartsWith(raw, NATIVE_SEALED_PREFIX)
  }

  function Opened(s: Sealer, raw: string): Option<string> {
    if IsSealed(raw) then s.unseal(raw) else Some(raw)
  }

  function SealIfVault(s: Sealer, key: string, value: string): string {
    if key == VAULT_KEY && !IsSealed(value) && s.available && s.seal(value).Some? && s.unseal(s.seal(value).value) == Some(value)
    then s.seal(value).value else value
  }

  /** What `seal` gives bears the prefix, as the keystore module does it. */
  ghost predicate IsSealing(s: Sealer) {
    forall v :: s.seal(v).Some? ==> IsSealed(s.seal(v).value)
  }

  /** What is put opens to what was given. */
  lemma {:induction false} StoredOpens(s: Sealer, key: string, value: string)
    requires IsSealing(s) && !IsSealed(value)
    ensures Opened(s, SealIfVault(s, key, value)) == Some(value)
  {
  }

  // ----- the map the folder stands for -----

  ghost predicate HoldsAt(files: Files, name: string, side: string, hashed: bool, key: string, value: Option<string>, s: Sealer) {
    && name in files && Opened(s, files[name]) == value
    && (hashed ==> side in files && files[side] == key)
  }

  ghost predicate HoldsKey(files: Files, contents: Contents, sha: Hash, s: Sealer, k: string)
    requires k in contents
  {
    Admissible(k) && HoldsAt(files, FileName(k, sha), SideName(k, sha), !IsPlain(k), k, contents[k], s)
  }

  ghost predicate IsFileOf(contents: Contents, sha: Hash, n: string) {
    exists k :: k in contents && FileName(k, sha) == n
  }

  /** The folder holds exactly the map: every key's value in its file, and no other data file. */
  ghost predicate Stands(files: Files, contents: Contents, sha: Hash, s: Sealer) {
    && (forall k :: k in contents ==> HoldsKey(files, contents, sha, s, k))
    && (forall n {:trigger IsFileOf(contents, sha, n)} {:trigger n in files} :: n in files && !IsTmp(n) && !IsSide(n) ==> IsFileOf(contents, sha, n))
  }

  ghost predicate CacheAgrees(cache: map<string, Option<string>>, contents: Contents) {
    forall k :: k in cache ==> cache[k] == if k in contents then contents[k] else None
  }

  /** None of one key's names is another's. */
  ghost predicate Apart(name: string, side: string, tmp: string, otherName: string, otherSide: string) {
    && otherName != name && otherName != side && otherName != tmp
    && otherSide != name && otherSide != side && otherSide != tmp
  }

  lemma {:induction false} AllApart(key: string, other: string, sha: Hash)
    requires IsHashing(sha) && Admissible(key) && Admissible(other) && other != key && Own({other}, key, sha)
    ensures Apart(FileName(key, sha), SideName(key, sha), TmpName(key, sha), FileName(other, sha), SideName(other, sha))
  {
    DataNames(key, sha);
    DataNames(other, sha);
    NamesApart(other, key, sha);
  }

  lemma {:induction false} SparedHolds(files: Files, after: Files, touched: set<string>, name: string, side: string, hashed: bool, key: string, value: Option<string>, s: Sealer)
    requires HoldsAt(files, name, side, hashed, key, value, s) && name !in touched && side !in touched
    requires forall n :: n !in touched ==> (n in files <==> n in after) && (n in files ==> after[n] == files[n])
    ensures HoldsAt(after, name, side, hashed, key, value, s)
  {
  }

  /** Touching one key's names leaves every other key as it was. */
  lemma {:induction false} OthersHold(files: Files, after: Files, contents: Contents, key: string, sha: Hash, s: Sealer, other: string, next: Contents)
    requires IsHashing(sha) && Admissible(key) && Own(contents.Keys, key, sha)
    requires other in contents && other != key && HoldsKey(files, contents, sha, s, other)
    requires other in next && next[other] == contents[other]
    requires var touched := {FileName(key, sha), SideName(key, sha), TmpName(key, sha)};
             forall n :: n !in touched ==> (n in files <==> n in after) && (n in files ==> after[n] == files[n])
    ensures HoldsKey(after, next, sha, s, other)
  {
    OwnOne(contents.Keys, key, sha, other);
    AllApart(key, other, sha);
    SparedHolds(files, after, {FileName(key, sha), SideName(key, sha), TmpName(key, sha)},
                FileName(other, sha), SideName(other, sha), !IsPlain(other), other, contents[other], s);
  }

  lemma {:induction false} PutAtSpares(files: Files, name: string, side: string, tmp: string, hashed: bool, key: string, stored: string, fault: Fault)
    ensures var after := PutAt(files, name, side, tmp, hashed, key, stored, fault);
            forall n :: n !in {name, side, tmp} ==> (n in files <==> n in after) && (n in files ==> after[n] == files[n])
  {
  }

  lemma {:induction false} FailedPutStands(files: Files, contents: Contents, key: string, stored: string, fault: Fault, sha: Hash, s: Sealer)
    requires IsHashing(sha) && Stands(files, contents, sha, s) && Admissible(key) && !Replaces(fault)
    ensures Stands(PutTo(files, key, stored, fault, sha), contents, sha, s)
  {
    DataNames(key, sha);
    TmpComesAndGoes(files, PutTo(files, key, stored, fault, sha), contents, TmpName(key, sha), sha, s);
  }

  lemma {:induction false} TmpSparesKey(files: Files, after: Files, contents: Contents, tmp: string, sha: Hash, s: Sealer, k: string)
    requires IsHashing(sha) && k in contents && HoldsKey(files, contents, sha, s, k) && IsTmp(tmp)
    requires forall n :: n != tmp ==> (n in files <==> n in after) && (n in files ==> after[n] == files[n])
    ensures HoldsKey(after, contents, sha, s, k)
  {
    DataNames(k, sha);
    SparedHolds(files, after, {tmp}, FileName(k, sha), SideName(k, sha), !IsPlain(k), k, contents[k], s);
  }

  lemma {:induction false} TmpComesAndGoes(files: Files, after: Files, contents: Contents, tmp: string, sha: Hash, s: Sealer)
    requires IsHashing(sha) && Stands(files, contents, sha, s) && IsTmp(tmp)
    requires forall n :: n != tmp ==> (n in files <==> n in after) && (n in files ==> after[n] == files[n])
    ensures Stands(after, contents, sha, s)
  {
    forall k | k in contents ensures HoldsKey(after, contents, sha, s, k) { TmpSparesKey(files, after, contents, tmp, sha, s, k); }
  }

  /** A replaced file whose side file, if it needs one, names the key. */
  ghost predicate SideNames(files: Files, key: string, fault: Fault, sha: Hash) {
    || IsPlain(key) || fault.NoFault? || (fault.SideFails? && fault.left == Some(key))
    || ((fault.ReadBackFails? || fault == SideFails(None)) && SideName(key, sha) in files && files[SideName(key, sha)] == key)
  }

  lemma {:induction false} HoldsOnceReplaced(files: Files, name: string, side: string, tmp: string, hashed: bool, key: string, value: string, stored: string, fault: Fault, s: Sealer)
    requires name != side && name != tmp && side != tmp && Opened(s, stored) == Some(value) && Replaces(fault)
    requires !hashed || fault.NoFault? || (fault.SideFails? && fault.left == Some(key))
             || ((fault.ReadBackFails? || fault == SideFails(None)) && side in files && files[side] == key)
    ensures HoldsAt(PutAt(files, name, side, tmp, hashed, key, stored, fault), name, side, hashed, key, Some(value), s)
  {
  }

  lemma {:induction false} ReplacedHolds(files: Files, key: string, value: string, stored: string, fault: Fault, sha: Hash, s: Sealer)
    requires IsHashing(sha) && Admissible(key) && Opened(s, stored) == Some(value) && Replaces(fault) && SideNames(files, key, fault, sha)
    ensures HoldsAt(PutTo(files, key, stored, fault, sha), FileName(key, sha), SideName(key, sha), !IsPlain(key), key, Some(value), s)
  {
    DataNames(key, sha);
    HoldsOnceReplaced(files, FileName(key, sha), SideName(key, sha), TmpName(key, sha), !IsPlain(key), key, value, stored, fault, s);
  }

  /** Only one key's names touched, and its value there: the folder stands for the map with that key set. */
  lemma {:induction false} StandsWith(files: Files, after: Files, contents: Contents, key: string, value: Option<string>, sha: Hash, s: Sealer)
    requires IsHashing(sha) && Stands(files, contents, sha, s) && Admissible(key) && Own(contents.Keys, key, sha)
    requires HoldsAt(after, FileName(key, sha), SideName(key, sha), !IsPlain(key), key, value, s)
    requires var touched := {FileName(key, sha), SideName(key, sha), TmpName(key, sha)};
             forall n :: n !in touched ==> (n in files <==> n in after) && (n in files ==> after[n] == files[n])
    ensures Stands(after, contents[key := value], sha, s)
  {
    var next := contents[key := value];
    forall k | k in next ensures HoldsKey(after, next, sha, s, k) {
      if k != key { OthersHold(files, after, contents, key, sha, s, k, next); }
    }
    FilesStillOf(files, after, contents, next, key, sha, s);
  }

  lemma {:induction false} PutStands(files: Files, contents: Contents, key: string, value: string, stored: string, fault: Fault, sha: Hash, s: Sealer)
    requires IsHashing(sha) && Stands(files, contents, sha, s) && Admissible(key) && Own(contents.Keys, key, sha)
    requires Opened(s, stored) == Some(value) && Replaces(fault) && SideNames(files, key, fault, sha)
    ensures Stands(PutTo(files, key, stored, fault, sha), contents[key := Some(value)], sha, s)
  {
    PutAtSpares(files, FileName(key, sha), SideName(key, sha), TmpName(key, sha), !IsPlain(key), key, stored, fault);
    ReplacedHolds(files, key, value, stored, fault, sha, s);
    StandsWith(files, PutTo(files, key, stored, fault, sha), contents, key, Some(value), sha, s);
  }

  /** Only one key's names touched, the data files are the old ones and that key's own. */
  lemma {:induction false} FilesStillOf(files: Files, after: Files, contents: Contents, next: Contents, key: string, sha: Hash, s: Sealer)
    requires IsHashing(sha) && Stands(files, contents, sha, s) && Admissible(key) && next.Keys == contents.Keys + {key}
    requires var touched := {FileName(key, sha), SideName(key, sha), TmpName(key, sha)};
             forall n :: n !in touched ==> (n in files <==> n in after) && (n in files ==> after[n] == files[n])
    ensures forall n :: n in after && !IsTmp(n) && !IsSide(n) ==> IsFileOf(next, sha, n)
  {
    DataNames(key, sha);
    forall n | n in after && !IsTmp(n) && !IsSide(n) ensures IsFileOf(next, sha, n) {
      if n == FileName(key, sha) { assert key in next; } else { StillAFile(contents, next, sha, n); }
    }
  }

  /** Folder and cache stand for the map. */
  ghost predicate StandsFor(files: Files, cache: map<string, Option<string>>, contents: Contents, sha: Hash, s: Sealer) {
    IsHashing(sha) && IsSealing(s) && Stands(files, contents, sha, s) && CacheAgrees(cache, contents)
  }

  // ----- which faults the store survives -----

  function NextContents(contents: Contents, key: string, plain: string, fault: Fault): Contents {
    if Replaces(fault) then contents[key := Some(plain)] else contents
  }

  function NextCache(cache: map<string, Option<string>>, key: string, plain: string, fault: Fault): map<string, Option<string>> {
    if Reported(fault) then cache[key := Some(plain)] else cache
  }

  /**
   * A fault the store stays a map under: a temp file or rename that failed; a side file that failed but is right anyway;
   * a file that did not read back, if its key is still listed and the cache holds no other value for it.
   */
  ghost predicate Harmless(files: Files, cache: map<string, Option<string>>, key: string, plain: string, fault: Fault, sha: Hash) {
    Replaces(fault) ==>
      SideNames(files, key, fault, sha) && (fault.ReadBackFails? && key in cache ==> cache[key] == Some(plain))
  }

  lemma {:induction false} HarmlessPutStands(files: Files, cache: map<string, Option<string>>, contents: Contents,
                                             key: string, plain: string, stored: string, fault: Fault, sha: Hash, s: Sealer)
    requires IsHashing(sha) && Stands(files, contents, sha, s) && CacheAgrees(cache, contents) && Admissible(key) && Own(contents.Keys, key, sha)
    requires Opened(s, stored) == Some(plain) && Harmless(files, cache, key, plain, fault, sha)
    ensures Stands(PutTo(files, key, stored, fault, sha), NextContents(contents, key, plain, fault), sha, s)
    ensures CacheAgrees(NextCache(cache, key, plain, fault), NextContents(contents, key, plain, fault))
  {
    if Replaces(fault) {
      PutStands(files, contents, key, plain, stored, fault, sha, s);
    } else {
      FailedPutStands(files, contents, key, stored, fault, sha, s);
    }
  }

  lemma {:induction false} PutKeeps(files: Files, cache: map<string, Option<string>>, contents: Contents,
                                     key: string, plain: string, stored: string, fault: Fault, sha: Hash, s: Sealer)
    requires Admissible(key) && Own(contents.Keys, key, sha) && Opened(s, stored) == Some(plain)
    ensures StandsFor(files, cache, contents, sha, s) && Harmless(files, cache, key, plain, fault, sha) ==>
              StandsFor(PutTo(files, key, stored, fault, sha), NextCache(cache, key, plain, fault), NextContents(contents, key, plain, fault), sha, s)
  {
    if StandsFor(files, cache, contents, sha, s) && Harmless(files, cache, key, plain, fault, sha) {
      HarmlessPutStands(files, cache, contents, key, plain, stored, fault, sha, s);
    }
  }

  lemma {:induction false} ReplacedAt(files: Files, name: string, side: string, tmp: string, hashed: bool, key: string, stored: string, fault: Fault)
    requires name != side && name != tmp && Replaces(fault)
    ensures var after := PutAt(files, name, side, tmp, hashed, key, stored, fault); name in after && after[name] == stored
  {
  }

  lemma {:induction false} ReplacedFile(files: Files, key: string, stored: string, fault: Fault, sha: Hash)
    requires IsHashing(sha) && Admissible(key) && Replaces(fault)
    ensures var after := PutTo(files, key, stored, fault, sha);
            FileName(key, sha) in after && after[FileName(key, sha)] == stored
  {
    DataNames(key, sha);
    ReplacedAt(files, FileName(key, sha), SideName(key, sha), TmpName(key, sha), !IsPlain(key), key, stored, fault);
  }

  lemma {:induction false} RightSideWasNamed(files: Files, key: string, stored: string, fault: Fault, sha: Hash)
    requires IsHashing(sha) && Admissible(key) && Replaces(fault)
    requires var after := PutTo(files, key, stored, fault, sha);
             !IsPlain(key) ==> SideName(key, sha) in after && after[SideName(key, sha)] == key
    ensures SideNames(files, key, fault, sha)
  {
    DataNames(key, sha);
  }

  /** Whatever map a folder stands for after its file was replaced, the key is in it with the new value. */
  lemma {:induction false} ReplacedIsIn(files: Files, key: string, plain: string, stored: string, fault: Fault, sha: Hash, s: Sealer, other: Contents)
    requires IsHashing(sha) && Admissible(key) && Opened(s, stored) == Some(plain) && Replaces(fault)
    requires Stands(PutTo(files, key, stored, fault, sha), other, sha, s) && Own(other.Keys, key, sha)
    ensures key in other && other[key] == Some(plain) && SideNames(files, key, fault, sha)
  {
    ReplacedFile(files, key, stored, fault, sha);
    FileIffKey(PutTo(files, key, stored, fault, sha), other, key, sha, s);
    assert HoldsKey(PutTo(files, key, stored, fault, sha), other, sha, s, key);
    RightSideWasNamed(files, key, stored, fault, sha);
  }

  /** The store stays some map, its cache agreeing, if and only if the fault is harmless. */
  lemma {:induction false} StaysMapExactlyWhen(files: Files, cache: map<string, Option<string>>, contents: Contents,
                                               key: string, plain: string, stored: string, fault: Fault, sha: Hash, s: Sealer)
    requires IsHashing(sha) && Stands(files, contents, sha, s) && CacheAgrees(cache, contents) && Admissible(key) && Own(contents.Keys, key, sha)
    requires Opened(s, stored) == Some(plain)
    ensures (exists other: Contents :: Own(other.Keys, key, sha) && Stands(PutTo(files, key, stored, fault, sha), other, sha, s) && CacheAgrees(NextCache(cache, key, plain, fault), other))
            <==> Harmless(files, cache, key, plain, fault, sha)
  {
    if Harmless(files, cache, key, plain, fault, sha) {
      HarmlessPutStands(files, cache, contents, key, plain, stored, fault, sha, s);
      assert Own(NextContents(contents, key, plain, fault).Keys, key, sha);
    } else {
      forall other: Contents | Own(other.Keys, key, sha) && Stands(PutTo(files, key, stored, fault, sha), other, sha, s)
        ensures !CacheAgrees(NextCache(cache, key, plain, fault), other)
      {
        ReplacedIsIn(files, key, plain, stored, fault, sha, s, other);
      }
    }
  }

  lemma {:induction false} StillAFile(contents: Contents, next: Contents, sha: Hash, n: string)
    requires IsFileOf(contents, sha, n) && contents.Keys <= next.Keys
    ensures IsFileOf(next, sha, n)
  {
    var k :| k in contents && FileName(k, sha) == n;
    assert k in next;
  }

  function RemovedContents(contents: Contents, key: string, u: Unlinks): Contents {
    if u.file then contents - {key} else contents
  }

  /** A removal the store stays a map under: the file is gone, or it is still listed, and does not open anyway. */
  predicate HarmlessRemoval(contents: Contents, key: string, u: Unlinks) {
    key in contents && !u.file ==> contents[key] == None && (IsPlain(key) || !u.side)
  }

  lemma {:induction false} RemoveAtSpares(files: Files, name: string, side: string, tmp: string, u: Unlinks)
    ensures var after := RemoveAt(files, name, side, u);
            forall n :: n !in {name, side, tmp} ==> (n in files <==> n in after) && (n in files ==> after[n] == files[n])
  {
  }

  lemma {:induction false} LeftHolds(files: Files, name: string, side: string, hashed: bool, key: string, value: Option<string>, u: Unlinks, s: Sealer)
    requires HoldsAt(files, name, side, hashed, key, value, s) && name != side && !u.file && (!hashed || !u.side)
    ensures HoldsAt(RemoveAt(files, name, side, u), name, side, hashed, key, value, s)
  {
  }

  lemma {:induction false} RemoveSpares(files: Files, contents: Contents, key: string, u: Unlinks, sha: Hash, s: Sealer, k: string)
    requires IsHashing(sha) && Stands(files, contents, sha, s) && Admissible(key) && Own(contents.Keys, key, sha)
    requires k in RemovedContents(contents, key, u) && HarmlessRemoval(contents, key, u)
    ensures HoldsKey(RemoveFrom(files, key, u, sha), RemovedContents(contents, key, u), sha, s, k)
  {
    assert HoldsKey(files, contents, sha, s, k);
    if k == key {
      LongerWithSuffix(FileName(key, sha));
      LeftHolds(files, FileName(key, sha), SideName(key, sha), !IsPlain(key), key, contents[key], u, s);
    } else {
      RemoveAtSpares(files, FileName(key, sha), SideName(key, sha), TmpName(key, sha), u);
      OthersHold(files, RemoveFrom(files, key, u, sha), contents, key, sha, s, k, RemovedContents(contents, key, u));
    }
  }

  lemma {:induction false} RemoveStands(files: Files, cache: map<string, Option<string>>, contents: Contents, key: string, u: Unlinks, sha: Hash, s: Sealer)
    requires IsHashing(sha) && Stands(files, contents, sha, s) && Admissible(key) && Own(contents.Keys, key, sha)
    requires CacheAgrees(cache, contents) && HarmlessRemoval(contents, key, u)
    ensures Stands(RemoveFrom(files, key, u, sha), RemovedContents(contents, key, u), sha, s)
    ensures CacheAgrees(cache[key := None], RemovedContents(contents, key, u))
  {
    var after, next := RemoveFrom(files, key, u, sha), RemovedContents(contents, key, u);
    forall k | k in next ensures HoldsKey(after, next, sha, s, k) { RemoveSpares(files, contents, key, u, sha, s, k); }
    forall n | n in after && !IsTmp(n) && !IsSide(n) ensures IsFileOf(next, sha, n) {
      assert IsFileOf(contents, sha, n);
      var k :| k in contents && FileName(k, sha) == n;
      assert k in next;
    }
  }

  lemma {:induction false} RemoveKeeps(files: Files, cache: map<string, Option<string>>, contents: Contents, key: string, u: Unlinks, sha: Hash, s: Sealer)
    requires Admissible(key) && Own(contents.Keys, key, sha)
    ensures StandsFor(files, cache, contents, sha, s) && HarmlessRemoval(contents, key, u) ==>
              StandsFor(RemoveFrom(files, key, u, sha), cache[key := None], RemovedContents(contents, key, u), sha, s)
  {
    if StandsFor(files, cache, contents, sha, s) && HarmlessRemoval(contents, key, u) { RemoveStands(files, cache, contents, key, u, sha, s); }
  }

  /** Whatever map a folder stands for after the key's file was left, the key is in it, listed, with its old value. */
  lemma {:induction false} LeftFileIsListed(files: Files, cache: map<string, Option<string>>, contents: Contents, key: string, u: Unlinks, sha: Hash, s: Sealer, other: Contents)
    requires IsHashing(sha) && Stands(files, contents, sha, s) && Admissible(key) && Own(contents.Keys, key, sha)
    requires !HarmlessRemoval(contents, key, u) && Own(other.Keys, key, sha) && Stands(RemoveFrom(files, key, u, sha), other, sha, s)
    ensures !CacheAgrees(cache[key := None], other)
  {
    var after := RemoveFrom(files, key, u, sha);
    DataNames(key, sha);
    FileIffKey(files, contents, key, sha, s);
    FileIffKey(after, other, key, sha, s);
    assert HoldsKey(after, other, sha, s, key);
  }

  /** After a removal the store stays some map, its cache agreeing, if and only if the removal is harmless. */
  lemma {:induction false} RemovalStaysMapExactlyWhen(files: Files, cache: map<string, Option<string>>, contents: Contents,
                                                      key: string, u: Unlinks, sha: Hash, s: Sealer)
    requires IsHashing(sha) && Stands(files, contents, sha, s) && CacheAgrees(cache, contents) && Admissible(key) && Own(contents.Keys, key, sha)
    ensures (exists other: Contents :: Own(other.Keys, key, sha) && Stands(RemoveFrom(files, key, u, sha), other, sha, s) && CacheAgrees(cache[key := None], other))
            <==> HarmlessRemoval(contents, key, u)
  {
    if HarmlessRemoval(contents, key, u) {
      RemoveStands(files, cache, contents, key, u, sha, s);
      assert Own(RemovedContents(contents, key, u).Keys, key, sha);
    } else {
      forall other: Contents | Own(other.Keys, key, sha) && Stands(RemoveFrom(files, key, u, sha), other, sha, s)
        ensures !CacheAgrees(cache[key := None], other)
      {
        LeftFileIsListed(files, cache, contents, key, u, sha, s, other);
      }
    }
  }

  lemma {:induction false} SameNameSameKey(a: string, b: string, sha: Hash)
    requires IsHashing(sha) && Admissible(a) && Admissible(b) && Own({a}, b, sha) && FileName(a, sha) == FileName(b, sha)
    ensures a == b
  {
    if a != b { NamesApart(a, b, sha); }
  }

  lemma {:induction false} OwnerOf(files: Files, contents: Contents, n: string, sha: Hash, s: Sealer) returns (k: string)
    requires Stands(files, contents, sha, s) && n in files && !IsTmp(n) && !IsSide(n)
    ensures k in contents && FileName(k, sha) == n && Admissible(k)
  {
    assert IsFileOf(contents, sha, n);
    k :| k in contents && FileName(k, sha) == n;
    assert HoldsKey(files, contents, sha, s, k);
  }

  lemma {:induction false} OwnOne(keys: set<string>, key: string, sha: Hash, k: string)
    requires Own(keys, key, sha) && k in keys
    ensures Own({k}, key, sha)
  {
  }

  lemma {:induction false} KeyOfFile(files: Files, contents: Contents, key: string, sha: Hash, s: Sealer)
    requires IsHashing(sha) && Stands(files, contents, sha, s) && Admissible(key) && Own(contents.Keys, key, sha) && FileName(key, sha) in files
    ensures key in contents
  {
    DataNames(key, sha);
    var k := OwnerOf(files, contents, FileName(key, sha), sha, s);
    OwnOne(contents.Keys, key, sha, k);
    SameNameSameKey(k, key, sha);
  }

  /** A key is in the map exactly when its file is in the folder. */
  lemma {:induction false} FileIffKey(files: Files, contents: Contents, key: string, sha: Hash, s: Sealer)
    requires IsHashing(sha) && Stands(files, contents, sha, s) && Admissible(key) && Own(contents.Keys, key, sha)
    ensures FileName(key, sha) in files <==> key in contents
    ensures key in contents ==> Opened(s, files[FileName(key, sha)]) == contents[key]
  {
    if FileName(key, sha) in files { KeyOfFile(files, contents, key, sha, s); }
    if key in contents { assert HoldsKey(files, contents, sha, s, key); }
  }

  /** Keys already held have hashes of their own: their side file can name only one of them. */
  lemma {:induction false} HeldKeysOwn(files: Files, contents: Contents, sha: Hash, s: Sealer)
    requires Stands(files, contents, sha, s)
    ensures forall k :: k in contents ==> Own(contents.Keys, k, sha)
  {
    forall j, k | j in contents && k in contents && !IsPlain(j) && !IsPlain(k) && sha(j) == sha(k) ensures j == k {
      assert HoldsKey(files, contents, sha, s, j) && HoldsKey(files, contents, sha, s, k);
      assert SideName(j, sha) == SideName(k, sha);
    }
  }

  lemma {:induction false} KeyOfData(files: Files, contents: Contents, k: string, sha: Hash, s: Sealer)
    requires IsHashing(sha) && Stands(files, contents, sha, s) && k in contents
    ensures FileName(k, sha) in files && KeyAt(files, FileName(k, sha)) == Some(k)
  {
    assert HoldsKey(files, contents, sha, s, k);
    DataNames(k, sha);
  }

  /** The folder lists exactly the map's keys. */
  lemma {:induction false} ListedAreKeys(files: Files, contents: Contents, sha: Hash, s: Sealer)
    requires IsHashing(sha) && Stands(files, contents, sha, s)
    ensures ListedKeys(files) == contents.Keys
  {
    forall k | k in contents ensures k in ListedKeys(files) { KeyOfData(files, contents, k, sha, s); }
    forall n | n in files && KeyAt(files, n).Some? ensures KeyAt(files, n).value in contents {
      assert IsFileOf(contents, sha, n);
      var k :| k in contents && FileName(k, sha) == n;
      KeyOfData(files, contents, k, sha, s);
    }
  }

  /** No two data files are for the same key. */
  lemma {:induction false} OneFileAKey(files: Files, contents: Contents, sha: Hash, s: Sealer, m: string, n: string)
    requires IsHashing(sha) && Stands(files, contents, sha, s) && m in files && n in files
    requires KeyAt(files, m).Some? && KeyAt(files, m) == KeyAt(files, n)
    ensures m == n
  {
    assert IsFileOf(contents, sha, m) && IsFileOf(contents, sha, n);
    var j :| j in contents && FileName(j, sha) == m;
    var k :| k in contents && FileName(k, sha) == n;
    KeyOfData(files, contents, j, sha, s);
    KeyOfData(files, contents, k, sha, s);
  }

  /** Exactly the admissible keys can be put in an empty folder and listed again; the rest are lost from the list. */
  lemma {:induction false} ListedExactlyWhen(key: string, stored: string, sha: Hash)
    requires IsHashing(sha) && key != "" && key != "."
    ensures ListedKeys(PutTo(map[], key, stored, NoFault, sha)) == {key} <==> Admissible(key)
  {
    var none: Files := map[];
    var files := PutTo(none, key, stored, NoFault, sha);
    var name := FileName(key, sha);
    if Admissible(key) {
      DataNames(key, sha);
      assert files.Keys == if IsPlain(key) then {name} else {name, SideName(key, sha)};
      assert KeyAt(files, name) == Some(key);
      assert !IsPlain(key) ==> KeyAt(files, SideName(key, sha)) == None;
      assert key in ListedKeys(files);
    } else {
      LongerWithSuffix(key);
      assert files.Keys == {key};
      assert key + KEY_SIDECAR !in files;
      assert KeyAt(files, key) == None;
      assert ListedKeys(files) == {};
    }
  }

  /** What putting one key after another leaves. */
  function BothPut(a: string, x: string, b: string, y: string, sha: Hash): Files {
    PutTo(PutTo(map[], a, x, NoFault, sha), b, y, NoFault, sha)
  }

  lemma {:induction false} BothListed(a: string, x: string, b: string, y: string, sha: Hash, s: Sealer)
    requires IsHashing(sha) && Admissible(a) && Admissible(b) && a != b && Own({a}, b, sha)
    requires !IsSealed(x) && !IsSealed(y)
    ensures ListedKeys(BothPut(a, x, b, y, sha)) == {a, b}
  {
    var none: Files := map[];
    var nothing: Contents := map[];
    PutStands(none, nothing, a, x, x, NoFault, sha, s);
    PutStands(PutTo(none, a, x, NoFault, sha), nothing[a := Some(x)], b, y, y, NoFault, sha, s);
    ListedAreKeys(BothPut(a, x, b, y, sha), nothing[a := Some(x)][b := Some(y)], sha, s);
  }

  lemma {:induction false} SecondOverwrites(name: string, side: string, tmp: string, a: string, x: string, b: string, y: string)
    requires name != side && tmp != name && tmp != side
    ensures PutAt(PutAt(map[], name, side, tmp, true, a, x, NoFault), name, side, tmp, true, b, y, NoFault) == map[name := y, side := b]
  {
  }

  lemma {:induction false} OnlyOneListed(name: string, y: string, b: string)
    requires !IsTmp(name) && !IsSide(name) && StartsWith(name, HASHED_PREFIX) && IsSide(name + KEY_SIDECAR) && name != name + KEY_SIDECAR
    ensures ListedKeys(map[name := y, name + KEY_SIDECAR := b]) == {b}
  {
    var files: Files := map[name := y, name + KEY_SIDECAR := b];
    assert KeyAt(files, name) == Some(b) && KeyAt(files, name + KEY_SIDECAR) == None;
  }

  lemma {:induction false} FirstGone(a: string, x: string, b: string, y: string, sha: Hash)
    requires IsHashing(sha) && Admissible(a) && Admissible(b) && a != b && !Own({a}, b, sha)
    ensures ListedKeys(BothPut(a, x, b, y, sha)) == {b}
  {
    DataNames(b, sha);
    assert FileName(a, sha) == FileName(b, sha) && !IsPlain(a) && !IsPlain(b);
    LongerWithSuffix(FileName(b, sha));
    SecondOverwrites(FileName(b, sha), SideName(b, sha), TmpName(b, sha), a, x, b, y);
    OnlyOneListed(FileName(b, sha), y, b);
  }

  /** Two keys put in an empty folder are both listed if and only if they do not share a hash; else the first is gone. */
  lemma {:induction false} BothListedExactlyWhen(a: string, x: string, b: string, y: string, sha: Hash, s: Sealer)
    requires IsHashing(sha) && Admissible(a) && Admissible(b) && a != b
    requires !IsSealed(x) && !IsSealed(y)
    ensures ListedKeys(BothPut(a, x, b, y, sha)) == {a, b} <==> Own({a}, b, sha)
  {
    if Own({a}, b, sha) { BothListed(a, x, b, y, sha, s); } else { FirstGone(a, x, b, y, sha); }
  }

  lemma {:induction false} LongerWithSuffix(key: string)
    ensures key + KEY_SIDECAR != key && key + TMP_SUFFIX != key
  {
    assert |key + KEY_SIDECAR| > |key| && |key + TMP_SUFFIX| > |key|;
  }

  // ----- the vault guard -----

  /** `identityKey` of a JSON text, empty where it has none, nothing where it is no JSON. */
  function IdentityKey(text: string): Option<string> {
    match ParseDocument(text)
    case None => None
    case Some(j) => Some(if Identity(j).Some? then Identity(j).value else "")
  }

  predicate VaultReplaceAllowed(previous: string, next: string, allow: bool) {
    && IdentityKey(previous).Some? && IdentityKey(next).Some?
    && (IdentityKey(previous).value == "" || IdentityKey(next).value == "" || IdentityKey(previous) == IdentityKey(next) || allow)
  }

  /** Whether a write is stopped by a stored vault that opens to `previous`, or does not open. */
  predicate NativeStops(previous: Option<string>, value: string, allow: bool) {
    previous.Some? && previous.value != value && !VaultReplaceAllowed(previous.value, value, allow)
  }

  // ----- the map's own rules -----

  /** What becomes of one call's writes: the value's, the seal status's, and the unlinking of a removal. */
  datatype Faults = Faults(write: Fault, status: Fault, unlinks: Unlinks)

  /**
   * What a plain map makes of a set: an empty value removes, the vault is guarded, and saving it records how it was
   * sealed. The answer is the write's own report.
   */
  function MapSet(contents: Contents, key: string, value: string, allow: bool, sealed: bool, f: Faults): (Contents, bool) {
    if key == "" then (contents, false)
    else if value == "" then (RemovedContents(contents, key, f.unlinks), true)
    else if key == VAULT_KEY && key in contents && NativeStops(contents[key], value, allow) then (contents, false)
    else
      var next := NextContents(contents, key, value, f.write);
      (if key == VAULT_KEY && Reported(f.write) then NextContents(next, VAULT_SEAL_STATUS_KEY, StatusText(sealed), f.status) else next, Reported(f.write))
  }

  function StatusText(sealed: bool): string {
    if sealed then "sealed" else "unsealed"
  }

  function GotCache(cache: map<string, Option<string>>, contents: Contents, key: string): map<string, Option<string>> {
    if key in contents then cache[key := contents[key]] else cache
  }

  lemma {:induction false} GotAgrees(cache: map<string, Option<string>>, contents: Contents, key: string)
    requires CacheAgrees(cache, contents)
    ensures CacheAgrees(GotCache(cache, contents, key), contents)
    ensures key in cache ==> GotCache(cache, contents, key) == cache
  {
  }

  /** A set whose every write or removal is harmless; the guard has cached the vault it looked at. */
  ghost predicate HarmlessSet(files: Files, cache: map<string, Option<string>>, contents: Contents, key: string, value: string, allow: bool, stored: string, f: Faults, sha: Hash) {
    if key == "" then true
    else if value == "" then HarmlessRemoval(contents, key, f.unlinks)
    else if key != VAULT_KEY then Harmless(files, cache, key, value, f.write, sha)
    else if key in contents && NativeStops(contents[key], value, allow) then true
    else
      var got := GotCache(cache, contents, key);
      && Harmless(files, got, key, value, f.write, sha)
      && (Reported(f.write) ==>
            Harmless(PutTo(files, key, stored, f.write, sha), NextCache(got, key, value, f.write), VAULT_SEAL_STATUS_KEY, StatusText(IsSealed(stored)), f.status, sha))
  }
}

module NativeStores {
  import opened Prelude
  import opened Vault
  import opened NativeFiles

  class NativeStore {
    const sha: Hash
    const sealer: Sealer
    var files: Files
    var cache: map<string, Option<string>>
    var vaultOpenError: bool
    /** The map the folder and the cache stand for. */
    ghost var contents: Contents

    ghost predicate Valid()
      reads this
    {
      StandsFor(files, cache, contents, sha, sealer)
    }

    constructor (files: Files, sha: Hash, sealer: Sealer, ghost contents: Contents)
      requires IsHashing(sha) && IsSealing(sealer) && Stands(files, contents, sha, sealer)
      ensures Valid() && this.contents == contents && this.files == files && this.sha == sha && this.sealer == sealer
    {
      this.files, this.sha, this.sealer, this.contents := files, sha, sealer, contents;
      cache := map[];
      vaultOpenError := false;
    }

    /** A restart: the cache is gone, and no answer changes. */
    method DropCache()
      requires Valid()
      modifies this`cache
      ensures Valid() && cache == map[]
    {
      cache := map[];
    }

    method Get(key: string) returns (value: Option<string>)
      requires Valid() && (key != "" ==> Admissible(key) && Own(contents.Keys, key, sha))
      modifies this`cache, this`vaultOpenError
      ensures Valid() && value == if key in contents then contents[key] else None
      ensures cache == GotCache(old(cache), contents, key)
    {
      if key == "" {
        assert key in contents ==> HoldsKey(files, contents, sha, sealer, key);
        return None;
      }
      GotAgrees(cache, contents, key);
      if key in cache { return cache[key]; }
      FileIffKey(files, contents, key, sha, sealer);
      var name := FileName(key, sha);
      if name !in files { return None; }
      value := Opened(sealer, files[name]);
      if key == VAULT_KEY { vaultOpenError := value.None?; }
      cache := cache[key := value];
    }

    /** Stores a value; where the fault is harmless the folder and the cache still stand for one map. */
    method Put(key: string, stored: string, plain: string, fault: Fault) returns (ok: bool)
      requires Admissible(key) && Own(contents.Keys, key, sha) && plain != "" && Opened(sealer, stored) == Some(plain)
      modifies this`files, this`cache, this`contents
      ensures ok == Reported(fault) && files == PutTo(old(files), key, stored, fault, sha)
      ensures cache == NextCache(old(cache), key, plain, fault) && contents == NextContents(old(contents), key, plain, fault)
      ensures old(Valid()) && Harmless(old(files), old(cache), key, plain, fault, sha) ==> Valid()
    {
      LongerWithSuffix(FileName(key, sha));
      PutKeeps(files, cache, contents, key, plain, stored, fault, sha, sealer);
      ok := WriteFile(FileName(key, sha), SideName(key, sha), TmpName(key, sha), !IsPlain(key), key, stored, fault);
      if ok { cache := cache[key := Some(plain)]; }
      contents := NextContents(contents, key, plain, fault);
    }

    method WriteFile(name: string, side: string, tmp: string, hashed: bool, key: string, stored: string, fault: Fault) returns (ok: bool)
      requires tmp != name && side != name
      modifies this`files
      ensures ok == Reported(fault) && files == PutAt(old(files), name, side, tmp, hashed, key, stored, fault)
    {
      files := files[tmp := if fault.WriteFails? then fault.part else stored];
      if fault.WriteFails? { return false; }
      if fault.RenameFails? {
        files := files - {tmp};
        return false;
      }
      files := files[name := files[tmp]] - {tmp};
      if fault.ReadBackFails? || files[name] != stored { return false; }
      if hashed {
        // a side file that cannot be written is not reported
        if !fault.SideFails? {
          files := files[side := key];
        } else if fault.left.Some? {
          files := files[side := fault.left.value];
        }
      }
      ok := true;
    }

    /** Removes a key, whether it is there or not; where the removal is harmless folder and cache still stand for one map. */
    method Remove(key: string, u: Unlinks) returns (ok: bool)
      requires key != "" ==> Admissible(key) && Own(contents.Keys, key, sha)
      modifies this`files, this`cache, this`contents
      ensures ok == (key != "")
      ensures key == "" ==> files == old(files) && cache == old(cache) && contents == old(contents)
      ensures key != "" ==> files == RemoveFrom(old(files), key, u, sha) && cache == old(cache)[key := None] && contents == RemovedContents(old(contents), key, u)
      ensures old(Valid()) && (key != "" ==> HarmlessRemoval(old(contents), key, u)) ==> Valid()
    {
      if key == "" { return false; }
      RemoveKeeps(files, cache, contents, key, u, sha, sealer);
      UnlinkBoth(FileName(key, sha), SideName(key, sha), u);
      cache := cache[key := None];
      contents := RemovedContents(contents, key, u);
      ok := true;
    }

    method UnlinkBoth(name: string, side: string, u: Unlinks)
      modifies this`files
      ensures files == RemoveAt(old(files), name, side, u)
    {
      if u.file { files := files - {name}; }
      if u.side { files := files - {side}; }
    }

    /** Whether the vault guard stops a write. */
    method GuardStops(key: string, value: string, allow: bool) returns (stops: bool)
      requires Valid() && Admissible(key) && Own(contents.Keys, key, sha)
      modifies this`cache, this`vaultOpenError
      ensures Valid() && stops == (key == VAULT_KEY && key in contents && NativeStops(contents[key], value, allow))
      ensures cache == if key == VAULT_KEY then GotCache(old(cache), contents, key) else old(cache)
    {
      if key != VAULT_KEY { return false; }
      var previous := Get(key);
      stops := previous.Some? && NativeStops(previous, value, allow);
    }

    /** What a plain map does under each fault; where none does harm the folder and the cache still stand for it. */
    method Set(key: string, value: string, allow: bool, f: Faults) returns (ok: bool)
      requires Valid() && (key != "" ==> Admissible(key) && Own(contents.Keys, key, sha)) && !IsSealed(value)
      modifies this
      ensures (contents, ok) == MapSet(old(contents), key, value, allow, IsSealed(SealIfVault(sealer, key, value)), f)
      ensures HarmlessSet(old(files), old(cache), old(contents), key, value, allow, SealIfVault(sealer, key, value), f, sha) ==> Valid()
    {
      if key == "" { return false; }
      if value == "" {
        ok := Remove(key, f.unlinks);
        return;
      }
      var stops := GuardStops(key, value, allow);
      if stops { return false; }
      StoredOpens(sealer, key, value);
      var stored := SealIfVault(sealer, key, value);
      ok := Put(key, stored, value, f.write);
      if ok && key == VAULT_KEY {
        vaultOpenError := false;
        RecordStatus(StatusText(IsSealed(stored)), f.status);
      }
    }

    method RecordStatus(status: string, fault: Fault)
      requires status == "sealed" || status == "unsealed"
      modifies this`files, this`cache, this`contents
      ensures contents == NextContents(old(contents), VAULT_SEAL_STATUS_KEY, status, fault)
      ensures old(Valid()) && Harmless(old(files), old(cache), VAULT_SEAL_STATUS_KEY, status, fault, sha) ==> Valid()
    {
      StatusIsPlain(status);
      var _ := Put(VAULT_SEAL_STATUS_KEY, status, status, fault);
    }

    /** The keys, each once, in the order the folder is listed in. */
    method Keys() returns (keys: seq<string>)
      requires Valid()
      ensures Elements(keys) == contents.Keys && NoDup(keys)
    {
      keys := KeysIn(files, contents, sha, sealer);
    }

    static method KeysIn(folder: Files, ghost held: Contents, ghost sha: Hash, ghost sealer: Sealer) returns (keys: seq<string>)
      requires IsHashing(sha) && Stands(folder, held, sha, sealer)
      ensures Elements(keys) == held.Keys && NoDup(keys)
    {
      keys := [];
      var todo := folder.Keys;
      while todo != {}
        invariant todo <= folder.Keys
        invariant Elements(keys) == ListedOf(folder, folder.Keys - todo) && NoDup(keys)
        decreases todo
      {
        var name :| name in todo;
        var key := KeyAt(folder, name);
        OneMoreListed(folder, held, folder.Keys - todo, name, sha, sealer);
        if key.Some? {
          ElementsGrow(keys, key.value);
          keys := keys + [key.value];
        }
        assert folder.Keys - (todo - {name}) == (folder.Keys - todo) + {name};
        todo := todo - {name};
      }
      AllListed(folder, held, sha, sealer);
      assert folder.Keys - todo == folder.Keys;
    }

    /** Removes every key, and says how many there were; those whose file could not be unlinked stay. */
    method WipeAll(unlinks: string -> Unlinks) returns (n: nat)
      requires Valid()
      modifies this`files, this`cache, this`contents
      ensures n == |old(contents)| && contents == Left(old(contents), {}, unlinks)
      ensures AllHarmless(old(contents), unlinks) ==> Valid()
    {
      var keys := Keys();
      ghost var held := contents;
      AllAdmissible(files, contents, sha, sealer);
      HeldKeysOwn(files, contents, sha, sealer);
      n := 0;
      assert keys[0..] == keys;
      for i := 0 to |keys|
        invariant n == i && contents == Left(held, Elements(keys[i..]), unlinks)
        invariant AllHarmless(held, unlinks) ==> Valid()
      {
        ElementsShrink(keys, i);
        assert keys[i] in Elements(keys) && keys[i] in Elements(keys[i..]);
        OneLess(held, Elements(keys[i..]), unlinks, keys[i]);
        var ok := Remove(keys[i], unlinks(keys[i]));
        n := n + 1;
      }
      CountKeys(keys, held);
    }
  }

  /** What is left of a map when the keys not still `todo` were removed. */
  function Left(held: Contents, todo: set<string>, unlinks: string -> Unlinks): Contents {
    map k | k in held && (k in todo || !unlinks(k).file) :: held[k]
  }

  ghost predicate AllHarmless(held: Contents, unlinks: string -> Unlinks) {
    forall k :: k in held ==> HarmlessRemoval(held, k, unlinks(k))
  }

  lemma {:induction false} OneLess(held: Contents, todo: set<string>, unlinks: string -> Unlinks, key: string)
    requires key in todo && key in held
    ensures Left(held, todo, unlinks).Keys <= held.Keys
    ensures RemovedContents(Left(held, todo, unlinks), key, unlinks(key)) == Left(held, todo - {key}, unlinks)
    ensures AllHarmless(held, unlinks) ==> HarmlessRemoval(Left(held, todo, unlinks), key, unlinks(key))
  {
  }

  function Elements(keys: seq<string>): set<string> {
    set k | k in keys
  }

  lemma {:induction false} ElementsGrow(keys: seq<string>, key: string)
    requires NoDup(keys) && key !in Elements(keys)
    ensures Elements(keys + [key]) == Elements(keys) + {key} && NoDup(keys + [key])
  {
    assert key !in keys;
  }

  lemma {:induction false} ElementsShrink(keys: seq<string>, i: nat)
    requires NoDup(keys) && i < |keys|
    ensures Elements(keys[i..]) - {keys[i]} == Elements(keys[i + 1..])
  {
    assert keys[i..] == [keys[i]] + keys[i + 1..];
    assert keys[i] !in keys[i + 1..];
  }

  function ListedOf(files: Files, done: set<string>): set<string> {
    set n | n in files && n in done && KeyAt(files, n).Some? :: KeyAt(files, n).value
  }

  lemma {:induction false} OneMoreListed(files: Files, contents: Contents, done: set<string>, name: string, sha: Hash, s: Sealer)
    requires IsHashing(sha) && Stands(files, contents, sha, s) && name in files && name !in done
    ensures var key := KeyAt(files, name);
            && (key.None? ==> ListedOf(files, done + {name}) == ListedOf(files, done))
            && (key.Some? ==> ListedOf(files, done + {name}) == ListedOf(files, done) + {key.value} && key.value !in ListedOf(files, done))
  {
    var key := KeyAt(files, name);
    if key.Some? && key.value in ListedOf(files, done) {
      var n :| n in files && n in done && KeyAt(files, n) == key;
      OneFileAKey(files, contents, sha, s, n, name);
    }
  }

  lemma {:induction false} AllListed(files: Files, contents: Contents, sha: Hash, s: Sealer)
    requires IsHashing(sha) && Stands(files, contents, sha, s)
    ensures ListedOf(files, files.Keys) == contents.Keys
  {
    ListedAreKeys(files, contents, sha, s);
    assert ListedOf(files, files.Keys) == ListedKeys(files);
  }

  lemma {:induction false} AllAdmissible(files: Files, contents: Contents, sha: Hash, s: Sealer)
    requires Stands(files, contents, sha, s)
    ensures forall k :: k in contents ==> Admissible(k)
  {
    forall k | k in contents ensures Admissible(k) { assert HoldsKey(files, contents, sha, s, k); }
  }

  lemma {:induction false} StatusKeyIsPlain()
    ensures IsPlain(VAULT_SEAL_STATUS_KEY)
  {
    var key := VAULT_SEAL_STATUS_KEY;
    assert |key| == 31;
    assert IsPlainName(key);
  }

  lemma {:induction false} StatusKeyIsFree()
    ensures VAULT_SEAL_STATUS_KEY != "." && !IsReserved(VAULT_SEAL_STATUS_KEY)
  {
    var key := VAULT_SEAL_STATUS_KEY;
    assert key[|key| - 1] == 's' && key[1] == 'a' && HASHED_PREFIX[1] == '-';
    TmpEnds(key);
    SideEnds(key);
  }

  lemma {:induction false} StatusIsPlain(status: string)
    requires status == "sealed" || status == "unsealed"
    ensures Admissible(VAULT_SEAL_STATUS_KEY) && IsPlain(VAULT_SEAL_STATUS_KEY) && !IsSealed(status) && status != ""
  {
    StatusKeyIsPlain();
    StatusKeyIsFree();
  }

  lemma {:induction false} CountKeys(keys: seq<string>, contents: Contents)
    requires NoDup(keys) && Elements(keys) == contents.Keys
    ensures |keys| == |contents|
  {
    if keys != [] {
      ElementsShrink(keys, 0);
      assert keys[0..] == keys;
      CountKeys(keys[1..], contents - {keys[0]});
      assert keys[0] in Elements(keys);
      assert |contents.Keys| == |contents.Keys - {keys[0]}| + 1;
      assert (contents - {keys[0]}).Keys == contents.Keys - {keys[0]};
    } else {
      assert contents.Keys == {};
    }
  }
}
