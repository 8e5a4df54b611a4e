/**
 * The store file's text (electron/durableStore.ts): a JSON object of strings,
 * printed compact and read back leniently, and what a torn write leaves of it.
 */
module StoreText {
  import opened Prelude
  import opened JsonText
  import opened CanonicalJson

  type Store = map<string, string>

  /** Keys and values in the order the object holds them. */
  type StoreEntries = seq<(string, string)>

  function StoreOf(entries: StoreEntries): (store: Store)
    ensures forall k :: k in store <==> exists i :: 0 <= i < |entries| && entries[i].0 == k
  {
    if entries == [] then map[] else StoreOf(entries[1..])[entries[0].0 := entries[0].1]
  }

  predicate DistinctKeys(entries: StoreEntries) {
    forall i, j :: 0 <= i < j < |entries| ==> entries[i].0 != entries[j].0
  }

  function MembersOf(entries: StoreEntries): seq<Member> {
    seq(|entries|, i requires 0 <= i < |entries| => (entries[i].0, Quote(entries[i].1)))
  }

  /** `JSON.stringify(store)` */
  function Serialize(entries: StoreEntries): string {
    ['{'] + (JoinMembers(MembersOf(entries)) + ['}'])
  }

  /** parseStore: the string members of an object; anything else is no store. */
  function ParseStore(raw: string): Option<Store> {
    match ParseDocument(raw)
    case Some(Obj(fields)) => Some(map k | k in fields && fields[k].Str? :: fields[k].s)
    case _ => None
  }

  lemma {:induction false} StoreOfAt(entries: StoreEntries, i: nat)
    requires DistinctKeys(entries) && i < |entries|
    ensures entries[i].0 in StoreOf(entries) && StoreOf(entries)[entries[i].0] == entries[i].1
    decreases |entries|
  {
    if i > 0 {
      assert entries[1..][i - 1] == entries[i];
      StoreOfAt(entries[1..], i - 1);
    }
  }

  /** The JSON object a serialized store stands for. */
  function FieldsOf(store: Store): map<string, Json> {
    map k | k in store :: Str(store[k])
  }

  lemma {:induction false} SerializedDenotes(entries: StoreEntries)
    requires DistinctKeys(entries)
    ensures Denotes(Serialize(entries), Obj(FieldsOf(StoreOf(entries))))
  {
    var ms, m := MembersOf(entries), FieldsOf(StoreOf(entries));
    forall k | 0 <= k < |ms| ensures ms[k].0 in m && Denotes(ms[k].1, m[ms[k].0]) {
      StoreOfAt(entries, k);
      QuoteDenotes(entries[k].1);
    }
    forall k ensures k in KeysOf(ms) <==> k in m {
      if k in m {
        var i :| 0 <= i < |entries| && entries[i].0 == k;
        assert ms[i].0 == k;
      }
    }
    ObjectDenotes(ms, m);
  }

  /** Reading back a saved file gives exactly the store that was saved, whatever order its keys were in. */
  lemma {:induction false} SavedStoreReadBack(entries: StoreEntries)
    requires DistinctKeys(entries)
    ensures ParseStore(Serialize(entries)) == Some(StoreOf(entries))
  {
    SerializedDenotes(entries);
    var text := Serialize(entries);
    assert OccursAt(text, text, 0);
    NoBlank(text, 0);
    NoBlank(text, |text|);
    assert ParseDocument(text) == Some(Obj(FieldsOf(StoreOf(entries))));
    var store := StoreOf(entries);
    assert store == map k | k in FieldsOf(store) && FieldsOf(store)[k].Str? :: FieldsOf(store)[k].s;
  }

  /**
   * What a write cut short leaves, as text: the first characters, and, where a
   * character's own bytes were cut, the replacement character in its place.
   */
  predicate Torn(part: string, whole: string) {
    exists n | 0 <= n < |whole| :: part == whole[..n] || part == whole[..n] + [0xFFFD as char]
  }

  /** No torn copy of a saved store is ever taken for a store. */
  lemma {:induction false} TornStoreIsNoStore(part: string, entries: StoreEntries)
    requires DistinctKeys(entries) && Torn(part, Serialize(entries))
    ensures ParseStore(part) == None
  {
    var whole := Serialize(entries);
    var n :| 0 <= n < |whole| && (part == whole[..n] || part == whole[..n] + [0xFFFD as char]);
    if part == whole[..n] {
      PrefixParsesNot(part, entries);
    } else if ParseStore(part).Some? {
      StoreEndsPlainly(part);
    }
  }

  lemma {:induction false} StoreEndsPlainly(text: string)
    requires ParseStore(text).Some?
    ensures text != "" && (text[|text| - 1] == '}' || IsWs(text[|text| - 1]))
  {
    ObjectEndsWithBrace(text);
  }

  lemma {:induction false} PrefixParsesNot(part: string, entries: StoreEntries)
    requires DistinctKeys(entries) && part < Serialize(entries)
    ensures ParseDocument(part).None? || !ParseDocument(part).value.Obj?
  {
    var whole := Serialize(entries);
    SerializedDenotes(entries);
    assert OccursAt(whole, whole, 0);
    assert ParseValue(whole, 0) == Ok(Obj(FieldsOf(StoreOf(entries))), |whole|);
    if part != "" {
      assert part[0] == whole[0];
      NoBlank(part, 0);
      var p := ParseValue(part, 0);
      if p.Ok? && p.value.Obj? { ParseValueExtends(part, whole, 0); }
    }
  }
}
