/**
 * A chart the checker takes and the runner never comes to rest in (src/apps/chartValidator.ts,
 * src/apps/chartRunner.ts): its only state acknowledges a message no one picked, and on that error tries again.
 */
module ChartRestless {
  import opened Prelude
  import opened JsonText
  import opened CanonicalJson
  import opened ChartTypes
  import opened ChartFormat
  import opened ChartRules
  import opened ChartRunner
  import opened ChartShape
  import opened ChartSharing
  import opened ChartTermination

  // ----- how long a canonical text may be -----

  /** No more bytes than this: a character takes six at most. */
  function Weight(v: Value): nat
    decreases v, 0
  {
    match v
    case VStr(s) => 6 * |s| + 2
    case VObj(entries) => MembersWeight(entries) + 2
    case _ => 0
  }

  function MembersWeight(entries: seq<Entry>): nat
    decreases entries, 1
  {
    if entries == [] then 0 else 6 * |entries[0].key| + 4 + Weight(entries[0].value) + MembersWeight(entries[1..])
  }

  /** Strings and objects of them, all the way down. */
  predicate IsWordy(v: Value)
    decreases v, 0
  {
    match v
    case VStr(_) => true
    case VObj(entries) => AreWordy(entries)
    case _ => false
  }

  predicate AreWordy(entries: seq<Entry>)
    decreases entries, 1
  {
    entries == [] || (IsWordy(entries[0].value) && AreWordy(entries[1..]))
  }

  lemma {:induction false} AtMostFour(s: string)
    ensures Utf8Length(s) <= 4 * |s|
  {
    if s != "" { AtMostFour(s[1..]); }
  }

  lemma {:induction false} OneByteEach(s: string)
    requires forall i :: 0 <= i < |s| ==> s[i] as int < 0x80
    ensures Utf8Length(s) == |s|
  {
    if s != "" { OneByteEach(s[1..]); }
  }

  lemma {:induction false} EscapeBytes(c: char)
    ensures Utf8Length(EscapeChar(c)) <= 6
  {
    if EscapeTail(c) == [] { AtMostFour([c]); } else { OneByteEach(EscapeChar(c)); }
  }

  lemma {:induction false} QuoteBytes(s: string)
    ensures Utf8Length(Escape(s)) <= 6 * |s| && Utf8Length(Quote(s)) <= 6 * |s| + 2
  {
    if s != "" {
      QuoteBytes(s[1..]);
      EscapeBytes(s[0]);
      Utf8Adds(EscapeChar(s[0]), Escape(s[1..]));
    }
    Utf8Adds(Escape(s), ['"']);
    Utf8Adds(['"'], Escape(s) + ['"']);
  }

  /** The bytes of a member list, a separator counted for each. */
  function ListBytes(ms: seq<Member>): nat {
    if ms == [] then 0 else Utf8Length(MemberText(ms[0])) + 1 + ListBytes(ms[1..])
  }

  lemma {:induction false} InsertBytes(m: Member, sorted: seq<Member>)
    ensures ListBytes(InsertMember(m, sorted)) == Utf8Length(MemberText(m)) + 1 + ListBytes(sorted)
  {
    if !(sorted == [] || Less(m.0, sorted[0].0)) {
      InsertBytes(m, sorted[1..]);
      assert InsertMember(m, sorted)[1..] == InsertMember(m, sorted[1..]);
    } else {
      assert InsertMember(m, sorted)[1..] == sorted;
    }
  }

  lemma {:induction false} SortBytes(ms: seq<Member>)
    ensures ListBytes(SortMembers(ms)) == ListBytes(ms)
  {
    if ms != [] {
      SortBytes(ms[1..]);
      InsertBytes(ms[0], SortMembers(ms[1..]));
    }
  }

  lemma {:induction false} JoinedBytes(ms: seq<Member>)
    ensures Utf8Length(JoinMembers(ms)) <= ListBytes(ms)
  {
    if |ms| > 1 {
      JoinedBytes(ms[1..]);
      Utf8Adds(MemberText(ms[0]), [','] + JoinMembers(ms[1..]));
      Utf8Adds([','], JoinMembers(ms[1..]));
    }
  }

  lemma {:induction false} MemberTextBytes(key: string, text: string)
    ensures Utf8Length(MemberText((key, text))) <= 6 * |key| + 3 + Utf8Length(text)
  {
    QuoteBytes(key);
    Utf8Adds(Quote(key), [':'] + text);
    Utf8Adds([':'], text);
  }

  lemma {:induction false} MembersBytes(entries: seq<Entry>)
    requires AreWordy(entries)
    ensures CanonicalMembers(entries).Some? && ListBytes(CanonicalMembers(entries).value) <= MembersWeight(entries)
    decreases entries, 1
  {
    if entries != [] {
      PrintedBytes(entries[0].value);
      MembersBytes(entries[1..]);
      var text, more := Canonical(entries[0].value).value, CanonicalMembers(entries[1..]).value;
      MemberTextBytes(entries[0].key, text);
      assert CanonicalMembers(entries) == Some([(entries[0].key, text)] + more);
      assert ([(entries[0].key, text)] + more)[1..] == more;
    }
  }

  /** A wordy value's canonical text is no longer than its weight. */
  lemma {:induction false} PrintedBytes(v: Value)
    requires IsWordy(v)
    ensures Canonical(v).Some? && Utf8Length(Canonical(v).value) <= Weight(v)
    decreases v, 0
  {
    match v
    case VStr(s) => QuoteBytes(s);
    case VObj(entries) =>
      MembersBytes(entries);
      var ms := CanonicalMembers(entries).value;
      SortBytes(ms);
      JoinedBytes(SortMembers(ms));
      ObjectBytes(JoinMembers(SortMembers(ms)));
  }

  lemma {:induction false} ObjectBytes(body: string)
    ensures Utf8Length(['{'] + (body + ['}'])) == Utf8Length(body) + 2
  {
    Utf8Adds(body, ['}']);
    Utf8Adds(['{'], body + ['}']);
  }

  // ----- building a value member by member -----

  /** What the entries mean, and how much they weigh at most. */
  ghost predicate Built(entries: seq<Entry>, m: Members, weight: nat) {
    && EntriesDistinct(entries) && AreWordy(entries) && MeaningMembers(entries) == Some(m) && MembersWeight(entries) <= weight
    && forall e :: e in entries ==> e.key in m
  }

  lemma {:induction false} BuiltMore(first: Entry, rest: seq<Entry>, m: Members, j: Json, weight: nat)
    requires Built(rest, m, weight) && first.key !in m
    requires KeysDistinct(first.value) && IsWordy(first.value) && Meaning(first.value) == Some(j)
    ensures Built([first] + rest, m[first.key := j], weight + 6 * |first.key| + 4 + Weight(first.value))
  {
    var all := [first] + rest;
    assert all[1..] == rest;
    ConsMeans(first, rest);
    forall i | 0 < i < |all| ensures all[i].key != first.key { assert all[i] in rest; }
  }

  lemma {:induction false} BuiltWord(key: string, s: string, rest: seq<Entry>, m: Members, weight: nat)
    requires Built(rest, m, weight) && key !in m
    ensures Built([Entry(key, VStr(s))] + rest, m[key := Str(s)], weight + 6 * |key| + 6 + 6 * |s|)
  {
    BuiltMore(Entry(key, VStr(s)), rest, m, Str(s), weight);
  }

  lemma {:induction false} BuiltObject(key: string, entries: seq<Entry>, inner: Members, inside: nat, rest: seq<Entry>, m: Members, weight: nat)
    requires Built(rest, m, weight) && key !in m && Built(entries, inner, inside)
    ensures Built([Entry(key, VObj(entries))] + rest, m[key := Obj(inner)], weight + 6 * |key| + 6 + inside)
  {
    BuiltMore(Entry(key, VObj(entries)), rest, m, Obj(inner), weight);
  }

  lemma {:induction false} BuiltFits(entries: seq<Entry>, m: Members, weight: nat)
    requires Built(entries, m, weight) && weight + 2 <= CHART_MAX_BYTES
    ensures SizeOf(Obj(m)).Some? && SizeOf(Obj(m)).value <= CHART_MAX_BYTES
  {
    var v := VObj(entries);
    PrintedBytes(v);
    assert KeysDistinct(v) && Meaning(v) == Some(Obj(m));
    CanonicalTextIs(v);
  }

  // ----- the chart -----

  /** A key of the right form. */
  function SomeKey(): string {
    "02" + seq(64, _ => '0')
  }

  function SomeSignature(): string {
    seq(16, _ => '0')
  }

  function AuthorMembers(): Members {
    map["name" := Str("A")]["identityKey" := Str(SomeKey())]
  }

  function FieldsMembers(): Members {
    map["picked" := Obj(map["type" := Str("message")])]
  }

  function EffectsMembers(): Members {
    map["handled" := Obj(map["messages" := Obj(map["field" := Str("picked")])]["kind" := Str("acknowledgeMessages")])]
  }

  function StateMembers(): Members {
    map["onError" := Str("go")]["onDone" := Str("go")]["effect" := Str("handled")]
  }

  function ChartMembers(): Members {
    map["signature" := Str(SomeSignature())]["version" := Str("1.0.0")]["summary" := Str("Never rests")]["name" := Str("Restless")]
       ["id" := Str("restless")]["format" := Str(CHART_APP_FORMAT)]["initial" := Str("go")]["author" := Obj(AuthorMembers())]
       ["fields" := Obj(FieldsMembers())]["effects" := Obj(EffectsMembers())]["states" := Obj(map["go" := Obj(StateMembers())])]
  }

  function RestlessChart(): ChartApp {
    ChartApp("restless", "Restless", "Never rests", "1.0.0", Author(SomeKey(), "A"), "go",
             map["picked" := Field(MessageField, None, None)],
             map["handled" := AcknowledgeMessages("picked")],
             map["go" := EffectState("handled", "go", "go", None)], SomeSignature())
  }

  lemma {:induction false} WordIsText(s: string, max: nat)
    requires s != "" && !IsSpace(s[0]) && 2 * |s| <= max
    ensures IsText(Some(Str(s)), max)
  {
    TwoUnitsEach(s);
    assert s[0] in s;
    assert s[0] in TrimStart(s) && s[0] in Trim(s);
  }

  lemma {:induction false} TwoUnitsEach(s: string)
    ensures Length16(s) <= 2 * |s|
  {
    if s != "" { TwoUnitsEach(s[1..]); }
  }

  lemma {:induction false} OneDecodes<T>(key: string, j: Json, decode: Json -> Option<T>, v: T)
    requires decode(j) == Some(v)
    ensures DecodeAll(map[key := j], decode) == Some(map[key := v])
  {
    var m: Members := map[key := j];
    assert (map k | k in m :: decode(m[k]).value) == map[key := v];
  }

  lemma {:induction false} OneNamed(key: string, j: Json)
    requires IsName(key)
    ensures KeysNamed(map[key := j])
  {
  }

  lemma {:induction false} AuthorReads()
    ensures AuthorOf(Some(Obj(AuthorMembers()))) == Some(Author(SomeKey(), "A"))
  {
    var m, key := AuthorMembers(), SomeKey();
    assert "name"[0] == 'n' && "identityKey"[0] == 'i';
    assert m.Keys == {"identityKey", "name"};
    assert Get(m, "identityKey") == Some(Str(key)) && Get(m, "name") == Some(Str("A"));
    assert key[2..] == seq(64, _ => '0');
    assert IsIdentityKey(key);
    WordIsText("A", 40);
  }

  lemma {:induction false} FieldsRead()
    ensures FieldsOf(Some(Obj(FieldsMembers()))) == Some(map["picked" := Field(MessageField, None, None)])
  {
    var f: Members := map["type" := Str("message")];
    assert "type"[0] == 't' && "maxLength"[0] == 'm' && "coin"[0] == 'c';
    assert f.Keys == {"type"};
    assert TypeOf(Get(f, "type")) == Some(MessageField) by { MessageIsAType(); }
    assert DecodeField(Obj(f)) == Some(Field(MessageField, None, None));
    OneNamed("picked", Obj(f));
    OneDecodes("picked", Obj(f), DecodeField, Field(MessageField, None, None));
  }

  lemma {:induction false} MessageIsAType()
    ensures TypeOf(Some(Str("message"))) == Some(MessageField)
  {
    var s := "message";
    assert |s| == 7 && s[0] == 'm';
    assert |"amount"| == 6 && |"text"| == 4 && |"friend"| == 6 && "friends"[0] == 'f' && |"item"| == 4 && |"messages"| == 8;
    assert "senders"[0] == 's' && |"selection"| == 9;
  }

  lemma {:induction false} EffectsRead(goodUrl: string -> bool)
    ensures EffectsOf(Some(Obj(EffectsMembers())), goodUrl) == Some(map["handled" := AcknowledgeMessages("picked")])
  {
    var ref: Members := map["field" := Str("picked")];
    var m: Members := map["messages" := Obj(ref)]["kind" := Str("acknowledgeMessages")];
    assert "messages"[0] == 'm' && "kind"[0] == 'k';
    assert ref.Keys == {"field"} && m.Keys == {"kind", "messages"};
    assert RefOf(Get(m, "messages")) == Some("picked");
    assert KindOf(Get(m, "kind")) == Some(Acknowledges) by { AcknowledgeIsAKind(); }
    assert DecodeEffect(Obj(m), goodUrl) == Some(AcknowledgeMessages("picked"));
    OneNamed("handled", Obj(m));
    OneDecodes("handled", Obj(m), e => DecodeEffect(e, goodUrl), AcknowledgeMessages("picked"));
  }

  lemma {:induction false} AcknowledgeIsAKind()
    ensures KindOf(Some(Str("acknowledgeMessages"))) == Some(Acknowledges)
  {
    var s := "acknowledgeMessages";
    assert |s| == 19 && |"requestPayment"| == 14 && |"sendPayment"| == 11 && |"sendItem"| == 8 && |"signMessage"| == 11;
    assert |"fetch"| == 5 && |"listMessages"| == 12;
  }

  lemma {:induction false} StatesRead()
    ensures StatesOf(Some(Obj(map["go" := Obj(StateMembers())]))) == Some(map["go" := EffectState("handled", "go", "go", None)])
  {
    var m := StateMembers();
    StateKeysApart();
    assert m.Keys == {"effect", "onDone", "onError"};
    assert Get(m, "view") == None && Get(m, "on") == None && Get(m, "onDecline") == None && "final" !in m;
    assert Get(m, "effect") == Some(Str("handled")) && Get(m, "onDone") == Some(Str("go")) && Get(m, "onError") == Some(Str("go"));
    assert DecodeState(Obj(m)) == Some(EffectState("handled", "go", "go", None));
    OneNamed("go", Obj(m));
    OneDecodes("go", Obj(m), DecodeState, EffectState("handled", "go", "go", None));
  }

  lemma {:induction false} StateKeysApart()
    ensures "view" !in {"effect", "onDone", "onError"} && "on" !in {"effect", "onDone", "onError"}
    ensures "onDecline" !in {"effect", "onDone", "onError"} && "final" !in {"effect", "onDone", "onError"}
    ensures "effect" != "onDone" && "effect" != "onError" && "onDone" != "onError"
  {
    assert "effect"[0] == 'e' && "onDone"[0] == 'o' && "onError"[0] == 'o' && "view"[0] == 'v' && "final"[0] == 'f';
    assert |"onDone"| == 6 && |"onError"| == 7 && |"on"| == 2 && |"onDecline"| == 9;
  }

  lemma {:induction false} DotAt(path: string, i: nat, k: nat)
    requires i <= k < |path| && path[k] == '.' && forall n :: i <= n < k ==> path[n] != '.'
    ensures DotAfter(path, i) == k
    decreases k - i
  {
    if i < k { DotAt(path, i + 1, k); }
  }

  lemma {:induction false} SplitFirst(path: string, k: nat)
    requires k < |path| && path[k] == '.' && forall n :: 0 <= n < k ==> path[n] != '.'
    ensures SplitDots(path) == [path[..k]] + SplitDots(path[k + 1..])
  {
    DotAt(path, 0, k);
  }

  lemma {:induction false} ThreeDigits(s: string)
    requires |s| == 5 && IsDigit(s[0]) && s[1] == '.' && IsDigit(s[2]) && s[3] == '.' && IsDigit(s[4])
    ensures IsVersion(s)
  {
    var t := s[2..];
    SplitFirst(s, 1);
    SplitFirst(t, 1);
    assert DotAfter(t[2..], 0) == 1;
    assert SplitDots(s) == [s[..1]] + ([t[..1]] + [t[2..]]);
    assert SplitDots(s) == [s[..1], t[..1], t[2..]];
  }

  lemma {:induction false} VersionReads()
    ensures IsVersion("1.0.0")
  {
    ThreeDigits("1.0.0");
  }

  lemma {:induction false} ChartKeysApart()
    ensures "signature" !in {"version", "summary", "name", "id", "format", "initial", "author", "fields", "effects", "states"}
    ensures "version" !in {"summary", "name", "id", "format", "initial", "author", "fields", "effects", "states"}
    ensures "summary" !in {"name", "id", "format", "initial", "author", "fields", "effects", "states"}
    ensures "name" !in {"id", "format", "initial", "author", "fields", "effects", "states"}
    ensures "id" !in {"format", "initial", "author", "fields", "effects", "states"}
    ensures "format" !in {"initial", "author", "fields", "effects", "states"}
    ensures "initial" !in {"author", "fields", "effects", "states"} && "author" !in {"fields", "effects", "states"}
    ensures "fields" !in {"effects", "states"} && "effects" != "states"
  {
    assert "signature"[0] == 's' && "version"[0] == 'v' && "summary"[0] == 's' && "name"[0] == 'n' && "id"[0] == 'i' && "format"[0] == 'f'
      && "initial"[0] == 'i' && "author"[0] == 'a' && "fields"[0] == 'f' && "effects"[0] == 'e' && "states"[0] == 's';
    assert "signature"[1] == 'i' && "summary"[1] == 'u' && "states"[1] == 't' && |"id"| == 2 && |"initial"| == 7 && "format"[1] == 'o' && "fields"[1] == 'i';
  }

  lemma {:induction false} HeaderGets()
    ensures var m := ChartMembers();
            && Get(m, "signature") == Some(Str(SomeSignature())) && Get(m, "version") == Some(Str("1.0.0"))
            && Get(m, "summary") == Some(Str("Never rests")) && Get(m, "name") == Some(Str("Restless"))
  {
    ChartKeysApart();
  }

  lemma {:induction false} MoreGets()
    ensures var m := ChartMembers();
            && Get(m, "id") == Some(Str("restless")) && Get(m, "format") == Some(Str(CHART_APP_FORMAT))
            && Get(m, "initial") == Some(Str("go")) && Get(m, "author") == Some(Obj(AuthorMembers()))
  {
    ChartKeysApart();
  }

  lemma {:induction false} BodyGets()
    ensures var m := ChartMembers();
            && Get(m, "fields") == Some(Obj(FieldsMembers())) && Get(m, "effects") == Some(Obj(EffectsMembers()))
            && Get(m, "states") == Some(Obj(map["go" := Obj(StateMembers())])) && m.Keys == CHART_KEYS
  {
    ChartKeysApart();
  }

  lemma {:induction false} HeaderFrom(m: Members, h: Header)
    requires Get(m, "format") == Some(Str(CHART_APP_FORMAT)) && Get(m, "id") == Some(Str(h.id)) && IsAppId(h.id)
    requires Get(m, "name") == Some(Str(h.name)) && IsText(Get(m, "name"), 40)
    requires Get(m, "summary") == Some(Str(h.summary)) && IsText(Get(m, "summary"), 140)
    requires Get(m, "version") == Some(Str(h.version)) && IsVersion(h.version)
    requires Get(m, "signature") == Some(Str(h.signature)) && IsSignature(h.signature)
    requires AuthorOf(Get(m, "author")) == Some(h.author)
    ensures HeaderOf(m) == Some(h)
  {
    assert AsString(Get(m, "id")) == Some(h.id) && AsString(Get(m, "version")) == Some(h.version);
    assert AsString(Get(m, "signature")) == Some(h.signature);
  }

  function RestlessHeader(): Header {
    Header("restless", "Restless", "Never rests", "1.0.0", SomeSignature(), Author(SomeKey(), "A"))
  }

  lemma {:induction false} IdReads()
    ensures IsAppId("restless") && IsSignature(SomeSignature())
  {
  }

  lemma {:induction false} NameReads()
    ensures IsText(Some(Str("Restless")), 40)
  {
    WordIsText("Restless", 40);
  }

  lemma {:induction false} SummaryReads()
    ensures IsText(Some(Str("Never rests")), 140)
  {
    WordIsText("Never rests", 140);
  }

  lemma {:induction false} HeaderReads()
    ensures HeaderOf(ChartMembers()) == Some(RestlessHeader())
  {
    var m, h := ChartMembers(), RestlessHeader();
    assert AuthorOf(Get(m, "author")) == Some(h.author) by {
      MoreGets();
      AuthorReads();
    }
    assert Get(m, "id") == Some(Str(h.id)) && Get(m, "format") == Some(Str(CHART_APP_FORMAT)) by { MoreGets(); }
    assert Get(m, "name") == Some(Str(h.name)) && Get(m, "summary") == Some(Str(h.summary)) by { HeaderGets(); }
    assert Get(m, "version") == Some(Str(h.version)) && Get(m, "signature") == Some(Str(h.signature)) by { HeaderGets(); }
    assert IsVersion(h.version) by { VersionReads(); }
    IdReads();
    NameReads();
    SummaryReads();
    HeaderFrom(m, h);
  }

  lemma {:induction false} ChartFrom(m: Members, goodUrl: string -> bool, h: Header, initial: string, fields: map<string, Field>, effects: map<string, Effect>, states: map<string, State>)
    requires HasKeys(m, CHART_KEYS, {}) && HeaderOf(m) == Some(h) && Get(m, "initial") == Some(Str(initial))
    requires FieldsOf(Get(m, "fields")) == Some(fields) && EffectsOf(Get(m, "effects"), goodUrl) == Some(effects) && StatesOf(Get(m, "states")) == Some(states)
    ensures DecodeChart(Obj(m), goodUrl)
            == Some(ChartApp(h.id, h.name, h.summary, h.version, h.author, initial, fields, effects, states, h.signature))
  {
  }

  lemma {:induction false} ChartReads(goodUrl: string -> bool)
    ensures DecodeChart(Obj(ChartMembers()), goodUrl) == Some(RestlessChart())
  {
    HeaderReads();
    MoreGets();
    BodyGets();
    FieldsRead();
    EffectsRead(goodUrl);
    StatesRead();
    ChartFrom(ChartMembers(), goodUrl, RestlessHeader(), "go", map["picked" := Field(MessageField, None, None)], map["handled" := AcknowledgeMessages("picked")],
              map["go" := EffectState("handled", "go", "go", None)]);
  }

  lemma {:induction false} RestlessFits()
    ensures Fits(RestlessChart())
  {
    var chart := RestlessChart();
    assert StateFits(chart.fields, chart.effects, chart.states.Keys, chart.states["go"]);
    assert EffectFits(chart.fields, chart.effects["handled"]);
  }

  lemma {:induction false} BuiltLighter(entries: seq<Entry>, m: Members, weight: nat, most: nat)
    requires Built(entries, m, weight) && weight <= most
    ensures Built(entries, m, most)
  {
  }

  lemma {:induction false} NoneBuilt()
    ensures Built([], map[], 0)
  {
  }

  lemma {:induction false} AuthorBuilt() returns (entries: seq<Entry>)
    ensures Built(entries, AuthorMembers(), 600)
  {
    assert "name"[0] == 'n' && "identityKey"[0] == 'i';
    NoneBuilt();
    BuiltWord("name", "A", [], map[], 0);
    entries := [Entry("name", VStr("A"))] + [];
    BuiltWord("identityKey", SomeKey(), entries, map["name" := Str("A")], 36);
    entries := [Entry("identityKey", VStr(SomeKey()))] + entries;
    BuiltLighter(entries, AuthorMembers(), 504, 600);
  }

  lemma {:induction false} FieldsBuilt() returns (entries: seq<Entry>)
    ensures Built(entries, FieldsMembers(), 200)
  {
    NoneBuilt();
    BuiltWord("type", "message", [], map[], 0);
    entries := [Entry("type", VStr("message"))] + [];
    BuiltObject("picked", entries, map["type" := Str("message")], 72, [], map[], 0);
    entries := [Entry("picked", VObj(entries))] + [];
    BuiltLighter(entries, FieldsMembers(), 114, 200);
  }

  lemma {:induction false} EffectsBuilt() returns (entries: seq<Entry>)
    ensures Built(entries, EffectsMembers(), 500)
  {
    assert "messages"[0] == 'm' && "kind"[0] == 'k';
    NoneBuilt();
    BuiltWord("field", "picked", [], map[], 0);
    entries := [Entry("field", VStr("picked"))] + [];
    BuiltObject("messages", entries, map["field" := Str("picked")], 72, [], map[], 0);
    entries := [Entry("messages", VObj(entries))] + [];
    BuiltWord("kind", "acknowledgeMessages", entries, map["messages" := Obj(map["field" := Str("picked")])], 126);
    entries := [Entry("kind", VStr("acknowledgeMessages"))] + entries;
    var m: Members := map["messages" := Obj(map["field" := Str("picked")])]["kind" := Str("acknowledgeMessages")];
    BuiltObject("handled", entries, m, 270, [], map[], 0);
    entries := [Entry("handled", VObj(entries))] + [];
    BuiltLighter(entries, EffectsMembers(), 318, 500);
  }

  lemma {:induction false} StateBuilt() returns (entries: seq<Entry>)
    ensures Built(entries, map["go" := Obj(StateMembers())], 300)
  {
    StateKeysApart();
    NoneBuilt();
    BuiltWord("onError", "go", [], map[], 0);
    entries := [Entry("onError", VStr("go"))] + [];
    BuiltWord("onDone", "go", entries, map["onError" := Str("go")], 60);
    entries := [Entry("onDone", VStr("go"))] + entries;
    BuiltWord("effect", "handled", entries, map["onError" := Str("go")]["onDone" := Str("go")], 114);
    entries := [Entry("effect", VStr("handled"))] + entries;
    BuiltObject("go", entries, StateMembers(), 198, [], map[], 0);
    entries := [Entry("go", VObj(entries))] + [];
    BuiltLighter(entries, map["go" := Obj(StateMembers())], 216, 300);
  }

  lemma {:induction false} UpToFieldsBuilt() returns (entries: seq<Entry>, m: Members)
    ensures Built(entries, m, 2000) && m == HeaderMembers()["author" := Obj(AuthorMembers())]["fields" := Obj(FieldsMembers())]
  {
    ChartKeysApart();
    var author := AuthorBuilt();
    var fields := FieldsBuilt();
    entries, m := HeaderBuilt();
    BuiltObject("author", author, AuthorMembers(), 600, entries, m, 1000);
    entries, m := [Entry("author", VObj(author))] + entries, m["author" := Obj(AuthorMembers())];
    BuiltObject("fields", fields, FieldsMembers(), 200, entries, m, 1642);
    entries, m := [Entry("fields", VObj(fields))] + entries, m["fields" := Obj(FieldsMembers())];
    BuiltLighter(entries, m, 1884, 2000);
  }

  lemma {:induction false} ChartFits()
    ensures SizeOf(Obj(ChartMembers())).Some? && SizeOf(Obj(ChartMembers())).value <= CHART_MAX_BYTES
  {
    var entries, m := UpToFieldsBuilt();
    var effects := EffectsBuilt();
    var states := StateBuilt();
    assert "effects" !in m && "states" !in m by { ChartKeysApart(); }
    BuiltObject("effects", effects, EffectsMembers(), 500, entries, m, 2000);
    entries, m := [Entry("effects", VObj(effects))] + entries, m["effects" := Obj(EffectsMembers())];
    assert "states" !in m by { ChartKeysApart(); }
    BuiltObject("states", states, map["go" := Obj(StateMembers())], 300, entries, m, 2548);
    entries, m := [Entry("states", VObj(states))] + entries, m["states" := Obj(map["go" := Obj(StateMembers())])];
    BuiltFits(entries, m, 2890);
  }

  function HeaderMembers(): Members {
    map["signature" := Str(SomeSignature())]["version" := Str("1.0.0")]["summary" := Str("Never rests")]["name" := Str("Restless")]
       ["id" := Str("restless")]["format" := Str(CHART_APP_FORMAT)]["initial" := Str("go")]
  }

  lemma {:induction false} NameBuilt() returns (entries: seq<Entry>, m: Members)
    ensures Built(entries, m, 500)
    ensures m == map["signature" := Str(SomeSignature())]["version" := Str("1.0.0")]["summary" := Str("Never rests")]["name" := Str("Restless")]
  {
    ChartKeysApart();
    NoneBuilt();
    BuiltWord("signature", SomeSignature(), [], map[], 0);
    entries, m := [Entry("signature", VStr(SomeSignature()))] + [], map["signature" := Str(SomeSignature())];
    BuiltWord("version", "1.0.0", entries, m, 156);
    entries, m := [Entry("version", VStr("1.0.0"))] + entries, m["version" := Str("1.0.0")];
    BuiltWord("summary", "Never rests", entries, m, 234);
    entries, m := [Entry("summary", VStr("Never rests"))] + entries, m["summary" := Str("Never rests")];
    BuiltWord("name", "Restless", entries, m, 348);
    entries, m := [Entry("name", VStr("Restless"))] + entries, m["name" := Str("Restless")];
    BuiltLighter(entries, m, 426, 500);
  }

  lemma {:induction false} HeaderBuilt() returns (entries: seq<Entry>, m: Members)
    ensures Built(entries, m, 1000) && m == HeaderMembers()
  {
    entries, m := NameBuilt();
    assert "id" !in m && "format" !in m && "initial" !in m && "id" != "format" && "id" != "initial" && "format" != "initial" by { ChartKeysApart(); }
    BuiltWord("id", "restless", entries, m, 500);
    entries, m := [Entry("id", VStr("restless"))] + entries, m["id" := Str("restless")];
    BuiltWord("format", CHART_APP_FORMAT, entries, m, 566);
    entries, m := [Entry("format", VStr(CHART_APP_FORMAT))] + entries, m["format" := Str(CHART_APP_FORMAT)];
    BuiltWord("initial", "go", entries, m, 674);
    entries, m := [Entry("initial", VStr("go"))] + entries, m["initial" := Str("go")];
    BuiltLighter(entries, m, 734, 1000);
  }

  /** The checker takes it, at its own size, and it goes round for ever as it starts. */
  lemma {:induction false} CheckerAllowsLoops(goodUrl: string -> bool, network: Network)
    ensures var raw := Obj(ChartMembers());
            && Accepts(raw, SizeOf(raw), goodUrl)
            && Begin(Program(DecodeChart(raw, goodUrl).value, ["picked"], network)).Loops?
  {
    ChartReads(goodUrl);
    RestlessFits();
    ChartFits();
    RestlessLoops(Program(RestlessChart(), ["picked"], network));
  }

  lemma {:induction false} RestlessLoops(p: Program)
    requires p.chart == RestlessChart()
    ensures Begin(p).Loops?
  {
    assert PassesOn(p, map[], "go");
    assert Ring(p, map[], {"go"});
    LoopsExactlyWhen(p, "go", map[], None, None);
  }
}
