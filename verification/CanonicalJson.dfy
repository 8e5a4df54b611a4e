/**
 * Canonical JSON (src/apps/chartSignature.ts): keys sorted by UTF-16 code
 * units, no blanks, integers only; a subset of sections 3.2.2 and 3.2.3 of RFC 8785.
 */
module CanonicalJson {
  import opened Prelude
  import opened JsonText

  const MAX_SAFE := 0x1F_FFFF_FFFF_FFFF

  /** A JavaScript value as `canonicalJson` meets it; an object keeps its keys in insertion order. */
  datatype Value =
    | VNull
    | VBool(b: bool)
    | VInt(n: int)
    | VFraction               // a number that is no integer
    | VStr(s: string)
    | VArr(items: seq<Value>)
    | VObj(entries: seq<Entry>)
    | VUndefined
    | VOther                  // a function, symbol or big integer

  datatype Entry = Entry(key: string, value: Value)

  // ----- key order -----

  /** The UTF-16 code units of one character. */
  function Units(c: char): seq<int> {
    var n := c as int;
    if n < 0x10000 then [n] else [0xD800 + (n - 0x10000) / 0x400, 0xDC00 + (n - 0x10000) % 0x400]
  }

  /** `a < b` on strings: by code unit, a proper prefix first. */
  predicate Less(a: string, b: string)
    decreases |a|
  {
    b != "" && (a == "" || (if a[0] == b[0] then Less(a[1..], b[1..]) else UnitsLess(Units(a[0]), Units(b[0]))))
  }

  /** The first unit of two different characters decides, or the second when they share the first. */
  predicate UnitsLess(a: seq<int>, b: seq<int>)
    requires a != [] && b != []
  {
    a[0] < b[0] || (a[0] == b[0] && |a| > 1 && |b| > 1 && a[1] < b[1])
  }

  lemma {:induction false} UnitsOrder(a: char, b: char, c: char)
    ensures a != b ==> UnitsLess(Units(a), Units(b)) || UnitsLess(Units(b), Units(a))
    ensures UnitsLess(Units(a), Units(b)) ==> a != b && !UnitsLess(Units(b), Units(a))
    ensures UnitsLess(Units(a), Units(b)) && UnitsLess(Units(b), Units(c)) ==> UnitsLess(Units(a), Units(c))
  {
  }

  lemma {:induction false} LessTotal(a: string, b: string)
    ensures a != b ==> Less(a, b) || Less(b, a)
    ensures !(Less(a, b) && Less(b, a)) && !Less(a, a)
    decreases |a|
  {
    if a != "" {
      LessTotal(a[1..], a[1..]);
      if b != "" {
        UnitsOrder(a[0], b[0], b[0]);
        if a[0] == b[0] {
          LessTotal(a[1..], b[1..]);
          assert a == [a[0]] + a[1..] && b == [b[0]] + b[1..];
        }
      }
    }
  }

  lemma {:induction false} LessTransitive(a: string, b: string, c: string)
    requires Less(a, b) && Less(b, c)
    ensures Less(a, c)
    decreases |a|
  {
    if a != "" {
      UnitsOrder(a[0], b[0], c[0]);
      if a[0] == b[0] && b[0] == c[0] { LessTransitive(a[1..], b[1..], c[1..]); }
    }
  }

  // ----- the printer -----

  type Member = (string, string)

  function JoinItems(texts: seq<string>): string {
    if texts == [] then "" else if |texts| == 1 then texts[0] else texts[0] + ([','] + JoinItems(texts[1..]))
  }

  function MemberText(m: Member): string {
    Quote(m.0) + ([':'] + m.1)
  }

  function JoinMembers(ms: seq<Member>): string {
    if ms == [] then "" else if |ms| == 1 then MemberText(ms[0]) else MemberText(ms[0]) + ([','] + JoinMembers(ms[1..]))
  }

  function InsertMember(m: Member, sorted: seq<Member>): seq<Member> {
    if sorted == [] || Less(m.0, sorted[0].0) then [m] + sorted else [sorted[0]] + InsertMember(m, sorted[1..])
  }

  function SortMembers(ms: seq<Member>): seq<Member> {
    if ms == [] then [] else InsertMember(ms[0], SortMembers(ms[1..]))
  }

  function Canonical(v: Value): Option<string>
    decreases v, 0
  {
    match v
    case VNull => Some("null")
    case VBool(b) => Some(if b then "true" else "false")
    case VStr(s) => Some(Quote(s))
    case VInt(n) => if -MAX_SAFE <= n <= MAX_SAFE then Some(IntText(n)) else None
    case VArr(items) =>
      (match CanonicalItems(items)
       case None => None
       case Some(texts) => Some(['['] + (JoinItems(texts) + [']'])))
    case VObj(entries) =>
      (match CanonicalMembers(entries)
       case None => None
       case Some(ms) => Some(['{'] + (JoinMembers(SortMembers(ms)) + ['}'])))
    case VFraction => None
    case VUndefined => None
    case VOther => None
  }

  function CanonicalItems(items: seq<Value>): Option<seq<string>>
    decreases items, 1
  {
    if items == [] then Some([])
    else
      match (Canonical(items[0]), CanonicalItems(items[1..]))
      case (Some(t), Some(more)) => Some([t] + more)
      case _ => None
  }

  /** Members that are undefined are left out. */
  function CanonicalMembers(entries: seq<Entry>): Option<seq<Member>>
    decreases entries, 1
  {
    if entries == [] then Some([])
    else if entries[0].value.VUndefined? then CanonicalMembers(entries[1..])
    else
      match (Canonical(entries[0].value), CanonicalMembers(entries[1..]))
      case (Some(t), Some(more)) => Some([(entries[0].key, t)] + more)
      case _ => None
  }

  // ----- what a value means -----

  /** The JSON value meant, whatever order its keys were inserted in; none when it cannot be canonical. */
  function Meaning(v: Value): Option<Json>
    decreases v, 0
  {
    match v
    case VNull => Some(Null)
    case VBool(b) => Some(Bool(b))
    case VStr(s) => Some(Str(s))
    case VInt(n) => if -MAX_SAFE <= n <= MAX_SAFE then Some(Int(n)) else None
    case VArr(items) =>
      (match MeaningItems(items)
       case None => None
       case Some(js) => Some(Arr(js)))
    case VObj(entries) =>
      (match MeaningMembers(entries)
       case None => None
       case Some(m) => Some(Obj(m)))
    case VFraction => None
    case VUndefined => None
    case VOther => None
  }

  function MeaningItems(items: seq<Value>): Option<seq<Json>>
    decreases items, 1
  {
    if items == [] then Some([])
    else
      match (Meaning(items[0]), MeaningItems(items[1..]))
      case (Some(j), Some(more)) => Some([j] + more)
      case _ => None
  }

  function MeaningMembers(entries: seq<Entry>): Option<map<string, Json>>
    decreases entries, 1
  {
    if entries == [] then Some(map[])
    else if entries[0].value.VUndefined? then MeaningMembers(entries[1..])
    else
      match (Meaning(entries[0].value), MeaningMembers(entries[1..]))
      case (Some(j), Some(more)) => Some(more[entries[0].key := j])
      case _ => None
  }

  /** Objects hold each key once, all the way down, as JavaScript objects do. */
  predicate KeysDistinct(v: Value)
    decreases v, 0
  {
    match v
    case VArr(items) => forall i :: 0 <= i < |items| ==> KeysDistinct(items[i])
    case VObj(entries) => EntriesDistinct(entries)
    case _ => true
  }

  predicate EntriesDistinct(entries: seq<Entry>)
    decreases entries, 1
  {
    entries == [] ||
    ((forall i :: 0 < i < |entries| ==> entries[i].key != entries[0].key)
     && KeysDistinct(entries[0].value) && EntriesDistinct(entries[1..]))
  }

  // ----- sorting -----

  ghost predicate Sorted(ms: seq<Member>) {
    forall i, j :: 0 <= i < j < |ms| ==> Less(ms[i].0, ms[j].0)
  }

  function KeysOf(ms: seq<Member>): set<string> {
    set i | 0 <= i < |ms| :: ms[i].0
  }

  lemma {:induction false} InsertSorted(m: Member, ms: seq<Member>)
    requires Sorted(ms) && m.0 !in KeysOf(ms)
    ensures Sorted(InsertMember(m, ms))
    ensures multiset(InsertMember(m, ms)) == multiset([m]) + multiset(ms)
    decreases |ms|
  {
    if ms != [] {
      assert ms == [ms[0]] + ms[1..];
      LessTotal(m.0, ms[0].0);
      if Less(m.0, ms[0].0) {
        forall j | 0 <= j < |ms| ensures Less(m.0, ms[j].0) {
          if j > 0 { LessTransitive(m.0, ms[0].0, ms[j].0); }
        }
      } else {
        var rest := InsertMember(m, ms[1..]);
        InsertSorted(m, ms[1..]);
        forall j | 0 <= j < |rest| ensures Less(ms[0].0, rest[j].0) {
          assert rest[j] in multiset(rest);
          if rest[j] != m { assert rest[j] in ms[1..]; }
        }
      }
    }
  }

  /** No two members share a key. */
  ghost predicate Unique(ms: seq<Member>) {
    forall i, j :: 0 <= i < j < |ms| ==> ms[i].0 != ms[j].0
  }

  lemma {:induction false} SortSorted(ms: seq<Member>)
    requires Unique(ms)
    ensures Sorted(SortMembers(ms)) && multiset(SortMembers(ms)) == multiset(ms)
    decreases |ms|
  {
    if ms != [] {
      assert ms == [ms[0]] + ms[1..];
      SortSorted(ms[1..]);
      var rest := SortMembers(ms[1..]);
      forall i | 0 <= i < |rest| ensures rest[i].0 != ms[0].0 {
        assert rest[i] in multiset(rest);
        assert rest[i] in ms[1..];
      }
      InsertSorted(ms[0], rest);
    }
  }

  lemma {:induction false} NonEmptyToo(a: seq<Member>, b: seq<Member>)
    requires b != [] && forall m :: m in a <==> m in b
    ensures a != []
  {
    assert b[0] in a;
  }

  /** A sorted list of members is determined by what is in it. */
  lemma {:induction false} SortedUnique(a: seq<Member>, b: seq<Member>)
    requires Sorted(a) && Sorted(b) && forall m :: m in a <==> m in b
    ensures a == b
    decreases |a|
  {
    if b != [] { NonEmptyToo(a, b); }
    if a != [] {
      assert a[0] in b;
      var j :| 0 <= j < |b| && b[j] == a[0];
      assert b[0] in a;
      var i :| 0 <= i < |a| && a[i] == b[0];
      LessTotal(a[0].0, b[0].0);
      assert a[0] == b[0];
      forall m ensures m in a[1..] <==> m in b[1..] {
        SortedTail(a, m);
        SortedTail(b, m);
      }
      SortedUnique(a[1..], b[1..]);
    }
  }

  lemma {:induction false} SortedTail(a: seq<Member>, m: Member)
    requires Sorted(a) && a != []
    ensures m in a[1..] <==> m in a && m != a[0]
  {
    LessTotal(m.0, m.0);
    if m in a && m != a[0] {
      var i :| 0 <= i < |a| && a[i] == m;
      assert a[1..][i - 1] == m;
    }
  }

  lemma {:induction false} SortKeepsMembers(ms: seq<Member>)
    requires Unique(ms)
    ensures Sorted(SortMembers(ms)) && |SortMembers(ms)| == |ms|
    ensures forall m :: m in SortMembers(ms) <==> m in ms
  {
    SortSorted(ms);
    assert |multiset(SortMembers(ms))| == |multiset(ms)|;
    forall m ensures m in SortMembers(ms) <==> m in ms {
      assert m in multiset(SortMembers(ms)) <==> m in multiset(ms);
    }
  }

  // ----- the parser reads back what was printed -----

  /** Wherever `text` stands, followed by nothing a number could go on with, the parser reads `j`. */
  ghost predicate Denotes(text: string, j: Json) {
    && text != "" && !IsWs(text[0]) && text[0] != ']'
    && forall s: string, i: nat {:trigger OccursAt(s, text, i)} ::
         OccursAt(s, text, i) && (i + |text| < |s| ==> !IsNumberChar(s[i + |text|])) ==>
           ParseValue(s, i) == Ok(j, i + |text|)
  }

  lemma {:induction false} QuoteDenotes(v: string)
    ensures Denotes(Quote(v), Str(v))
  {
    forall s: string, i: nat | OccursAt(s, Quote(v), i) ensures ParseValue(s, i) == Ok(Str(v), i + |Quote(v)|) {
      OccursChar(s, Quote(v), i, 0);
      OccursSplit(s, ['"'], Escape(v) + ['"'], i);
      ParseStringQuoted(s, i + 1, v);
    }
  }

  lemma {:induction false} IntDenotes(n: int)
    ensures Denotes(IntText(n), Int(n))
  {
    var text := IntText(n);
    assert text[0] == '-' || IsDigit(text[0]);
    forall s: string, i: nat | OccursAt(s, text, i) && (i + |text| < |s| ==> !IsNumberChar(s[i + |text|]))
      ensures ParseValue(s, i) == Ok(Int(n), i + |text|)
    {
      OccursChar(s, text, i, 0);
      ParseIntText(s, i, n);
    }
  }

  lemma {:induction false} WordsDenote()
    ensures Denotes("null", Null) && Denotes("true", Bool(true)) && Denotes("false", Bool(false))
  {
    forall s: string, i: nat | OccursAt(s, "null", i) ensures ParseValue(s, i) == Ok(Null, i + 4) {
      OccursChar(s, "null", i, 0);
    }
    forall s: string, i: nat | OccursAt(s, "true", i) ensures ParseValue(s, i) == Ok(Bool(true), i + 4) {
      OccursChar(s, "true", i, 0);
    }
    forall s: string, i: nat | OccursAt(s, "false", i) ensures ParseValue(s, i) == Ok(Bool(false), i + 5) {
      OccursChar(s, "false", i, 0);
    }
  }

  lemma {:induction false} NoBlank(s: string, i: nat)
    requires i <= |s| && (i < |s| ==> !IsWs(s[i]))
    ensures SkipWs(s, i) == i
  {
  }

  lemma {:induction false} OccursSame(s: string, a: string, b: string, i: int)
    requires OccursAt(s, a, i) && a == b
    ensures OccursAt(s, b, i)
  {
  }

  // the parser's functions by names that are not unfolded step by step

  function OneMember(s: string, i: nat): Parsed<(string, Json)>
    requires i <= |s|
  {
    ParseMember(s, i)
  }

  function Members(s: string, i: nat, acc: map<string, Json>): Parsed<map<string, Json>>
    requires i <= |s|
  {
    ParseMembers(s, i, acc)
  }

  function MembersRest(s: string, i: nat, acc: map<string, Json>): Parsed<map<string, Json>>
    requires i <= |s|
  {
    MembersAfter(s, i, acc)
  }

  function StringAt(s: string, i: nat): Parsed<string>
    requires i <= |s|
  {
    ParseString(s, i)
  }

  function ValueAt(s: string, i: nat): Parsed<Json>
    requires i <= |s|
  {
    ParseValue(s, i)
  }

  function ItemsFrom(s: string, i: nat): Parsed<seq<Json>>
    requires i <= |s|
  {
    ParseItems(s, i)
  }

  /** One text, then what stands right after it. */
  lemma {:induction false} ReadThen(s: string, i: nat, text: string, j: Json, tail: string)
    requires Denotes(text, j) && OccursAt(s, text + tail, i) && tail != "" && !IsNumberChar(tail[0]) && !IsWs(tail[0])
    ensures ValueAt(s, i) == Ok(j, i + |text|) && OccursAt(s, tail, i + |text|)
    ensures SkipWs(s, i + |text|) == i + |text| && s[i + |text|] == tail[0]
    ensures SkipWs(s, i) == i && s[i] == text[0]
  {
    OccursSplit(s, text, tail, i);
    OccursChar(s, tail, i + |text|, 0);
    OccursChar(s, text, i, 0);
    NoBlank(s, i);
    NoBlank(s, i + |text|);
  }

  lemma {:induction false} ItemsFirst(s: string, i: nat, v: Json, next: nat)
    requires i <= |s| && ValueAt(s, i) == Ok(v, next)
    ensures next <= |s| && ItemsFrom(s, i) == ItemsAfter(s, next, v)
  {
  }

  lemma {:induction false} ItemsStep(s: string, i: nat, v: Json, next: nat)
    requires i <= |s| && ValueAt(s, i) == Ok(v, next) && next < |s| && SkipWs(s, next) == next
    ensures s[next] == ']' ==> ItemsFrom(s, i) == Ok([v], next + 1)
    ensures s[next] == ',' && SkipWs(s, next + 1) == next + 1 && ItemsFrom(s, next + 1).Ok? ==>
              ItemsFrom(s, i) == Ok([v] + ItemsFrom(s, next + 1).value, ItemsFrom(s, next + 1).next)
  {
    ItemsFirst(s, i, v, next);
    if s[next] == ',' { ItemsAfterComma(s, next, v); }
    if s[next] == ']' { ItemsClosed(s, next, v); }
  }

  ghost predicate ItemsDenote(texts: seq<string>, js: seq<Json>) {
    |texts| == |js| && forall k :: 0 <= k < |js| ==> Denotes(texts[k], js[k])
  }

  lemma {:induction false} ItemsDenoteTail(texts: seq<string>, js: seq<Json>)
    requires ItemsDenote(texts, js) && texts != []
    ensures ItemsDenote(texts[1..], js[1..]) && Denotes(texts[0], js[0])
  {
  }

  lemma {:induction false} OneItemRead(texts: seq<string>, js: seq<Json>, s: string, i: nat)
    requires |texts| == |js| == 1 && Denotes(texts[0], js[0]) && OccursAt(s, JoinItems(texts) + [']'], i)
    ensures ItemsFrom(s, i) == Ok(js, i + |JoinItems(texts)| + 1)
    ensures SkipWs(s, i) == i && s[i] != ']'
  {
    ReadThen(s, i, texts[0], js[0], [']']);
    ItemsStep(s, i, js[0], i + |texts[0]|);
    assert js == [js[0]];
  }

  lemma {:induction false} ItemsTextSplit(texts: seq<string>)
    requires |texts| > 1
    ensures JoinItems(texts) + [']'] == texts[0] + ([','] + (JoinItems(texts[1..]) + [']']))
    ensures |JoinItems(texts)| == |texts[0]| + 1 + |JoinItems(texts[1..])|
  {
  }

  /** The first of several items, and where the others stand. */
  lemma {:induction false} FirstItemRead(texts: seq<string>, js: seq<Json>, s: string, i: nat)
    requires |texts| == |js| > 1 && Denotes(texts[0], js[0]) && OccursAt(s, JoinItems(texts) + [']'], i)
    ensures var k := i + |texts[0]|;
            && ValueAt(s, i) == Ok(js[0], k) && k < |s| && s[k] == ',' && SkipWs(s, k) == k
            && OccursAt(s, JoinItems(texts[1..]) + [']'], k + 1)
    ensures SkipWs(s, i) == i && s[i] != ']'
  {
    ItemsTextSplit(texts);
    var rest := JoinItems(texts[1..]) + [']'];
    ReadThen(s, i, texts[0], js[0], [','] + rest);
    OccursSplit(s, [','], rest, i + |texts[0]|);
  }

  lemma {:induction false} MoreItemsRead(texts: seq<string>, js: seq<Json>, s: string, i: nat)
    requires |texts| == |js| > 1 && Denotes(texts[0], js[0]) && OccursAt(s, JoinItems(texts) + [']'], i)
    requires var k := i + |texts[0]| + 1;
             k <= |s| && ItemsFrom(s, k) == Ok(js[1..], k + |JoinItems(texts[1..])| + 1) && SkipWs(s, k) == k
    ensures ItemsFrom(s, i) == Ok(js, i + |JoinItems(texts)| + 1)
  {
    FirstItemRead(texts, js, s, i);
    ItemsTextSplit(texts);
    ItemsStep(s, i, js[0], i + |texts[0]|);
    assert js == [js[0]] + js[1..];
  }

  lemma {:induction false} ItemsRead(texts: seq<string>, js: seq<Json>, s: string, i: nat)
    requires texts != [] && ItemsDenote(texts, js)
    requires OccursAt(s, JoinItems(texts) + [']'], i)
    ensures ItemsFrom(s, i) == Ok(js, i + |JoinItems(texts)| + 1)
    ensures SkipWs(s, i) == i && s[i] != ']'
    decreases |texts|
  {
    ItemsDenoteTail(texts, js);
    if |texts| == 1 {
      OneItemRead(texts, js, s, i);
    } else {
      FirstItemRead(texts, js, s, i);
      ItemsRead(texts[1..], js[1..], s, i + |texts[0]| + 1);
      MoreItemsRead(texts, js, s, i);
    }
  }

  lemma {:induction false} MemberStep(s: string, i: nat, key: string, k: nat, j: Json, next: nat)
    requires i < k < |s| && s[i] == '"' && StringAt(s, i + 1) == Ok(key, k)
    requires SkipWs(s, k) == k && s[k] == ':' && SkipWs(s, k + 1) == k + 1 && ValueAt(s, k + 1) == Ok(j, next)
    ensures OneMember(s, i) == Ok((key, j), next)
  {
    assert SkipWs(s, SkipWs(s, k) + 1) == k + 1;
    MemberOf(s, i, key, k);
  }

  /** A quoted string, wherever it stands. */
  lemma {:induction false} QuoteRead(s: string, i: nat, v: string)
    requires OccursAt(s, Quote(v), i)
    ensures s[i] == '"' && StringAt(s, i + 1) == Ok(v, i + |Quote(v)|) && SkipWs(s, i) == i
  {
    OccursSplit(s, ['"'], Escape(v) + ['"'], i);
    OccursChar(s, ['"'], i, 0);
    ParseStringQuoted(s, i + 1, v);
    NoBlank(s, i);
  }

  /** A key up to and with its colon. */
  lemma {:induction false} KeyRead(s: string, i: nat, key: string, after: string)
    requires OccursAt(s, Quote(key) + ([':'] + after), i)
    ensures var k := i + |Quote(key)|;
            && k < |s| && s[i] == '"' && StringAt(s, i + 1) == Ok(key, k)
            && SkipWs(s, i) == i && SkipWs(s, k) == k && s[k] == ':' && OccursAt(s, after, k + 1)
  {
    var k := i + |Quote(key)|;
    OccursSplit(s, Quote(key), [':'] + after, i);
    QuoteRead(s, i, key);
    OccursSplit(s, [':'], after, k);
    OccursChar(s, [':'], k, 0);
    NoBlank(s, k);
  }

  lemma {:induction false} MemberTextSplit(m: Member, tail: string)
    ensures MemberText(m) + tail == Quote(m.0) + ([':'] + (m.1 + tail))
    ensures |MemberText(m)| == |Quote(m.0)| + 1 + |m.1|
  {
  }

  lemma {:induction false} QuotedMemberRead(key: string, text: string, j: Json, s: string, i: nat, tail: string)
    requires Denotes(text, j) && OccursAt(s, Quote(key) + ([':'] + (text + tail)), i)
    requires tail != "" && !IsNumberChar(tail[0]) && !IsWs(tail[0])
    ensures var k := i + |Quote(key)| + 1 + |text|;
            OneMember(s, i) == Ok((key, j), k) && OccursAt(s, tail, k) && SkipWs(s, k) == k && s[k] == tail[0]
    ensures SkipWs(s, i) == i && s[i] == '"'
  {
    KeyRead(s, i, key, text + tail);
    var k := i + |Quote(key)|;
    ReadThen(s, k + 1, text, j, tail);
    MemberStep(s, i, key, k, j, k + 1 + |text|);
  }

  /** A member, then what stands right after it. */
  lemma {:induction false} MemberRead(m: Member, j: Json, s: string, i: nat, tail: string)
    requires Denotes(m.1, j) && OccursAt(s, MemberText(m) + tail, i)
    requires tail != "" && !IsNumberChar(tail[0]) && !IsWs(tail[0])
    ensures var k := i + |MemberText(m)|;
            OneMember(s, i) == Ok((m.0, j), k) && OccursAt(s, tail, k) && SkipWs(s, k) == k && s[k] == tail[0]
    ensures SkipWs(s, i) == i && s[i] == '"'
  {
    MemberTextSplit(m, tail);
    OccursSame(s, MemberText(m) + tail, Quote(m.0) + ([':'] + (m.1 + tail)), i);
    QuotedMemberRead(m.0, m.1, j, s, i, tail);
  }

  lemma {:induction false} MembersFirst(s: string, i: nat, key: string, j: Json, next: nat, acc: map<string, Json>)
    requires i <= |s| && OneMember(s, i) == Ok((key, j), next)
    ensures next <= |s| && Members(s, i, acc) == MembersRest(s, next, acc[key := j])
  {
  }

  lemma {:induction false} LastMemberStep(s: string, i: nat, key: string, j: Json, next: nat, acc: map<string, Json>)
    requires i <= |s| && OneMember(s, i) == Ok((key, j), next) && next < |s| && SkipWs(s, next) == next && s[next] == '}'
    ensures Members(s, i, acc) == Ok(acc[key := j], next + 1)
  {
    MembersFirst(s, i, key, j, next, acc);
    MembersClosed(s, next, acc[key := j]);
  }

  lemma {:induction false} MembersStep(s: string, i: nat, key: string, j: Json, next: nat, acc: map<string, Json>)
    requires i <= |s| && OneMember(s, i) == Ok((key, j), next) && next < |s| && SkipWs(s, next) == next && s[next] == ','
    requires SkipWs(s, next + 1) == next + 1
    ensures Members(s, i, acc) == Members(s, next + 1, acc[key := j])
  {
    MembersFirst(s, i, key, j, next, acc);
    MembersAfterComma(s, next, acc[key := j]);
  }

  /** Each member's text is read as what `m` holds under its key. */
  ghost predicate AllDenote(ms: seq<Member>, m: map<string, Json>) {
    forall k :: 0 <= k < |ms| ==> ms[k].0 in m && Denotes(ms[k].1, m[ms[k].0])
  }

  lemma {:induction false} AllDenoteTail(ms: seq<Member>, m: map<string, Json>)
    requires ms != [] && AllDenote(ms, m)
    ensures AllDenote(ms[1..], m)
  {
    forall k | 0 <= k < |ms[1..]| ensures ms[1..][k].0 in m && Denotes(ms[1..][k].1, m[ms[1..][k].0]) {
      assert ms[1..][k] == ms[k + 1];
    }
  }

  /** `acc` after the members `ms`, as `m` holds them, were added in turn. */
  function Collect(acc: map<string, Json>, ms: seq<Member>, m: map<string, Json>): map<string, Json>
    requires forall k :: 0 <= k < |ms| ==> ms[k].0 in m
    decreases |ms|
  {
    if ms == [] then acc else Collect(acc[ms[0].0 := m[ms[0].0]], ms[1..], m)
  }

  lemma {:induction false} CollectIs(acc: map<string, Json>, ms: seq<Member>, m: map<string, Json>)
    requires forall k :: 0 <= k < |ms| ==> ms[k].0 in m
    ensures Collect(acc, ms, m) == acc + map k | k in m && k in KeysOf(ms) :: m[k]
    decreases |ms|
  {
    if ms != [] {
      KeysOfCons(ms);
      CollectIs(acc[ms[0].0 := m[ms[0].0]], ms[1..], m);
    }
  }

  lemma {:induction false} CollectAll(ms: seq<Member>, m: map<string, Json>)
    requires KeysOf(ms) == m.Keys && forall k :: 0 <= k < |ms| ==> ms[k].0 in m
    ensures Collect(map[], ms, m) == m
  {
    CollectIs(map[], ms, m);
  }

  /** The text of several members is the first, a comma and the others. */
  lemma {:induction false} MembersTextSplit(ms: seq<Member>)
    requires |ms| > 1
    ensures JoinMembers(ms) + ['}'] == MemberText(ms[0]) + ([','] + (JoinMembers(ms[1..]) + ['}']))
    ensures |JoinMembers(ms)| == |MemberText(ms[0])| + 1 + |JoinMembers(ms[1..])|
  {
  }

  lemma {:induction false} MemberThenComma(first: Member, j: Json, s: string, i: nat, rest: string)
    requires Denotes(first.1, j) && OccursAt(s, MemberText(first) + ([','] + rest), i)
    ensures var k := i + |MemberText(first)|;
            && OneMember(s, i) == Ok((first.0, j), k) && k < |s| && SkipWs(s, k) == k && s[k] == ','
            && OccursAt(s, rest, k + 1) && SkipWs(s, i) == i && s[i] == '"'
  {
    MemberRead(first, j, s, i, [','] + rest);
    OccursSplit(s, [','], rest, i + |MemberText(first)|);
  }

  lemma {:induction false} FirstDenotes(ms: seq<Member>, m: map<string, Json>)
    requires AllDenote(ms, m) && ms != []
    ensures ms[0].0 in m && Denotes(ms[0].1, m[ms[0].0])
  {
  }

  lemma {:induction false} FirstMemberRead(ms: seq<Member>, m: map<string, Json>, s: string, i: nat)
    requires |ms| > 1 && AllDenote(ms, m) && OccursAt(s, JoinMembers(ms) + ['}'], i)
    ensures var k := i + |MemberText(ms[0])|;
            && OneMember(s, i) == Ok((ms[0].0, m[ms[0].0]), k) && k < |s| && SkipWs(s, k) == k && s[k] == ','
            && OccursAt(s, JoinMembers(ms[1..]) + ['}'], k + 1)
            && SkipWs(s, i) == i && s[i] == '"' && |JoinMembers(ms)| == |MemberText(ms[0])| + 1 + |JoinMembers(ms[1..])|
  {
    MembersTextSplit(ms);
    FirstDenotes(ms, m);
    var rest := JoinMembers(ms[1..]) + ['}'];
    OccursSame(s, JoinMembers(ms) + ['}'], MemberText(ms[0]) + ([','] + rest), i);
    MemberThenComma(ms[0], m[ms[0].0], s, i, rest);
  }

  lemma {:induction false} LastMemberRead(ms: seq<Member>, m: map<string, Json>, s: string, i: nat, acc: map<string, Json>)
    requires |ms| == 1 && AllDenote(ms, m) && OccursAt(s, JoinMembers(ms) + ['}'], i)
    ensures Members(s, i, acc) == Ok(acc[ms[0].0 := m[ms[0].0]], i + |JoinMembers(ms)| + 1)
    ensures SkipWs(s, i) == i && s[i] == '"'
  {
    var j := m[ms[0].0];
    MemberRead(ms[0], j, s, i, ['}']);
    LastMemberStep(s, i, ms[0].0, j, i + |MemberText(ms[0])|, acc);
  }

  lemma {:induction false} MembersStart(ms: seq<Member>, s: string, i: nat)
    requires ms != [] && OccursAt(s, JoinMembers(ms) + ['}'], i)
    ensures i < |s| && s[i] == '"' && SkipWs(s, i) == i
  {
    OccursChar(s, JoinMembers(ms) + ['}'], i, 0);
    assert (JoinMembers(ms) + ['}'])[0] == Quote(ms[0].0)[0];
    NoBlank(s, i);
  }

  /** The first of several members is read, and reading goes on with the others. */
  lemma {:induction false} MembersGoOn(ms: seq<Member>, m: map<string, Json>, s: string, i: nat, acc: map<string, Json>)
    requires |ms| > 1 && AllDenote(ms, m) && OccursAt(s, JoinMembers(ms) + ['}'], i)
    ensures var k := i + |MemberText(ms[0])|;
            && OccursAt(s, JoinMembers(ms[1..]) + ['}'], k + 1)
            && Members(s, i, acc) == Members(s, k + 1, acc[ms[0].0 := m[ms[0].0]])
  {
    FirstMemberRead(ms, m, s, i);
    MembersStart(ms[1..], s, i + |MemberText(ms[0])| + 1);
    MembersStep(s, i, ms[0].0, m[ms[0].0], i + |MemberText(ms[0])|, acc);
  }

  lemma {:induction false} OneMemberRead(ms: seq<Member>, m: map<string, Json>, s: string, i: nat, acc: map<string, Json>)
    requires |ms| == 1 && AllDenote(ms, m) && OccursAt(s, JoinMembers(ms) + ['}'], i)
    ensures Members(s, i, acc) == Ok(Collect(acc, ms, m), i + |JoinMembers(ms)| + 1)
  {
    CollectFirst(acc, ms, m);
    LastMemberRead(ms, m, s, i, acc);
  }

  lemma {:induction false} MoreMembersRead(ms: seq<Member>, m: map<string, Json>, s: string, i: nat, acc: map<string, Json>)
    requires |ms| > 1 && AllDenote(ms, m) && OccursAt(s, JoinMembers(ms) + ['}'], i)
    requires AllDenote(ms[1..], m)
    requires var k, next := i + |MemberText(ms[0])| + 1, acc[ms[0].0 := m[ms[0].0]];
             k <= |s| && Members(s, k, next) == Ok(Collect(next, ms[1..], m), k + |JoinMembers(ms[1..])| + 1)
    ensures Members(s, i, acc) == Ok(Collect(acc, ms, m), i + |JoinMembers(ms)| + 1)
  {
    CollectFirst(acc, ms, m);
    MembersGoOn(ms, m, s, i, acc);
    MembersTextSplit(ms);
  }

  lemma {:induction false} MembersRead(ms: seq<Member>, m: map<string, Json>, s: string, i: nat, acc: map<string, Json>)
    requires ms != [] && AllDenote(ms, m)
    requires OccursAt(s, JoinMembers(ms) + ['}'], i)
    ensures Members(s, i, acc) == Ok(Collect(acc, ms, m), i + |JoinMembers(ms)| + 1)
    decreases |ms|
  {
    if |ms| == 1 {
      OneMemberRead(ms, m, s, i, acc);
    } else {
      AllDenoteTail(ms, m);
      MembersGoOn(ms, m, s, i, acc);
      MembersRead(ms[1..], m, s, i + |MemberText(ms[0])| + 1, acc[ms[0].0 := m[ms[0].0]]);
      MoreMembersRead(ms, m, s, i, acc);
    }
  }

  lemma {:induction false} CollectFirst(acc: map<string, Json>, ms: seq<Member>, m: map<string, Json>)
    requires ms != [] && forall k :: 0 <= k < |ms| ==> ms[k].0 in m
    ensures Collect(acc, ms, m) == Collect(acc[ms[0].0 := m[ms[0].0]], ms[1..], m)
    ensures |ms| == 1 ==> Collect(acc, ms, m) == acc[ms[0].0 := m[ms[0].0]]
  {
  }

  lemma {:induction false} KeysOfCons(ms: seq<Member>)
    requires ms != []
    ensures KeysOf(ms) == {ms[0].0} + KeysOf(ms[1..])
  {
    assert ms == [ms[0]] + ms[1..];
  }

  /** An object's text is read back as its fields, in whatever order they stand. */
  lemma {:induction false} ObjectDenotes(ms: seq<Member>, m: map<string, Json>)
    requires KeysOf(ms) == m.Keys && AllDenote(ms, m)
    ensures Denotes(['{'] + (JoinMembers(ms) + ['}']), Obj(m))
  {
    var text := ['{'] + (JoinMembers(ms) + ['}']);
    forall s: string, i: nat | OccursAt(s, text, i) ensures ParseValue(s, i) == Ok(Obj(m), i + |text|) {
      ObjectRead(ms, m, s, i);
    }
  }

  lemma {:induction false} ObjectRead(ms: seq<Member>, m: map<string, Json>, s: string, i: nat)
    requires KeysOf(ms) == m.Keys && AllDenote(ms, m)
    requires OccursAt(s, ['{'] + (JoinMembers(ms) + ['}']), i)
    ensures ParseValue(s, i) == Ok(Obj(m), i + |JoinMembers(ms)| + 2)
  {
    var body := JoinMembers(ms) + ['}'];
    OccursSplit(s, ['{'], body, i);
    OccursChar(s, ['{'], i, 0);
    if ms == [] {
      assert m == map[];
      OccursChar(s, body, i + 1, 0);
      NoBlank(s, i + 1);
    } else {
      MembersStart(ms, s, i + 1);
      CollectAll(ms, m);
      MembersRead(ms, m, s, i + 1, map[]);
    }
  }

  lemma {:induction false} ArrayDenotes(texts: seq<string>, js: seq<Json>)
    requires |texts| == |js| && forall k :: 0 <= k < |js| ==> Denotes(texts[k], js[k])
    ensures Denotes(['['] + (JoinItems(texts) + [']']), Arr(js))
  {
    var text := ['['] + (JoinItems(texts) + [']']);
    forall s: string, i: nat | OccursAt(s, text, i) ensures ParseValue(s, i) == Ok(Arr(js), i + |text|) {
      OccursChar(s, text, i, 0);
      OccursSplit(s, ['['], JoinItems(texts) + [']'], i);
      if texts == [] {
        OccursChar(s, text, i, 1);
        NoBlank(s, i + 1);
      } else {
        ItemsRead(texts, js, s, i + 1);
      }
    }
  }

  // ----- the faithful encoding -----

  /** A value has a canonical text exactly when it has a meaning, and the text is read back as the meaning. */
  lemma {:induction false} CanonicalDenotes(v: Value)
    requires KeysDistinct(v)
    ensures Canonical(v).Some? <==> Meaning(v).Some?
    ensures Canonical(v).Some? ==> Denotes(Canonical(v).value, Meaning(v).value)
    decreases v, 0
  {
    match v
    case VNull => WordsDenote();
    case VBool(_) => WordsDenote();
    case VStr(t) => QuoteDenotes(t);
    case VInt(n) => IntDenotes(n);
    case VArr(items) =>
      CanonicalItemsDenote(items);
      if Meaning(v).Some? { ArrayDenotes(CanonicalItems(items).value, MeaningItems(items).value); }
    case VObj(entries) =>
      CanonicalMembersDenote(entries);
      if Meaning(v).Some? {
        var ms := CanonicalMembers(entries).value;
        SortKeepsMembers(ms);
        var sorted, m := SortMembers(ms), MeaningMembers(entries).value;
        SameKeys(ms, sorted);
        forall k | 0 <= k < |sorted| ensures sorted[k].0 in m && Denotes(sorted[k].1, m[sorted[k].0]) {
          assert sorted[k] in ms;
        }
        ObjectDenotes(sorted, m);
      }
    case _ =>
  }

  lemma {:induction false} SameKeys(a: seq<Member>, b: seq<Member>)
    requires forall m :: m in a <==> m in b
    ensures KeysOf(a) == KeysOf(b)
  {
    forall k ensures k in KeysOf(a) <==> k in KeysOf(b) {
      if k in KeysOf(a) { var i :| 0 <= i < |a| && a[i].0 == k; assert a[i] in b; }
      if k in KeysOf(b) { var i :| 0 <= i < |b| && b[i].0 == k; assert b[i] in a; }
    }
  }

  lemma {:induction false} CanonicalItemsDenote(items: seq<Value>)
    requires forall i :: 0 <= i < |items| ==> KeysDistinct(items[i])
    ensures CanonicalItems(items).Some? <==> MeaningItems(items).Some?
    ensures CanonicalItems(items).Some? ==>
              |CanonicalItems(items).value| == |MeaningItems(items).value|
              && forall k :: 0 <= k < |MeaningItems(items).value| ==>
                   Denotes(CanonicalItems(items).value[k], MeaningItems(items).value[k])
    decreases items, 1
  {
    if items != [] {
      CanonicalDenotes(items[0]);
      CanonicalItemsDenote(items[1..]);
    }
  }

  lemma {:induction false} CanonicalMembersDenote(entries: seq<Entry>)
    requires EntriesDistinct(entries)
    ensures CanonicalMembers(entries).Some? <==> MeaningMembers(entries).Some?
    ensures CanonicalMembers(entries).Some? ==>
              MembersMatch(entries, CanonicalMembers(entries).value, MeaningMembers(entries).value)
    decreases entries, 1
  {
    if entries != [] {
      var v, rest := entries[0].value, entries[1..];
      CanonicalMembersDenote(rest);
      if !v.VUndefined? { CanonicalDenotes(v); }
      if CanonicalMembers(entries).Some? {
        if v.VUndefined? {
          MatchLaterEntries(entries, CanonicalMembers(rest).value, MeaningMembers(rest).value);
        } else {
          MatchCons(entries, CanonicalMembers(rest).value, MeaningMembers(rest).value, Canonical(v).value, Meaning(v).value);
        }
      }
    }
  }

  /** What is kept about the printed and the meant members of an entry list. */
  ghost predicate MembersMatch(entries: seq<Entry>, ms: seq<Member>, m: map<string, Json>) {
    && Unique(ms) && KeysOf(ms) == m.Keys && AllDenote(ms, m)
    && (forall k :: k in m ==> exists i :: 0 <= i < |entries| && entries[i].key == k)
  }

  lemma {:induction false} MatchLaterEntries(entries: seq<Entry>, ms: seq<Member>, m: map<string, Json>)
    requires entries != [] && MembersMatch(entries[1..], ms, m)
    ensures MembersMatch(entries, ms, m)
  {
    forall k | k in m ensures exists i :: 0 <= i < |entries| && entries[i].key == k {
      var i :| 0 <= i < |entries[1..]| && entries[1..][i].key == k;
      assert entries[i + 1].key == k;
    }
  }

  lemma {:induction false} DenoteCons(ms: seq<Member>, m: map<string, Json>, key: string, text: string, j: Json)
    requires AllDenote(ms, m) && key !in KeysOf(ms) && Denotes(text, j)
    ensures AllDenote([(key, text)] + ms, m[key := j])
  {
    var all, n := [(key, text)] + ms, m[key := j];
    forall k | 0 <= k < |all| ensures all[k].0 in n && Denotes(all[k].1, n[all[k].0]) {
      if k > 0 {
        assert all[k] == ms[k - 1];
        assert ms[k - 1].0 in KeysOf(ms);
      }
    }
  }

  lemma {:induction false} UniqueCons(ms: seq<Member>, first: Member)
    requires Unique(ms) && first.0 !in KeysOf(ms)
    ensures Unique([first] + ms) && KeysOf([first] + ms) == {first.0} + KeysOf(ms)
  {
    var all := [first] + ms;
    forall k | 0 <= k < |ms| ensures all[k + 1] == ms[k] && ms[k].0 != first.0 {
      assert ms[k].0 in KeysOf(ms);
    }
    KeysOfCons(all);
    assert all[1..] == ms;
  }

  lemma {:induction false} MatchCons(entries: seq<Entry>, ms: seq<Member>, m: map<string, Json>, text: string, j: Json)
    requires entries != [] && EntriesDistinct(entries) && MembersMatch(entries[1..], ms, m) && Denotes(text, j)
    ensures MembersMatch(entries, [(entries[0].key, text)] + ms, m[entries[0].key := j])
  {
    var key := entries[0].key;
    forall k | k in m ensures k != key && exists i :: 0 <= i < |entries| && entries[i].key == k {
      var i :| 0 <= i < |entries[1..]| && entries[1..][i].key == k;
      assert entries[i + 1].key == k;
    }
    UniqueCons(ms, (key, text));
    DenoteCons(ms, m, key, text, j);
  }

  /** Every canonical text parses, to exactly what the value means. */
  lemma {:induction false} ParseCanonical(v: Value)
    requires KeysDistinct(v) && Canonical(v).Some?
    ensures Meaning(v).Some? && ParseDocument(Canonical(v).value) == Meaning(v)
  {
    CanonicalDenotes(v);
    var text := Canonical(v).value;
    assert OccursAt(text, text, 0);
    NoBlank(text, 0);
    assert ParseValue(text, 0) == Ok(Meaning(v).value, |text|);
    assert SkipWs(text, |text|) == |text|;
  }

  /** What a member list holds under a key comes from the entry with that key. */
  lemma {:induction false} MemberOfEntry(entries: seq<Entry>, key: string)
    requires EntriesDistinct(entries) && MeaningMembers(entries).Some? && CanonicalMembers(entries).Some?
    requires key in MeaningMembers(entries).value
    ensures exists i :: 0 <= i < |entries| && entries[i].key == key && IsMember(entries, i)
    decreases |entries|
  {
    if entries[0].value.VUndefined? || entries[0].key != key {
      MemberOfEntry(entries[1..], key);
      var i :| 0 <= i < |entries[1..]| && entries[1..][i].key == key && IsMember(entries[1..], i);
      assert IsMember(entries, i + 1);
    } else {
      assert IsMember(entries, 0);
    }
  }

  /** Entry `i` contributes its text and its meaning. */
  ghost predicate IsMember(entries: seq<Entry>, i: nat) {
    && i < |entries| && CanonicalMembers(entries).Some? && MeaningMembers(entries).Some?
    && KeysDistinct(entries[i].value)
    && Canonical(entries[i].value).Some? && Meaning(entries[i].value).Some?
    && (entries[i].key, Canonical(entries[i].value).value) in CanonicalMembers(entries).value
    && entries[i].key in MeaningMembers(entries).value
    && MeaningMembers(entries).value[entries[i].key] == Meaning(entries[i].value).value
  }

  /** Values that mean the same print the same: insertion order leaves no trace. */
  lemma {:induction false} MeaningDeterminesText(v: Value, w: Value)
    requires KeysDistinct(v) && KeysDistinct(w) && Meaning(v).Some? && Meaning(v) == Meaning(w)
    ensures Canonical(v) == Canonical(w)
    decreases v, 0
  {
    CanonicalDenotes(v);
    CanonicalDenotes(w);
    match v
    case VArr(items) => ItemsDetermineText(items, w.items);
    case VObj(entries) =>
      CanonicalMembersDenote(entries);
      CanonicalMembersDenote(w.entries);
      var a, b := CanonicalMembers(entries).value, CanonicalMembers(w.entries).value;
      forall m ensures m in a <==> m in b {
        if m in a || m in b {
          assert m.0 in KeysOf(a) || m.0 in KeysOf(b);
          MembersAgree(v, entries, w.entries, m.0);
          if m in a { OnlyMember(a, m); }
          if m in b { OnlyMember(b, m); }
        }
      }
      SortKeepsMembers(a);
      SortKeepsMembers(b);
      SortedUnique(SortMembers(a), SortMembers(b));
    case _ =>
  }

  lemma {:induction false} OnlyMember(ms: seq<Member>, m: Member)
    requires Unique(ms) && m in ms
    ensures forall n :: n in ms && n.0 == m.0 ==> n == m
  {
  }

  /** Two entry lists that mean the same hold the same text under each key. */
  lemma {:induction false} MembersAgree(v: Value, a: seq<Entry>, b: seq<Entry>, key: string)
    requires v == VObj(a) && EntriesDistinct(a) && EntriesDistinct(b)
    requires MeaningMembers(a).Some? && MeaningMembers(a) == MeaningMembers(b)
    requires CanonicalMembers(a).Some? && CanonicalMembers(b).Some? && key in MeaningMembers(a).value
    ensures exists t: string :: (key, t) in CanonicalMembers(a).value && (key, t) in CanonicalMembers(b).value
    decreases v, -1
  {
    MemberOfEntry(a, key);
    MemberOfEntry(b, key);
    var i :| 0 <= i < |a| && a[i].key == key && IsMember(a, i);
    var j :| 0 <= j < |b| && b[j].key == key && IsMember(b, j);
    MeaningDeterminesText(a[i].value, b[j].value);
    assert (key, Canonical(a[i].value).value) in CanonicalMembers(b).value;
  }

  lemma {:induction false} ItemsDetermineText(a: seq<Value>, b: seq<Value>)
    requires MeaningItems(a).Some? && MeaningItems(a) == MeaningItems(b)
    requires (forall i :: 0 <= i < |a| ==> KeysDistinct(a[i])) && (forall i :: 0 <= i < |b| ==> KeysDistinct(b[i]))
    ensures CanonicalItems(a) == CanonicalItems(b)
    decreases a, 1
  {
    if a != [] && b != [] {
      assert MeaningItems(a).value[1..] == MeaningItems(a[1..]).value;
      assert MeaningItems(b).value[1..] == MeaningItems(b[1..]).value;
      MeaningDeterminesText(a[0], b[0]);
      ItemsDetermineText(a[1..], b[1..]);
    }
  }

  /** Faithful: two values have the same canonical text exactly when they mean the same. */
  lemma {:induction false} CanonicalFaithful(v: Value, w: Value)
    requires KeysDistinct(v) && KeysDistinct(w) && Canonical(v).Some? && Canonical(w).Some?
    ensures Canonical(v) == Canonical(w) <==> Meaning(v) == Meaning(w)
  {
    ParseCanonical(v);
    ParseCanonical(w);
    if Meaning(v) == Meaning(w) { MeaningDeterminesText(v, w); }
  }
}
