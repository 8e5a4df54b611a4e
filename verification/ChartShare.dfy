/**
 * Verifying a chart and sharing it wallet to wallet (src/apps/chartValidator.ts,
 * src/apps/chartShare.ts): the packet that carries a chart, its hash and its
 * readable name, and the book that says whose each author name is.
 */
module ChartSharing {
  import opened Prelude
  import opened JsonText
  import opened CanonicalJson
  import opened ChartTypes
  import opened ChartFormat
  import opened ChartRunner
  import opened ChartShape

  // ----- bytes -----

  function Utf8Bytes(c: char): nat {
    if c as int < 0x80 then 1 else if c as int < 0x800 then 2 else if c as int < 0x10000 then 3 else 4
  }

  function Utf8Length(s: string): nat {
    if s == "" then 0 else Utf8Bytes(s[0]) + Utf8Length(s[1..])
  }

  lemma {:induction false} Utf8Adds(a: string, b: string)
    ensures Utf8Length(a + b) == Utf8Length(a) + Utf8Length(b)
  {
    if a == "" {
      assert a + b == b;
    } else {
      assert (a + b)[1..] == a[1..] + b;
      Utf8Adds(a[1..], b);
    }
  }

  /** Printed as it is: no quote, backslash or control character, one byte each. */
  predicate IsPlain(s: string) {
    forall i | 0 <= i < |s| :: 32 <= s[i] as int < 0x80 && s[i] != '"' && s[i] != '\\'
  }

  lemma {:induction false} PlainQuoted(s: string)
    requires IsPlain(s)
    ensures Escape(s) == s && Utf8Length(s) == |s| && Utf8Length(Quote(s)) == |s| + 2
  {
    if s != "" {
      PlainQuoted(s[1..]);
      assert s == [s[0]] + s[1..];
    }
    Utf8Adds(Escape(s), ['"']);
    Utf8Adds(['"'], Escape(s) + ['"']);
  }

  // ----- the canonical text of a JSON value -----

  ghost predicate Printable(j: Json) {
    exists v :: KeysDistinct(v) && Meaning(v) == Some(j)
  }

  /** Some JavaScript value that means it. */
  ghost function Printed(j: Json): (v: Value)
    requires Printable(j)
    ensures KeysDistinct(v) && Meaning(v) == Some(j)
  {
    var v :| KeysDistinct(v) && Meaning(v) == Some(j);
    v
  }

  /** The canonical text, the same whatever order the keys were in. */
  ghost function CanonicalText(j: Json): string
    requires Printable(j)
  {
    CanonicalDenotes(Printed(j));
    Canonical(Printed(j)).value
  }

  lemma {:induction false} CanonicalTextIs(v: Value)
    requires KeysDistinct(v) && Meaning(v).Some?
    ensures Canonical(v) == Some(CanonicalText(Meaning(v).value))
  {
    CanonicalDenotes(v);
    MeaningDeterminesText(v, Printed(Meaning(v).value));
  }

  function Dropped(entries: seq<Entry>, key: string): seq<Entry> {
    if entries == [] then [] else (if entries[0].key == key then [] else [entries[0]]) + Dropped(entries[1..], key)
  }

  lemma {:induction false} MeantKeys(entries: seq<Entry>, key: string)
    requires MeaningMembers(entries).Some? && key in MeaningMembers(entries).value
    ensures exists i :: 0 <= i < |entries| && entries[i].key == key
  {
    if !(!entries[0].value.VUndefined? && entries[0].key == key) {
      MeantKeys(entries[1..], key);
      var i :| 0 <= i < |entries[1..]| && entries[1..][i].key == key;
      assert entries[i + 1].key == key;
    }
  }

  lemma {:induction false} FirstKeyOnce(entries: seq<Entry>)
    requires entries != [] && EntriesDistinct(entries) && MeaningMembers(entries[1..]).Some?
    ensures entries[0].key !in MeaningMembers(entries[1..]).value
  {
    if entries[0].key in MeaningMembers(entries[1..]).value { MeantKeys(entries[1..], entries[0].key); }
  }

  lemma {:induction false} DroppedDistinct(entries: seq<Entry>, key: string)
    requires EntriesDistinct(entries)
    ensures EntriesDistinct(Dropped(entries, key))
    ensures forall e :: e in Dropped(entries, key) ==> e in entries
  {
    if entries != [] {
      DroppedDistinct(entries[1..], key);
      var rest := Dropped(entries[1..], key);
      if entries[0].key != key {
        assert Dropped(entries, key)[1..] == rest;
        forall i | 0 < i < |Dropped(entries, key)| ensures Dropped(entries, key)[i].key != entries[0].key {
          assert Dropped(entries, key)[i] in rest;
        }
      } else {
        assert Dropped(entries, key) == rest;
      }
    }
  }

  lemma {:induction false} DroppedMeans(entries: seq<Entry>, key: string)
    requires EntriesDistinct(entries) && MeaningMembers(entries).Some?
    ensures MeaningMembers(Dropped(entries, key)) == Some(MeaningMembers(entries).value - {key})
  {
    if entries != [] {
      var first, rest := entries[0], entries[1..];
      assert entries == [first] + rest;
      ConsMeans(first, rest);
      DroppedMeans(rest, key);
      FirstKeyOnce(entries);
      var meant := MeaningMembers(rest).value;
      if first.key != key {
        ConsMeans(first, Dropped(rest, key));
      } else {
        assert Dropped(entries, key) == Dropped(rest, key);
        assert meant - {key} == meant;
      }
      if !first.value.VUndefined? {
        var j := Meaning(first.value).value;
        assert meant[first.key := j] - {key} == if first.key == key then meant - {key} else (meant - {key})[first.key := j];
      }
    } else {
      var none: map<string, Json> := map[];
      assert none - {key} == none;
    }
  }

  lemma {:induction false} ConsMeans(first: Entry, rest: seq<Entry>)
    ensures MeaningMembers([first] + rest)
            == if first.value.VUndefined? then MeaningMembers(rest)
               else match (Meaning(first.value), MeaningMembers(rest))
                 case (Some(j), Some(more)) => Some(more[first.key := j])
                 case _ => None
  {
    assert ([first] + rest)[1..] == rest;
  }

  /** unsignedChart: what the hash and the signature cover. */
  function Unsigned(raw: Json): Json {
    if raw.Obj? then Obj(raw.fields - {"signature"}) else raw
  }

  lemma {:induction false} UnsignedPrints(raw: Json)
    requires Printable(raw)
    ensures Printable(Unsigned(raw))
  {
    var v :| KeysDistinct(v) && Meaning(v) == Some(raw);
    if raw.Obj? {
      DroppedMeans(v.entries, "signature");
      DroppedDistinct(v.entries, "signature");
      var u := VObj(Dropped(v.entries, "signature"));
      assert KeysDistinct(u) && Meaning(u) == Some(Unsigned(raw));
    }
  }

  // ----- verifying -----

  datatype CoinOn = CoinOn(coin: Coin, network: Network)

  /** What the running wallet offers. */
  datatype Support = Support(coins: seq<CoinOn>, boxes: seq<string>)

  /** The hash and signature schemes, and which addresses are fixed https addresses. */
  datatype Schemes = Schemes(sha: string -> string, verifies: (string, string, string) -> bool, goodUrl: string -> bool)

  predicate OffersCoin(support: Support, coin: Coin, networks: seq<Network>) {
    exists c | c in support.coins :: c.coin == coin && c.network in networks
  }

  predicate OffersEffect(support: Support, e: Effect) {
    match e
    case RequestPayment(coin, networks, _, _, _, _) => OffersCoin(support, coin, networks)
    case SendPayment(coin, networks, _, _, _, _) => OffersCoin(support, coin, networks)
    case SendItem(coin, networks, _, _) => OffersCoin(support, coin, networks)
    case ListMessages(boxes, _, _) => forall box | box in boxes :: box in support.boxes
    case _ => true
  }

  predicate Offers(support: Support, chart: ChartApp) {
    forall e | e in chart.effects :: OffersEffect(support, chart.effects[e])
  }

  /** Every coin and box the chart needs that the wallet lacks: none exactly when the wallet offers all of them. */
  method UnsupportedNeeds(chart: ChartApp, support: Support) returns (missing: seq<string>)
    ensures missing == [] <==> Offers(support, chart)
  {
    missing := [];
    var todo := chart.effects.Keys;
    while todo != {}
      invariant todo <= chart.effects.Keys
      invariant missing == [] <==> forall e :: e in chart.effects && e !in todo ==> OffersEffect(support, chart.effects[e])
      decreases todo
    {
      var id :| id in todo;
      var effect := chart.effects[id];
      if effect.RequestPayment? || effect.SendPayment? || effect.SendItem? {
        if !OffersCoin(support, effect.coin, effect.networks) { missing := missing + [id + ": coin"]; }
      }
      if effect.ListMessages? {
        var boxes := effect.boxes;
        ghost var before := missing;
        for i := 0 to |boxes|
          invariant missing == [] <==> before == [] && forall k :: 0 <= k < i ==> boxes[k] in support.boxes
        {
          if boxes[i] !in support.boxes { missing := missing + [id + ": message box " + boxes[i]]; }
        }
      }
      todo := todo - {id};
    }
  }

  const PREIMAGE_TAG := "chart-app/1\n"

  /** chartHash */
  ghost function HashOf(raw: Json, schemes: Schemes): string
    requires Printable(raw)
  {
    UnsignedPrints(raw);
    schemes.sha(CanonicalText(Unsigned(raw)))
  }

  datatype Verification = Verified(chart: ChartApp, hash: string) | Invalid | WrongHash | WrongSignature | Unsupported

  ghost function SizeOf(raw: Json): Option<nat> {
    if Printable(raw) then Some(Utf8Length(CanonicalText(raw))) else None
  }

  /** Everything the wallet checks before it shows or runs a chart. */
  ghost function VerifyChart(raw: Json, support: Support, schemes: Schemes, expectedHash: Option<string>): Verification {
    if !Accepts(raw, SizeOf(raw), schemes.goodUrl) then Invalid
    else
      var chart, hash := DecodeChart(raw, schemes.goodUrl).value, HashOf(raw, schemes);
      if expectedHash.Some? && expectedHash.value != "" && Lower(expectedHash.value) != hash then WrongHash
      else if !schemes.verifies(chart.author.identityKey, PREIMAGE_TAG + hash, chart.signature) then WrongSignature
      else if !Offers(support, chart) then Unsupported
      else Verified(chart, hash)
  }

  // ----- names -----

  predicate IsSlugChar(c: char) {
    IsLetter(c) || IsDigit(c)
  }

  function SkipOthers(t: string): (rest: string)
    ensures |rest| <= |t|
    ensures t != "" && !IsSlugChar(t[0]) ==> |rest| < |t|
    ensures rest != "" ==> IsSlugChar(rest[0])
  {
    if t != "" && !IsSlugChar(t[0]) then SkipOthers(t[1..]) else t
  }

  /** Every run of other characters becomes one dash. */
  function Dashed(t: string): string
    decreases |t|
  {
    if t == "" then "" else if IsSlugChar(t[0]) then [t[0]] + Dashed(t[1..]) else ['-'] + Dashed(SkipOthers(t))
  }

  function Clip(s: string, max: nat): string {
    if |s| > max then s[..max] else s
  }

  function TrimDashesStart(s: string): (t: string)
    ensures |t| <= |s|
  {
    if s != "" && s[0] == '-' then TrimDashesStart(s[1..]) else s
  }

  function TrimDashesEnd(s: string): string {
    if s != "" && s[|s| - 1] == '-' then TrimDashesEnd(s[..|s| - 1]) else s
  }

  /** Lowercase letters, digits and single dashes; `folded` is the name with its accents and capitals folded away. */
  function NameSlug(folded: string): string {
    var slug := TrimDashesEnd(TrimDashesStart(Clip(Dashed(folded), 32)));
    if slug == "" then "author" else slug
  }

  /** Letters, digits and dashes, no two dashes together. */
  predicate Spaced(s: string) {
    && (forall i | 0 <= i < |s| :: IsSlugChar(s[i]) || s[i] == '-')
    && (forall i | 0 <= i < |s| - 1 :: s[i] != '-' || s[i + 1] != '-')
  }

  /** One half of a readable name: `[a-z0-9]+(-[a-z0-9]+)*`. */
  predicate IsSlug(s: string) {
    s != "" && Spaced(s) && s[0] != '-' && s[|s| - 1] != '-'
  }

  lemma {:induction false} DashedSpaced(t: string)
    ensures Spaced(Dashed(t))
    ensures t != "" && IsSlugChar(t[0]) ==> Dashed(t) != "" && Dashed(t)[0] == t[0]
    decreases |t|
  {
    if t != "" {
      if IsSlugChar(t[0]) { DashedSpaced(t[1..]); } else { DashedSpaced(SkipOthers(t)); }
    }
  }

  lemma {:induction false} TrimStartSpaced(s: string)
    requires Spaced(s)
    ensures var t := TrimDashesStart(s); Spaced(t) && |t| <= |s| && (t != "" ==> t[0] != '-')
  {
    if s != "" && s[0] == '-' { TrimStartSpaced(s[1..]); }
  }

  lemma {:induction false} TrimEndSpaced(s: string)
    requires Spaced(s) && (s != "" ==> s[0] != '-')
    ensures var t := TrimDashesEnd(s); Spaced(t) && |t| <= |s| && (t != "" ==> t[0] != '-' && t[|t| - 1] != '-')
  {
    if s != "" && s[|s| - 1] == '-' { TrimEndSpaced(s[..|s| - 1]); }
  }

  /** Whatever the author is called, the slug is half a readable name, at most 32 long. */
  lemma {:induction false} SlugIsReadable(folded: string)
    ensures IsSlug(NameSlug(folded)) && |NameSlug(folded)| <= 32
  {
    DashedSpaced(folded);
    var clipped := Clip(Dashed(folded), 32);
    assert Spaced(clipped);
    TrimStartSpaced(clipped);
    TrimEndSpaced(TrimDashesStart(clipped));
  }

  /** `author/app-id` */
  function ReadableName(chart: ChartApp, fold: string -> string): string {
    NameSlug(fold(chart.author.name)) + ("/" + chart.id)
  }

  function IndexOfSlash(s: string): (i: nat)
    ensures i <= |s| && (i < |s| ==> s[i] == '/') && '/' !in s[..i]
  {
    if s == "" || s[0] == '/' then 0
    else
      var i := IndexOfSlash(s[1..]);
      assert s[..i + 1] == [s[0]] + s[1..][..i];
      i + 1
  }

  /** The stored form of a typed name: two slugs with a slash between. */
  predicate IsReadableName(name: string) {
    var i := IndexOfSlash(name);
    i < |name| && IsSlug(name[..i]) && IsSlug(name[i + 1..])
  }

  lemma {:induction false} FirstSlash(name: string, k: nat)
    requires k < |name| && name[k] == '/' && '/' !in name[..k]
    ensures IndexOfSlash(name) == k
  {
    if name[0] != '/' {
      assert name[..k] == [name[0]] + name[1..][..k - 1];
      FirstSlash(name[1..], k - 1);
    }
  }

  lemma {:induction false} SlashAt(author: string, id: string)
    requires '/' !in author
    ensures var name := author + ("/" + id);
            IndexOfSlash(name) == |author| && name[..|author|] == author && name[|author| + 1..] == id
  {
    var name := author + ("/" + id);
    assert name[|author|] == '/' && name[..|author|] == author;
    FirstSlash(name, |author|);
  }

  /** A typed name reaches a chart exactly when the chart's id is itself a slug; ids like `a--b` or `a-` can be shared but never looked up. */
  lemma {:induction false} NameResolvesExactlyWhen(chart: ChartApp, fold: string -> string)
    ensures IsReadableName(ReadableName(chart, fold)) <==> IsSlug(chart.id)
  {
    var author := NameSlug(fold(chart.author.name));
    SlugIsReadable(fold(chart.author.name));
    SlashAt(author, chart.id);
  }

  // ----- the name book -----

  /** Which author key holds a name, and the chart last opened under it. */
  datatype NameEntry = NameEntry(authorKey: string, id: string, hash: string)

  type NameBook = map<string, NameEntry>

  /** `name.slice(0, name.indexOf('/') + 1)` */
  function AuthorPart(name: string): string {
    var i := IndexOfSlash(name);
    if i < |name| then name[..i + 1] else ""
  }

  predicate HeldByOther(book: NameBook, name: string, authorKey: string) {
    exists held | held in book :: StartsWith(held, AuthorPart(name)) && book[held].authorKey != authorKey
  }

  function Bind(book: NameBook, chart: ChartApp, hash: string, fold: string -> string): Option<NameBook> {
    var name := ReadableName(chart, fold);
    if HeldByOther(book, name, chart.author.identityKey) then None
    else Some(book[name := NameEntry(chart.author.identityKey, chart.id, hash)])
  }

  /** A typed name in its stored form, or nothing when it is not one. */
  function ParseReadableName(text: string): Option<string> {
    var name := Lower(Trim(text));
    if IsReadableName(name) then Some(name) else None
  }

  function ResolveChartName(book: NameBook, text: string): Option<NameEntry> {
    match ParseReadableName(text)
    case Some(name) => if name in book then Some(book[name]) else None
    case None => None
  }

  predicate IsNameChar(c: char) {
    IsSlugChar(c) || c == '-' || c == '/'
  }

  /** A name in its stored form is typed as it is. */
  lemma {:induction false} NameTypedAsIs(name: string)
    requires name != "" && forall i :: 0 <= i < |name| ==> IsNameChar(name[i])
    ensures Lower(Trim(name)) == name
  {
    assert IsNameChar(name[0]) && IsNameChar(name[|name| - 1]);
    assert TrimStart(name) == name && TrimEnd(name) == name;
  }

  lemma {:induction false} ReadableNameChars(chart: ChartApp, fold: string -> string)
    requires IsAppId(chart.id)
    ensures forall i :: 0 <= i < |ReadableName(chart, fold)| ==> IsNameChar(ReadableName(chart, fold)[i])
  {
    var author, name := NameSlug(fold(chart.author.name)), ReadableName(chart, fold);
    SlugIsReadable(fold(chart.author.name));
    forall i | 0 <= i < |name| ensures IsNameChar(name[i]) {
      if i < |author| { assert name[i] == author[i]; } else if i > |author| { assert name[i] == chart.id[i - |author| - 1]; }
    }
  }

  /**
   * A chart just bound is found under its own name if and only if its id is itself a slug;
   * otherwise nothing at all is found, whatever the book holds.
   */
  lemma {:induction false} BoundChartFoundExactlyWhen(book: NameBook, chart: ChartApp, hash: string, fold: string -> string)
    requires IsAppId(chart.id) && Bind(book, chart, hash, fold).Some?
    ensures var found := ResolveChartName(Bind(book, chart, hash, fold).value, ReadableName(chart, fold));
            && (found == Some(NameEntry(chart.author.identityKey, chart.id, hash)) <==> IsSlug(chart.id))
            && (!IsSlug(chart.id) ==> found == None)
  {
    ReadableNameChars(chart, fold);
    NameTypedAsIs(ReadableName(chart, fold));
    NameResolvesExactlyWhen(chart, fold);
  }

  /** Ids a chart may have under which it is never found. */
  lemma {:induction false} UnfindableIds()
    ensures IsAppId("a--b") && !IsSlug("a--b") && IsAppId("ab-") && !IsSlug("ab-")
  {
    assert "a--b"[1] == '-' && "a--b"[2] == '-' && "ab-"[2] == '-';
  }

  /** Names of one author all belong to one key. */
  ghost predicate OneKeyAnAuthor(book: NameBook) {
    forall a, b :: a in book && b in book && AuthorPart(a) == AuthorPart(b) ==> book[a].authorKey == book[b].authorKey
  }

  lemma {:induction false} PartStarts(name: string)
    ensures StartsWith(name, AuthorPart(name))
  {
  }

  /** Binding never gives an author name a second key, and never takes a name from the key that holds it. */
  lemma {:induction false} BindKeepsOwners(book: NameBook, chart: ChartApp, hash: string, fold: string -> string)
    requires OneKeyAnAuthor(book) && Bind(book, chart, hash, fold).Some?
    ensures var next := Bind(book, chart, hash, fold).value;
            && OneKeyAnAuthor(next) && ReadableName(chart, fold) in next
            && (forall n :: n in book ==> n in next && next[n].authorKey == book[n].authorKey)
  {
    var name, next := ReadableName(chart, fold), Bind(book, chart, hash, fold).value;
    forall n | n in book && AuthorPart(n) == AuthorPart(name) ensures book[n].authorKey == chart.author.identityKey {
      PartStarts(n);
    }
  }

  /** Once a key holds an author name, no other key can bind a chart under it. */
  lemma {:induction false} TakenNameIsRefused(book: NameBook, held: string, chart: ChartApp, hash: string, fold: string -> string)
    requires held in book && AuthorPart(held) == AuthorPart(ReadableName(chart, fold)) && book[held].authorKey != chart.author.identityKey
    ensures Bind(book, chart, hash, fold).None?
  {
    PartStarts(held);
  }

  /** The chart's author name is its own in the book, or another's. */
  predicate Spoken(book: NameBook, chart: ChartApp, fold: string -> string) {
    ReadableName(chart, fold) in book || HeldByOther(book, ReadableName(chart, fold), chart.author.identityKey)
  }

  lemma {:induction false} SpokenStays(book: NameBook, next: NameBook, chart: ChartApp, fold: string -> string)
    requires Spoken(book, chart, fold)
    requires forall n :: n in book ==> n in next && next[n].authorKey == book[n].authorKey
    ensures Spoken(next, chart, fold)
  {
    if ReadableName(chart, fold) !in book {
      var held :| held in book && StartsWith(held, AuthorPart(ReadableName(chart, fold))) && book[held].authorKey != chart.author.identityKey;
      assert held in next;
    }
  }

  /** A name book holding the shipped charts' names: one key an author, and no shipped name left for another to take. */
  method NameBookFromCharts(charts: seq<ChartApp>, hashes: seq<string>, fold: string -> string) returns (book: NameBook)
    requires |hashes| == |charts|
    ensures OneKeyAnAuthor(book)
    ensures forall i :: 0 <= i < |charts| ==> Spoken(book, charts[i], fold)
  {
    book := map[];
    for i := 0 to |charts|
      invariant OneKeyAnAuthor(book)
      invariant forall k :: 0 <= k < i ==> Spoken(book, charts[k], fold)
    {
      var bound := Bind(book, charts[i], hashes[i], fold);
      if bound.Some? {
        BindKeepsOwners(book, charts[i], hashes[i], fold);
        forall k | 0 <= k < i ensures Spoken(bound.value, charts[k], fold) { SpokenStays(book, bound.value, charts[k], fold); }
        book := bound.value;
      }
    }
  }
}
