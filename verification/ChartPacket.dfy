/** The share packet (src/apps/chartShare.ts): building, encoding and opening it, and why a share comes back as it was sent. */
module ChartPackets {
  import opened Prelude
  import opened JsonText
  import opened CanonicalJson
  import opened ChartTypes
  import opened ChartRunner
  import opened ChartShape
  import opened ChartSharing

  const CHART_SHARE_FORMAT := "chart-app-share/1"
  const CHART_SHARE_MAX_BYTES := CHART_MAX_BYTES + 1024

  /** buildChartShare: the packet as the object it is, keys in the order they are written. */
  function ShareOf(chart: Value, name: string, hash: string): Value {
    VObj([Entry("format", VStr(CHART_SHARE_FORMAT)), Entry("name", VStr(name)), Entry("hash", VStr(hash)), Entry("chart", chart)])
  }

  function PacketOf(raw: Json, name: string, hash: string): map<string, Json> {
    map["format" := Str(CHART_SHARE_FORMAT), "name" := Str(name), "hash" := Str(hash), "chart" := raw]
  }

  predicate IsHash(s: string) {
    |s| == 64 && IsLowerHex(s)
  }

  datatype Opened = OpenedShare(chart: ChartApp, hash: string, name: string) | Malformed | NameDiffers | NameTaken | NotVerified(why: Verification)

  const PACKET_KEYS := {"chart", "format", "hash", "name"}

  /** What is made of a packet's verdict, its name and the book. */
  function Judged(v: Verification, name: string, fold: string -> string, book: NameBook): Opened {
    match v
    case Verified(chart, own) =>
      if name != ReadableName(chart, fold) then NameDiffers
      else if HeldByOther(book, name, chart.author.identityKey) then NameTaken
      else OpenedShare(chart, own, name)
    case why => NotVerified(why)
  }

  /** What a receiving wallet checks of a packet; `verify` checks the chart under the hash it was sent with. */
  ghost function OpenPacket(j: Json, verify: (Json, string) -> Verification, fold: string -> string, book: NameBook): Opened {
    if !j.Obj? || j.fields.Keys != PACKET_KEYS then Malformed
    else
      var hash, name := AsString(Get(j.fields, "hash")), AsString(Get(j.fields, "name"));
      if Get(j.fields, "format") != Some(Str(CHART_SHARE_FORMAT)) || hash.None? || !IsHash(hash.value) || name.None? || Get(j.fields, "chart").None? then Malformed
      else Judged(verify(Get(j.fields, "chart").value, hash.value), name.value, fold, book)
  }

  ghost function OpenText(text: string, verify: (Json, string) -> Verification, fold: string -> string, book: NameBook): Opened {
    if Utf8Length(text) > CHART_SHARE_MAX_BYTES then Malformed
    else match ParseDocument(text)
      case None => Malformed
      case Some(j) => OpenPacket(j, verify, fold, book)
  }

  /** Opening a share received as text. */
  ghost function OpenChartShare(text: string, support: Support, schemes: Schemes, fold: string -> string, book: NameBook): Opened {
    OpenText(text, (j, hash) => VerifyChart(j, support, schemes, Some(hash)), fold, book)
  }

  // ----- the packet's canonical form -----

  lemma {:induction false} PacketKeysOrdered()
    ensures Less("chart", "format") && Less("chart", "hash") && Less("chart", "name")
    ensures Less("format", "hash") && Less("format", "name") && Less("hash", "name")
    ensures !Less("hash", "chart") && !Less("name", "chart") && !Less("name", "hash") && !Less("format", "chart")
    ensures "format" != "name" && "format" != "hash" && "format" != "chart" && "name" != "hash" && "name" != "chart" && "hash" != "chart"
  {
    assert "chart"[0] == 'c' && "format"[0] == 'f' && "hash"[0] == 'h' && "name"[0] == 'n';
    LessTotal("chart", "hash");
    LessTotal("chart", "name");
    LessTotal("chart", "format");
    LessTotal("hash", "name");
  }

  lemma {:induction false} InsertFirst(m: Member, sorted: seq<Member>)
    requires sorted == [] || Less(m.0, sorted[0].0)
    ensures InsertMember(m, sorted) == [m] + sorted
  {
  }

  lemma {:induction false} InsertAfter(m: Member, first: Member, rest: seq<Member>)
    requires !Less(m.0, first.0)
    ensures InsertMember(m, [first] + rest) == [first] + InsertMember(m, rest)
  {
    assert ([first] + rest)[1..] == rest;
  }

  lemma {:induction false} PacketSorted(f: string, n: string, h: string, c: string)
    ensures SortMembers([("format", f), ("name", n), ("hash", h), ("chart", c)])
            == [("chart", c), ("format", f), ("hash", h), ("name", n)]
  {
    PacketKeysOrdered();
    var F, N, H, C := ("format", f), ("name", n), ("hash", h), ("chart", c);
    SortCons(C, []);
    SortCons(H, [C]);
    SortCons(N, [H, C]);
    SortCons(F, [N, H, C]);
    InsertFirst(C, []);
    InsertAfter(H, C, []);
    InsertFirst(H, []);
    InsertAfter(N, C, [H]);
    InsertAfter(N, H, []);
    InsertFirst(N, []);
    InsertAfter(F, C, [H, N]);
    InsertFirst(F, [H, N]);
    assert [C] + ([F] + [H, N]) == [C, F, H, N];
    assert [C] + ([H] + [N]) == [C] + [H, N];
    assert [F, N, H, C] == [F] + [N, H, C];
  }

  lemma {:induction false} SortCons(m: Member, rest: seq<Member>)
    ensures SortMembers([m] + rest) == InsertMember(m, SortMembers(rest))
  {
    assert ([m] + rest)[1..] == rest;
  }

  lemma {:induction false} MembersCons(first: Entry, rest: seq<Entry>, text: string, more: seq<Member>)
    requires Canonical(first.value) == Some(text) && CanonicalMembers(rest) == Some(more)
    ensures CanonicalMembers([first] + rest) == Some([(first.key, text)] + more)
  {
    assert ([first] + rest)[1..] == rest;
  }

  lemma {:induction false} FourMembers(F: Entry, N: Entry, H: Entry, C: Entry, f: string, n: string, h: string, c: string)
    requires Canonical(F.value) == Some(f) && Canonical(N.value) == Some(n) && Canonical(H.value) == Some(h) && Canonical(C.value) == Some(c)
    ensures CanonicalMembers([F, N, H, C]) == Some([(F.key, f), (N.key, n), (H.key, h), (C.key, c)])
  {
    var mf, mn, mh, mc := (F.key, f), (N.key, n), (H.key, h), (C.key, c);
    assert [C] + [] == [C] && [H] + [C] == [H, C] && [N] + [H, C] == [N, H, C] && [F] + [N, H, C] == [F, N, H, C];
    assert [mc] + [] == [mc] && [mh] + [mc] == [mh, mc] && [mn] + [mh, mc] == [mn, mh, mc] && [mf] + [mn, mh, mc] == [mf, mn, mh, mc];
    MembersCons(C, [], c, []);
    MembersCons(H, [C], h, [mc]);
    MembersCons(N, [H, C], n, [mh, mc]);
    MembersCons(F, [N, H, C], f, [mn, mh, mc]);
  }

  lemma {:induction false} StringPrints(s: string)
    ensures Canonical(VStr(s)) == Some(Quote(s))
  {
  }

  lemma {:induction false} ObjectPrints(entries: seq<Entry>, ms: seq<Member>)
    requires CanonicalMembers(entries) == Some(ms)
    ensures Canonical(VObj(entries)) == Some(['{'] + (JoinMembers(SortMembers(ms)) + ['}']))
  {
  }

  lemma {:induction false} PacketPrints(chart: Value, name: string, hash: string, text: string)
    requires Canonical(chart) == Some(text)
    ensures Canonical(ShareOf(chart, name, hash))
            == Some(['{'] + (JoinMembers([("chart", text), ("format", Quote(CHART_SHARE_FORMAT)), ("hash", Quote(hash)), ("name", Quote(name))]) + ['}']))
  {
    var entries := [Entry("format", VStr(CHART_SHARE_FORMAT)), Entry("name", VStr(name)), Entry("hash", VStr(hash)), Entry("chart", chart)];
    var f, n, h := Quote(CHART_SHARE_FORMAT), Quote(name), Quote(hash);
    StringPrints(CHART_SHARE_FORMAT);
    StringPrints(name);
    StringPrints(hash);
    FourMembers(entries[0], entries[1], entries[2], entries[3], f, n, h, text);
    ObjectPrints(entries, [("format", f), ("name", n), ("hash", h), ("chart", text)]);
    PacketSorted(f, n, h, text);
  }

  lemma {:induction false} MeansCons(first: Entry, rest: seq<Entry>, j: Json, more: map<string, Json>)
    requires Meaning(first.value) == Some(j) && MeaningMembers(rest) == Some(more)
    ensures MeaningMembers([first] + rest) == Some(more[first.key := j])
  {
    ConsMeans(first, rest);
  }

  lemma {:induction false} PacketMeans(chart: Value, raw: Json, name: string, hash: string)
    requires KeysDistinct(chart) && Meaning(chart) == Some(raw)
    ensures KeysDistinct(ShareOf(chart, name, hash)) && Meaning(ShareOf(chart, name, hash)) == Some(Obj(PacketOf(raw, name, hash)))
  {
    PacketKeysOrdered();
    var F, N, H, C := Entry("format", VStr(CHART_SHARE_FORMAT)), Entry("name", VStr(name)), Entry("hash", VStr(hash)), Entry("chart", chart);
    MeansCons(C, [], raw, map[]);
    MeansCons(H, [C], Str(hash), map["chart" := raw]);
    MeansCons(N, [H, C], Str(name), map["chart" := raw]["hash" := Str(hash)]);
    MeansCons(F, [N, H, C], Str(CHART_SHARE_FORMAT), map["chart" := raw]["hash" := Str(hash)]["name" := Str(name)]);
    assert [C] + [] == [C] && [H] + [C] == [H, C] && [N] + [H, C] == [N, H, C] && [F] + [N, H, C] == [F, N, H, C];
    assert map["chart" := raw]["hash" := Str(hash)]["name" := Str(name)]["format" := Str(CHART_SHARE_FORMAT)] == PacketOf(raw, name, hash);
    DistinctCons(C, []);
    DistinctCons(H, [C]);
    DistinctCons(N, [H, C]);
    DistinctCons(F, [N, H, C]);
  }

  lemma {:induction false} DistinctCons(first: Entry, rest: seq<Entry>)
    requires EntriesDistinct(rest) && KeysDistinct(first.value) && forall e :: e in rest ==> e.key != first.key
    ensures EntriesDistinct([first] + rest)
  {
    assert ([first] + rest)[1..] == rest;
    forall i | 0 < i < |[first] + rest| ensures ([first] + rest)[i].key != first.key { assert ([first] + rest)[i] in rest; }
  }

  // ----- its size -----

  lemma {:induction false} MemberBytes(key: string, text: string)
    requires IsPlain(key)
    ensures Utf8Length(MemberText((key, text))) == |key| + 3 + Utf8Length(text)
  {
    PlainQuoted(key);
    Utf8Adds(Quote(key), [':'] + text);
    Utf8Adds([':'], text);
  }

  lemma {:induction false} JoinBytes(first: Member, rest: seq<Member>)
    requires rest != []
    ensures Utf8Length(JoinMembers([first] + rest)) == Utf8Length(MemberText(first)) + 1 + Utf8Length(JoinMembers(rest))
  {
    assert ([first] + rest)[1..] == rest;
    Utf8Adds(MemberText(first), [','] + JoinMembers(rest));
    Utf8Adds([','], JoinMembers(rest));
  }

  lemma {:induction false} FourBytes(C: Member, F: Member, H: Member, N: Member)
    ensures Utf8Length(['{'] + (JoinMembers([C, F, H, N]) + ['}']))
            == Utf8Length(MemberText(C)) + Utf8Length(MemberText(F)) + Utf8Length(MemberText(H)) + Utf8Length(MemberText(N)) + 5
  {
    assert [C] + [F, H, N] == [C, F, H, N] && [F] + [H, N] == [F, H, N] && [H] + [N] == [H, N];
    JoinBytes(C, [F, H, N]);
    JoinBytes(F, [H, N]);
    JoinBytes(H, [N]);
    var all := JoinMembers([C, F, H, N]);
    Utf8Adds(['{'], all + ['}']);
    Utf8Adds(all, ['}']);
  }

  lemma {:induction false} KeyedBytes(C: Member, F: Member, H: Member, N: Member)
    requires IsPlain(C.0) && IsPlain(F.0) && IsPlain(H.0) && IsPlain(N.0)
    ensures Utf8Length(['{'] + (JoinMembers([C, F, H, N]) + ['}']))
            == |C.0| + |F.0| + |H.0| + |N.0| + Utf8Length(C.1) + Utf8Length(F.1) + Utf8Length(H.1) + Utf8Length(N.1) + 17
  {
    FourBytes(C, F, H, N);
    MemberBytes(C.0, C.1);
    MemberBytes(F.0, F.1);
    MemberBytes(H.0, H.1);
    MemberBytes(N.0, N.1);
  }

  lemma {:induction false} PacketKeysPlain()
    ensures IsPlain("chart") && IsPlain("format") && IsPlain("hash") && IsPlain("name")
  {
  }

  lemma {:induction false} PacketBytes(c: string, f: string, h: string, n: string)
    ensures Utf8Length(['{'] + (JoinMembers([("chart", c), ("format", f), ("hash", h), ("name", n)]) + ['}']))
            == Utf8Length(c) + Utf8Length(f) + Utf8Length(h) + Utf8Length(n) + 36
  {
    PacketKeysPlain();
    KeyedBytes(("chart", c), ("format", f), ("hash", h), ("name", n));
  }

  lemma {:induction false} NameIsPlain(chart: ChartApp, fold: string -> string)
    requires IsAppId(chart.id)
    ensures IsPlain(ReadableName(chart, fold)) && |ReadableName(chart, fold)| <= 73
  {
    SlugIsReadable(fold(chart.author.name));
    var author, name := NameSlug(fold(chart.author.name)), ReadableName(chart, fold);
    forall i | 0 <= i < |name| ensures 32 <= name[i] as int < 0x80 && name[i] != '"' && name[i] != '\\' {
      if i < |author| {
        assert name[i] == author[i];
      } else if i > |author| {
        assert name[i] == chart.id[i - |author| - 1];
      }
    }
  }

  lemma {:induction false} IdIsAppId(raw: Json, goodUrl: string -> bool)
    requires DecodeChart(raw, goodUrl).Some?
    ensures raw.Obj? && HeaderOf(raw.fields).Some? && DecodeChart(raw, goodUrl).value.id == HeaderOf(raw.fields).value.id
    ensures IsAppId(DecodeChart(raw, goodUrl).value.id)
  {
  }

  lemma {:induction false} FormatIsPlain()
    ensures IsPlain(CHART_SHARE_FORMAT) && |CHART_SHARE_FORMAT| == 17
  {
  }

  lemma {:induction false} HashIsPlain(hash: string)
    requires IsHash(hash)
    ensures IsPlain(hash)
  {
  }

  /** Sent, a verified chart's share fits its limit. */
  lemma {:induction false} ShareFits(chart: Value, name: string, hash: string, text: string)
    requires Canonical(chart) == Some(text) && Utf8Length(text) <= CHART_MAX_BYTES
    requires IsPlain(name) && |name| <= 73 && IsHash(hash)
    ensures Canonical(ShareOf(chart, name, hash)).Some?
    ensures Utf8Length(Canonical(ShareOf(chart, name, hash)).value) <= CHART_SHARE_MAX_BYTES
  {
    PacketPrints(chart, name, hash, text);
    FormatIsPlain();
    HashIsPlain(hash);
    QuotedBytes(text, CHART_SHARE_FORMAT, hash, name);
  }

  lemma {:induction false} QuotedBytes(c: string, format: string, hash: string, name: string)
    requires IsPlain(format) && IsPlain(hash) && IsPlain(name)
    ensures Utf8Length(['{'] + (JoinMembers([("chart", c), ("format", Quote(format)), ("hash", Quote(hash)), ("name", Quote(name))]) + ['}']))
            == Utf8Length(c) + |format| + |hash| + |name| + 42
  {
    PacketBytes(c, Quote(format), Quote(hash), Quote(name));
    PlainQuoted(format);
    PlainQuoted(hash);
    PlainQuoted(name);
  }

  lemma {:induction false} LowerHexIsLower(s: string)
    requires IsLowerHex(s)
    ensures Lower(s) == s
  {
  }

  lemma {:induction false} VerifiedFacts(raw: Json, support: Support, schemes: Schemes)
    requires VerifyChart(raw, support, schemes, None).Verified? && forall t :: IsHash(schemes.sha(t))
    ensures var v := VerifyChart(raw, support, schemes, None);
            && IsHash(v.hash) && IsAppId(v.chart.id)
            && Printable(raw) && Utf8Length(CanonicalText(raw)) <= CHART_MAX_BYTES
            && VerifyChart(raw, support, schemes, Some(v.hash)) == v
  {
    var v := VerifyChart(raw, support, schemes, None);
    IdIsAppId(raw, schemes.goodUrl);
    LowerHexIsLower(v.hash);
  }

  lemma {:induction false} PacketOpens(raw: Json, chart: ChartApp, hash: string, verify: (Json, string) -> Verification, fold: string -> string, book: NameBook)
    requires verify(raw, hash) == Verified(chart, hash) && IsHash(hash)
    requires !HeldByOther(book, ReadableName(chart, fold), chart.author.identityKey)
    ensures OpenPacket(Obj(PacketOf(raw, ReadableName(chart, fold), hash)), verify, fold, book) == OpenedShare(chart, hash, ReadableName(chart, fold))
  {
    PacketKeysOrdered();
    var m := PacketOf(raw, ReadableName(chart, fold), hash);
    assert m.Keys == PACKET_KEYS;
  }

  lemma {:induction false} ShareOpens(value: Value, raw: Json, chart: ChartApp, hash: string, verify: (Json, string) -> Verification, fold: string -> string, book: NameBook)
    requires KeysDistinct(value) && Meaning(value) == Some(raw) && Printable(raw) && Utf8Length(CanonicalText(raw)) <= CHART_MAX_BYTES
    requires verify(raw, hash) == Verified(chart, hash) && IsHash(hash) && IsAppId(chart.id)
    requires !HeldByOther(book, ReadableName(chart, fold), chart.author.identityKey)
    ensures var text := Canonical(ShareOf(value, ReadableName(chart, fold), hash));
            && text.Some? && Utf8Length(text.value) <= CHART_SHARE_MAX_BYTES
            && OpenText(text.value, verify, fold, book) == OpenedShare(chart, hash, ReadableName(chart, fold))
  {
    var name := ReadableName(chart, fold);
    CanonicalTextIs(value);
    NameIsPlain(chart, fold);
    ShareFits(value, name, hash, CanonicalText(raw));
    PacketMeans(value, raw, name, hash);
    ParseCanonical(ShareOf(value, name, hash));
    PacketOpens(raw, chart, hash, verify, fold, book);
  }

  /**
   * The share round trip: what a wallet verified and shares, another that offers the same and where no
   * other key holds the author's name opens as the same chart, under the same hash and name.
   */
  lemma {:induction false} ShareRoundTrip(value: Value, raw: Json, support: Support, schemes: Schemes, fold: string -> string, book: NameBook)
    requires KeysDistinct(value) && Meaning(value) == Some(raw)
    requires forall t :: IsHash(schemes.sha(t))
    requires VerifyChart(raw, support, schemes, None).Verified?
    requires var chart := VerifyChart(raw, support, schemes, None).chart; !HeldByOther(book, ReadableName(chart, fold), chart.author.identityKey)
    ensures var v := VerifyChart(raw, support, schemes, None);
            var text := Canonical(ShareOf(value, ReadableName(v.chart, fold), v.hash));
            && text.Some? && Utf8Length(text.value) <= CHART_SHARE_MAX_BYTES
            && OpenChartShare(text.value, support, schemes, fold, book) == OpenedShare(v.chart, v.hash, ReadableName(v.chart, fold))
  {
    VerifiedFacts(raw, support, schemes);
    var v := VerifyChart(raw, support, schemes, None);
    ShareOpens(value, raw, v.chart, v.hash, (j, hash) => VerifyChart(j, support, schemes, Some(hash)), fold, book);
  }
}
