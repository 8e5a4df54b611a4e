/**
 * Text in charts (src/apps/chartFormat.ts): lengths and trimming as JavaScript
 * counts them, `{field}` and `{field.key}` placeholders, and what a field renders as.
 */
module ChartFormat {
  import opened Prelude
  import opened CanonicalJson
  import opened ChartTypes

  // ----- lengths in UTF-16 code units -----

  function Length16(s: string): (n: nat)
    ensures n >= |s|
  {
    if s == "" then 0 else |Units(s[0])| + Length16(s[1..])
  }

  /** `s.slice(0, max)`, never leaving half a character. */
  function Take16(s: string, max: nat): (t: string)
    ensures Length16(t) <= max
    ensures t <= s
    ensures Length16(s) <= max ==> t == s
  {
    if s == "" || |Units(s[0])| > max then ""
    else
      var rest := Take16(s[1..], max - |Units(s[0])|);
      assert ([s[0]] + rest)[1..] == rest;
      [s[0]] + rest
  }

  predicate IsSpace(c: char) {
    || '\t' <= c <= '\r' || c == ' ' || c == 0xA0 as char || c == 0x1680 as char
    || 0x2000 as char <= c <= 0x200A as char || c == 0x2028 as char || c == 0x2029 as char
    || c == 0x202F as char || c == 0x205F as char || c == 0x3000 as char || c == 0xFEFF as char
  }

  function TrimStart(s: string): (t: string)
    ensures |t| <= |s|
    ensures t != "" ==> !IsSpace(t[0])
    ensures forall c :: c in s && !IsSpace(c) ==> c in t
  {
    if s != "" && IsSpace(s[0]) then TrimStart(s[1..]) else s
  }

  function TrimEnd(s: string): (t: string)
    ensures t <= s
    ensures t != "" ==> !IsSpace(t[|t| - 1])
    ensures forall c :: c in s && !IsSpace(c) ==> c in t
  {
    if s != "" && IsSpace(s[|s| - 1]) then
      assert s == s[..|s| - 1] + [s[|s| - 1]];
      TrimEnd(s[..|s| - 1])
    else s
  }

  function Trim(s: string): string {
    TrimEnd(TrimStart(s))
  }

  // ----- placeholders -----

  datatype Piece = Literally(text: string) | Placeholder(path: string)

  predicate IsBrace(c: char) {
    c == '{' || c == '}'
  }

  /** The position of the first brace at or after `i`. */
  function BraceAfter(text: string, i: nat): (j: nat)
    requires i <= |text|
    ensures i <= j <= |text|
    ensures j < |text| ==> IsBrace(text[j])
    ensures forall k :: i <= k < j ==> !IsBrace(text[k])
    decreases |text| - i
  {
    if i < |text| && !IsBrace(text[i]) then BraceAfter(text, i + 1) else i
  }

  /** The text as the pattern `\{([^{}]*)\}` cuts it up, from `i` on. */
  function Pieces(text: string, i: nat): seq<Piece>
    requires i <= |text|
    decreases |text| - i
  {
    if i == |text| then []
    else if text[i] != '{' then [Literally([text[i]])] + Pieces(text, i + 1)
    else
      var j := BraceAfter(text, i + 1);
      if j < |text| && text[j] == '}' then [Placeholder(text[i + 1..j])] + Pieces(text, j + 1)
      else [Literally("{")] + Pieces(text, i + 1)
  }

  function DotAfter(path: string, i: nat): (j: nat)
    requires i <= |path|
    ensures i <= j <= |path|
    ensures j < |path| ==> path[j] == '.'
    decreases |path| - i
  {
    if i < |path| && path[i] != '.' then DotAfter(path, i + 1) else i
  }

  /** `path.split('.')` */
  function SplitDots(path: string): (parts: seq<string>)
    ensures |parts| >= 1
    decreases |path|
  {
    var j := DotAfter(path, 0);
    if j == |path| then [path] else [path[..j]] + SplitDots(path[j + 1..])
  }

  /** The keys a placeholder may read from a field, by type. */
  function PlaceholderKeys(kind: FieldType): set<string> {
    match kind
    case FriendsField => {"count"}
    case MessagesField => {"count"}
    case SendersField => {"count"}
    case SelectionField => {"count"}
    case MessageField => {"sender", "box", "kind", "time", "text"}
    case SignatureField => {"signature", "identityKey"}
    case FetchedField => {"status", "text"}
    case _ => {}
  }

  // ----- rendering -----

  function Pad3(n: nat): string {
    if n < 10 then "00" + Decimal(n) else if n < 100 then "0" + Decimal(n) else Decimal(n)
  }

  /** Digits in groups of three. */
  function Grouped(n: nat): string {
    if n < 1000 then Decimal(n) else Grouped(n / 1000) + "," + Pad3(n % 1000)
  }

  function Signed10(n: int): string {
    if n < 0 then "-" + Decimal(-n) else Decimal(n)
  }

  function FormatChartAmount(units: int): string {
    (if units < 0 then "-" + Grouped(-units) else Grouped(units)) + if units == 1 then " sat" else " sats"
  }

  function Joined(labels: seq<string>, between: string): string {
    if labels == [] then "" else if |labels| == 1 then labels[0] else labels[0] + between + Joined(labels[1..], between)
  }

  function Labels(list: seq<Recipient>): seq<string> {
    seq(|list|, i requires 0 <= i < |list| => list[i].caption)
  }

  function KindLabel(kind: MessageKind): string {
    match kind
    case Plain => "Message"
    case PaymentRequest => "Payment request"
    case PaymentNotice => "Payment notice"
    case Tip => "Tip"
    case FileMessage => "File"
    case IdentityCard => "Identity card"
    case Market => "Market settlement"
    case Unreadable => "Unreadable message"
  }

  /** How long ago a message came, in the reader's own time zone and language. */
  type TimeFormat = int -> string

  function FormatMessage(m: BoxMessage, sub: Option<string>, time: TimeFormat): string {
    if sub == None || sub == Some("sender") then m.senderName
    else if sub == Some("box") then m.box
    else if sub == Some("kind") then KindLabel(m.kind)
    else if sub == Some("time") then if m.at == 0 then "at an unknown time" else time(m.at)
    else if m.text != "" then m.text
    else if m.kind == Unreadable then "This message could not be opened with your key."
    else "No text."
  }

  /** One field for display; None where the code would read a property the value does not have. */
  function FormatField(fields: map<string, Field>, values: Values, name: string, sub: Option<string>, time: TimeFormat): Option<string> {
    if name !in fields then None
    else var kind := fields[name].kind;
    if name !in values then
      Some(if kind.MessagesField? || kind.SendersField? || kind.SelectionField? then "0" else "")
    else if !ShapeOf(kind, values[name]) || (sub.Some? && sub.value !in PlaceholderKeys(kind)) then None
    else Some(
      match values[name]
      case Amount(n) => FormatChartAmount(n)
      case Words(s) => s
      case Friend(r) => r.caption
      case Friends(list) => if sub == Some("count") then Decimal(|list|) else Joined(Labels(list), ", ")
      case Item(item) => item.name
      case Messages(list) => Decimal(|list|)
      case Senders(list) => Decimal(|list|)
      case Selection(ids) => Decimal(|ids|)
      case Message(m) => FormatMessage(m, sub, time)
      case Sender(s) => s.name
      case Signature(identityKey, signature, _) => if sub == Some("identityKey") then identityKey else signature
      case Fetched(_, status, body) => if sub == Some("status") then Signed10(status) else body)
  }

  function SubOf(path: string): Option<string> {
    var parts := SplitDots(path);
    if |parts| > 1 then Some(parts[1]) else None
  }

  function Filled(fields: map<string, Field>, values: Values, pieces: seq<Piece>, time: TimeFormat): Option<string> {
    if pieces == [] then Some("")
    else
      var first := match pieces[0]
        case Literally(text) => Some(text)
        case Placeholder(path) => FormatField(fields, values, SplitDots(path)[0], SubOf(path), time);
      match (first, Filled(fields, values, pieces[1..], time))
      case (Some(a), Some(b)) => Some(a + b)
      case _ => None
  }

  /** A block's text with its placeholders filled in. */
  function Interpolate(fields: map<string, Field>, values: Values, text: string, time: TimeFormat): Option<string> {
    Filled(fields, values, Pieces(text, 0), time)
  }

  /** What the checker asks of a text's placeholders: a declared field, and at most one key it has. */
  predicate PlaceholderFits(fields: map<string, Field>, path: string) {
    var parts := SplitDots(path);
    parts[0] in fields && |parts| <= 2 && (|parts| == 2 ==> parts[1] in PlaceholderKeys(fields[parts[0]].kind))
  }

  predicate PlaceholdersFit(fields: map<string, Field>, text: string) {
    forall p | p in Pieces(text, 0) :: p.Placeholder? ==> PlaceholderFits(fields, p.path)
  }

  /** Every text the checker passed renders, whatever well-shaped values the fields hold. */
  lemma {:induction false} FilledRenders(fields: map<string, Field>, values: Values, pieces: seq<Piece>, time: TimeFormat)
    requires forall p :: p in pieces && p.Placeholder? ==> PlaceholderFits(fields, p.path)
    requires forall f :: f in values ==> f in fields && ShapeOf(fields[f].kind, values[f])
    ensures Filled(fields, values, pieces, time).Some?
  {
    if pieces != [] { FilledRenders(fields, values, pieces[1..], time); }
  }

  /** The piece is what stands in the text at `i`. */
  predicate StandsAt(p: Piece, text: string, i: nat) {
    match p
    case Literally(t) => i < |text| && t == [text[i]]
    case Placeholder(path) =>
      && i + |path| + 2 <= |text| && text[i] == '{' && text[i + |path| + 1] == '}'
      && path == text[i + 1..i + 1 + |path|] && forall k | 0 <= k < |path| :: !IsBrace(path[k])
  }

  function Width(p: Piece): nat {
    if p.Literally? then 1 else |p.path| + 2
  }

  /** The pieces, one after another, are the text from `i` on. */
  predicate Spells(pieces: seq<Piece>, text: string, i: nat) {
    if pieces == [] then i == |text| else StandsAt(pieces[0], text, i) && Spells(pieces[1..], text, i + Width(pieces[0]))
  }

  lemma {:induction false} SpellsCons(p: Piece, rest: seq<Piece>, text: string, i: nat)
    requires StandsAt(p, text, i) && Spells(rest, text, i + Width(p))
    ensures Spells([p] + rest, text, i)
  {
    assert ([p] + rest)[1..] == rest;
  }

  /** Cutting a text up loses nothing: the pieces are the text, and every placeholder is a brace-free path in braces. */
  lemma {:induction false} PiecesSpellText(text: string, i: nat)
    requires i <= |text|
    ensures Spells(Pieces(text, i), text, i)
    decreases |text| - i
  {
    if i < |text| {
      var j := BraceAfter(text, i + 1);
      if text[i] == '{' && j < |text| && text[j] == '}' {
        PiecesSpellText(text, j + 1);
        SpellsCons(Placeholder(text[i + 1..j]), Pieces(text, j + 1), text, i);
      } else {
        PiecesSpellText(text, i + 1);
        SpellsCons(Literally([text[i]]), Pieces(text, i + 1), text, i);
      }
    }
  }
}
