/**
 * The shape of a chart (src/apps/chartValidator.ts): reading JSON as a chart,
 * refusing anything the format does not name.
 */
module ChartShape {
  import opened Prelude
  import opened JsonText
  import opened ChartTypes
  import opened ChartFormat
  import opened ChartRules
  import opened ChartRunner

  type Members = map<string, Json>

  /** An object's member, if it has it. */
  function Get(m: Members, key: string): Option<Json> {
    if key in m then Some(m[key]) else None
  }

  /** Exactly the named keys: every required one, and no other but the optional ones. */
  predicate HasKeys(m: Members, required: set<string>, optional: set<string>) {
    required <= m.Keys <= required + optional
  }

  // ----- names -----

  predicate IsLetter(c: char) {
    'a' <= c <= 'z'
  }

  predicate IsCapital(c: char) {
    'A' <= c <= 'Z'
  }

  predicate IsName(s: string) {
    1 <= |s| <= 32 && IsLetter(s[0]) && forall i | 1 <= i < |s| :: IsLetter(s[i]) || IsCapital(s[i]) || IsDigit(s[i])
  }

  predicate IsReserved(s: string) {
    s == "SET" || s == "TOGGLE" || s == "APPROVE" || s == "DECLINE"
  }

  predicate IsEventName(s: string) {
    && 1 <= |s| <= 32 && IsCapital(s[0]) && (forall i | 1 <= i < |s| :: IsCapital(s[i]) || IsDigit(s[i]) || s[i] == '_')
    && !IsReserved(s)
  }

  predicate IsAppId(s: string) {
    2 <= |s| <= 40 && IsLetter(s[0]) && forall i | 1 <= i < |s| :: IsLetter(s[i]) || IsDigit(s[i]) || s[i] == '-'
  }

  predicate IsVersion(s: string) {
    |SplitDots(s)| == 3 && forall part | part in SplitDots(s) :: 1 <= |part| <= 4 && AllDigits(part)
  }

  predicate IsSignature(s: string) {
    16 <= |s| <= 200 && IsLowerHex(s)
  }

  predicate IsBox(s: string) {
    1 <= |s| <= 40 && forall i | 0 <= i < |s| :: IsLetter(s[i]) || IsDigit(s[i]) || s[i] == '_' || s[i] == '-'
  }

  /** A text that is not blank and not too long. */
  predicate IsText(j: Option<Json>, max: nat) {
    j.Some? && j.value.Str? && Trim(j.value.s) != "" && Length16(j.value.s) <= max
  }

  function AsString(j: Option<Json>): Option<string> {
    if j.Some? && j.value.Str? then Some(j.value.s) else None
  }

  // ----- decoding many -----

  function DecodeAll<T>(m: Members, decode: Json -> Option<T>): Option<map<string, T>> {
    if forall k | k in m :: decode(m[k]).Some? then Some(map k | k in m :: decode(m[k]).value) else None
  }

  function DecodeItems<T>(items: seq<Json>, decode: Json -> Option<T>): (r: Option<seq<T>>)
    ensures r.Some? <==> forall i :: 0 <= i < |items| ==> decode(items[i]).Some?
    ensures r.Some? ==> |r.value| == |items| && forall i :: 0 <= i < |items| ==> r.value[i] == decode(items[i]).value
  {
    if items == [] then Some([])
    else match (decode(items[0]), DecodeItems(items[1..], decode))
      case (Some(first), Some(rest)) => Some([first] + rest)
      case _ => None
  }

  // ----- fields -----

  function TypeOf(j: Option<Json>): Option<FieldType> {
    match AsString(j)
    case None => None
    case Some(s) =>
      if s == "amount" then Some(AmountField) else if s == "text" then Some(TextField)
      else if s == "friend" then Some(FriendField) else if s == "friends" then Some(FriendsField)
      else if s == "item" then Some(ItemField) else if s == "messages" then Some(MessagesField)
      else if s == "senders" then Some(SendersField) else if s == "selection" then Some(SelectionField)
      else if s == "message" then Some(MessageField) else if s == "sender" then Some(SenderField)
      else if s == "signature" then Some(SignatureField) else if s == "fetched" then Some(FetchedField)
      else None
  }

  function CoinOf(j: Option<Json>): Option<Coin> {
    match AsString(j)
    case None => None
    case Some(s) => if s == "BSV" then Some(BSV) else if s == "BTC" then Some(BTC) else None
  }

  predicate IsMaxLength(j: Json) {
    j.Int? && 1 <= j.n <= MAX_TEXT
  }

  function DecodeField(j: Json): Option<Field> {
    if !j.Obj? || !HasKeys(j.fields, {"type"}, {"maxLength", "coin"}) then None
    else match TypeOf(Get(j.fields, "type"))
      case None => None
      case Some(kind) =>
        var max, coin := Get(j.fields, "maxLength"), Get(j.fields, "coin");
        if max.Some? && (kind != TextField || !IsMaxLength(max.value)) then None
        else if kind == AmountField && CoinOf(coin).None? then None
        else if kind != AmountField && coin.Some? then None
        else Some(Field(kind, if max.Some? then Some(max.value.n) else None, CoinOf(coin)))
  }

  // ----- effects -----

  function NetworkOf(j: Json): Option<Network> {
    if j == Str("mainnet") then Some(Mainnet) else if j == Str("testnet") then Some(Testnet) else None
  }

  function NetworksOf(j: Option<Json>): Option<seq<Network>> {
    if j.Some? && j.value.Arr? && j.value.items != [] && AllDiffer(j.value.items) then DecodeItems(j.value.items, NetworkOf) else None
  }

  predicate AllDiffer(items: seq<Json>) {
    forall i, j | 0 <= i < j < |items| :: items[i] != items[j]
  }

  /** `{ field }` */
  function RefOf(j: Option<Json>): Option<string> {
    if j.Some? && j.value.Obj? && HasKeys(j.value.fields, {"field"}, {}) then AsString(Get(j.value.fields, "field")) else None
  }

  function BoxOf(j: Json): Option<string> {
    if j.Str? && IsBox(j.s) then Some(j.s) else None
  }

  function BoxesOf(j: Option<Json>): Option<seq<string>> {
    if j.Some? && j.value.Arr? && j.value.items != [] && AllDiffer(j.value.items) then DecodeItems(j.value.items, BoxOf) else None
  }

  /** An optional reference: absent, or right. */
  function MaybeRef(j: Option<Json>): Option<Option<string>> {
    if j.None? then Some(None) else match RefOf(j) case None => None case Some(f) => Some(Some(f))
  }

  function MaybeString(j: Option<Json>): Option<Option<string>> {
    if j.None? then Some(None) else match AsString(j) case None => None case Some(f) => Some(Some(f))
  }

  predicate IsPlus(j: Json) {
    j.Int? && 0 <= j.n <= 10
  }

  function SplitOf(j: Json): Option<Split> {
    if !j.Obj? || !HasKeys(j.fields, {"countOf"}, {"plus"}) then None
    else
      var plus := Get(j.fields, "plus");
      match AsString(Get(j.fields, "countOf"))
      case None => None
      case Some(countOf) =>
        if plus.None? then Some(Split(countOf, None))
        else if IsPlus(plus.value) then Some(Split(countOf, Some(plus.value.n)))
        else None
  }

  datatype AmountRef = AmountRef(field: string, split: Option<Split>)

  function AmountOf(j: Option<Json>): Option<AmountRef> {
    if j.None? || !j.value.Obj? || !HasKeys(j.value.fields, {"field"}, {"divideBy"}) then None
    else
      var divide := Get(j.value.fields, "divideBy");
      match AsString(Get(j.value.fields, "field"))
      case None => None
      case Some(field) =>
        if divide.None? then Some(AmountRef(field, None))
        else match SplitOf(divide.value)
          case None => None
          case Some(split) => Some(AmountRef(field, Some(split)))
  }

  function DecodeRequest(m: Members): Option<Effect> {
    if !HasKeys(m, {"kind", "coin", "networks", "from", "amount"}, {"memo"}) then None
    else match (CoinOf(Get(m, "coin")), NetworksOf(Get(m, "networks")), AmountOf(Get(m, "amount")), MaybeRef(Get(m, "memo")), RefOf(Get(m, "from")))
      case (Some(coin), Some(networks), Some(amount), Some(memo), Some(from)) =>
        Some(RequestPayment(coin, networks, from, amount.field, amount.split, memo))
      case _ => None
  }

  function DecodeSend(m: Members): Option<Effect> {
    if !HasKeys(m, {"kind", "coin", "networks", "to", "amount"}, {"memo"}) then None
    else match (CoinOf(Get(m, "coin")), NetworksOf(Get(m, "networks")), AmountOf(Get(m, "amount")), MaybeRef(Get(m, "memo")), RefOf(Get(m, "to")))
      case (Some(coin), Some(networks), Some(amount), Some(memo), Some(to)) =>
        Some(SendPayment(coin, networks, to, amount.field, amount.split, memo))
      case _ => None
  }

  function DecodeSendItem(m: Members): Option<Effect> {
    if !HasKeys(m, {"kind", "coin", "networks", "to", "item"}, {}) then None
    else match (CoinOf(Get(m, "coin")), NetworksOf(Get(m, "networks")), RefOf(Get(m, "to")), RefOf(Get(m, "item")))
      case (Some(coin), Some(networks), Some(to), Some(item)) => Some(SendItem(coin, networks, to, item))
      case _ => None
  }

  function DecodeSign(m: Members): Option<Effect> {
    if !HasKeys(m, {"kind", "message", "result"}, {}) then None
    else match (RefOf(Get(m, "message")), AsString(Get(m, "result")))
      case (Some(message), Some(result)) => Some(SignMessage(message, result))
      case _ => None
  }

  function DecodeFetch(m: Members, goodUrl: string -> bool): Option<Effect> {
    if !HasKeys(m, {"kind", "url", "result"}, {}) then None
    else match (AsString(Get(m, "url")), AsString(Get(m, "result")))
      case (Some(url), Some(result)) => if goodUrl(url) then Some(Fetch(url, result)) else None
      case _ => None
  }

  function DecodeListMessages(m: Members): Option<Effect> {
    if !HasKeys(m, {"kind", "boxes", "result"}, {"blocked"}) then None
    else match (BoxesOf(Get(m, "boxes")), AsString(Get(m, "result")), MaybeString(Get(m, "blocked")))
      case (Some(boxes), Some(result), Some(blocked)) => Some(ListMessages(boxes, result, blocked))
      case _ => None
  }

  /** `acknowledgeMessages` and `deleteMessages` */
  function DecodeMessages(m: Members, deletes: bool): Option<Effect> {
    if !HasKeys(m, {"kind", "messages"}, {}) then None
    else match RefOf(Get(m, "messages"))
      case Some(messages) => Some(if deletes then DeleteMessages(messages) else AcknowledgeMessages(messages))
      case None => None
  }

  /** `blockSender` and `unblockSender` */
  function DecodeSender(m: Members, blocks: bool): Option<Effect> {
    if !HasKeys(m, {"kind", "sender"}, {}) then None
    else match RefOf(Get(m, "sender"))
      case Some(sender) => Some(if blocks then BlockSender(sender) else UnblockSender(sender))
      case None => None
  }

  datatype EffectKind = Requests | Sends | SendsItem | Signs | Fetches | Lists | Acknowledges | Deletes | Blocks | Unblocks

  function KindOf(j: Option<Json>): Option<EffectKind> {
    match AsString(j)
    case None => None
    case Some(s) =>
      if s == "requestPayment" then Some(Requests) else if s == "sendPayment" then Some(Sends)
      else if s == "sendItem" then Some(SendsItem) else if s == "signMessage" then Some(Signs)
      else if s == "fetch" then Some(Fetches) else if s == "listMessages" then Some(Lists)
      else if s == "acknowledgeMessages" then Some(Acknowledges) else if s == "deleteMessages" then Some(Deletes)
      else if s == "blockSender" then Some(Blocks) else if s == "unblockSender" then Some(Unblocks)
      else None
  }

  function DecodeEffect(j: Json, goodUrl: string -> bool): Option<Effect> {
    if !j.Obj? then None
    else match KindOf(Get(j.fields, "kind"))
      case None => None
      case Some(Requests) => DecodeRequest(j.fields)
      case Some(Sends) => DecodeSend(j.fields)
      case Some(SendsItem) => DecodeSendItem(j.fields)
      case Some(Signs) => DecodeSign(j.fields)
      case Some(Fetches) => DecodeFetch(j.fields, goodUrl)
      case Some(Lists) => DecodeListMessages(j.fields)
      case Some(Acknowledges) => DecodeMessages(j.fields, false)
      case Some(Deletes) => DecodeMessages(j.fields, true)
      case Some(Blocks) => DecodeSender(j.fields, true)
      case Some(Unblocks) => DecodeSender(j.fields, false)
  }

  // ----- blocks -----

  datatype BlockKind = HeadingBlock | TextBlock | AmountBlock | WordsBlock | FriendBlock | ItemBlock | ListBlock | PrimaryBlock | SecondaryBlock

  function BlockKindOf(j: Option<Json>): Option<BlockKind> {
    match AsString(j)
    case None => None
    case Some(s) =>
      if s == "heading" then Some(HeadingBlock) else if s == "text" then Some(TextBlock)
      else if s == "amountInput" then Some(AmountBlock) else if s == "textInput" then Some(WordsBlock)
      else if s == "friendPicker" then Some(FriendBlock) else if s == "itemPicker" then Some(ItemBlock)
      else if s == "list" then Some(ListBlock) else if s == "primaryButton" then Some(PrimaryBlock)
      else if s == "secondaryButton" then Some(SecondaryBlock)
      else None
  }

  function Required(kind: BlockKind): set<string> {
    match kind
    case HeadingBlock => {"block", "text"}
    case TextBlock => {"block", "text"}
    case ListBlock => {"block", "field"}
    case PrimaryBlock => {"block", "label", "event"}
    case SecondaryBlock => {"block", "label", "event"}
    case _ => {"block", "field", "label"}
  }

  function Optional(kind: BlockKind): set<string> {
    match kind
    case WordsBlock => {"placeholder"}
    case ListBlock => {"label", "select", "open", "empty"}
    case _ => {}
  }

  function OpenOf(j: Json): Option<Open> {
    if !j.Obj? || !HasKeys(j.fields, {"event", "field"}, {}) then None
    else match (AsString(Get(j.fields, "event")), AsString(Get(j.fields, "field")))
      case (Some(event), Some(field)) => Some(Open(event, field))
      case _ => None
  }

  function MaybeOpen(j: Option<Json>): Option<Option<Open>> {
    if j.None? then Some(None) else match OpenOf(j.value) case None => None case Some(o) => Some(Some(o))
  }

  const LONG := 400
  const SHORT := 60

  function MaybeText(j: Option<Json>): Option<Option<string>> {
    if j.None? then Some(None) else if IsText(j, SHORT) then Some(Some(j.value.s)) else None
  }

  function DecodeList(m: Members): Option<Block> {
    match (AsString(Get(m, "field")), MaybeText(Get(m, "label")), MaybeString(Get(m, "select")), MaybeOpen(Get(m, "open")), MaybeText(Get(m, "empty")))
    case (Some(field), Some(caption), Some(select), Some(open), Some(empty)) => Some(List(field, caption, select, open, empty))
    case _ => None
  }

  /** An input block: its field and its label. */
  function DecodeInput(m: Members, kind: BlockKind): Option<Block> {
    var caption := Get(m, "label");
    match (AsString(Get(m, "field")), MaybeText(Get(m, "placeholder")))
    case (Some(field), Some(placeholder)) =>
      if !IsText(caption, SHORT) then None
      else Some(match kind
                case AmountBlock => AmountInput(field, caption.value.s)
                case WordsBlock => TextInput(field, caption.value.s, placeholder)
                case FriendBlock => FriendPicker(field, caption.value.s)
                case _ => ItemPicker(field, caption.value.s))
    case _ => None
  }

  function DecodeButton(m: Members, primary: bool): Option<Block> {
    match AsString(Get(m, "event"))
    case Some(event) => if IsText(Get(m, "label"), SHORT) then Some(Button(primary, Get(m, "label").value.s, event)) else None
    case None => None
  }

  function DecodeWords(m: Members, heading: bool): Option<Block> {
    var text := Get(m, "text");
    if IsText(text, LONG) then Some(if heading then Heading(text.value.s) else Text(text.value.s)) else None
  }

  function DecodeBlock(j: Json): Option<Block> {
    if !j.Obj? then None
    else match BlockKindOf(Get(j.fields, "block"))
      case None => None
      case Some(kind) =>
        if !HasKeys(j.fields, Required(kind), Optional(kind)) then None
        else match kind
          case HeadingBlock => DecodeWords(j.fields, true)
          case TextBlock => DecodeWords(j.fields, false)
          case ListBlock => DecodeList(j.fields)
          case PrimaryBlock => DecodeButton(j.fields, true)
          case SecondaryBlock => DecodeButton(j.fields, false)
          case _ => DecodeInput(j.fields, kind)
  }

  // ----- states -----

  function LiteralOf(j: Json): Option<Literal> {
    match j
    case Int(n) => Some(Literal.Number(n))
    case Str(s) => Some(Literal.Chars(s))
    case _ => None
  }

  function StringOf(j: Json): Option<string> {
    if j.Str? then Some(j.s) else None
  }

  function NeedsOf(j: Option<Json>): Option<seq<string>> {
    if j.None? then Some([]) else if j.value.Arr? then DecodeItems(j.value.items, StringOf) else None
  }

  function AssignOf(j: Option<Json>): Option<map<string, Literal>> {
    if j.None? then Some(map[]) else if j.value.Obj? then DecodeAll(j.value.fields, LiteralOf) else None
  }

  function DecodeTransition(j: Json): Option<Transition> {
    if j.Str? then Some(Transition(j.s, [], map[]))
    else if !j.Obj? || !HasKeys(j.fields, {"target"}, {"requires", "assign"}) then None
    else match (AsString(Get(j.fields, "target")), NeedsOf(Get(j.fields, "requires")), AssignOf(Get(j.fields, "assign")))
      case (Some(target), Some(needs), Some(assign)) => Some(Transition(target, needs, assign))
      case _ => None
  }

  /** What JavaScript takes for true. */
  predicate Truthy(j: Option<Json>) {
    j.Some? && j.value != Null && j.value != Bool(false) && j.value != Int(0) && j.value != Str("")
  }

  function OnOf(j: Option<Json>): Option<map<string, Transition>> {
    if j.None? || j.value.Null? then Some(map[]) else if j.value.Obj? then DecodeAll(j.value.fields, DecodeTransition) else None
  }

  function DecodeEffectState(m: Members): Option<State> {
    if Truthy(Get(m, "view")) || Truthy(Get(m, "on")) || "final" in m then None
    else match (AsString(Get(m, "effect")), AsString(Get(m, "onDone")), AsString(Get(m, "onError")), MaybeString(Get(m, "onDecline")))
      case (Some(effect), Some(onDone), Some(onError), Some(onDecline)) => Some(EffectState(effect, onDone, onError, onDecline))
      case _ => None
  }

  predicate EventsNamed(view: seq<Block>) {
    forall b | b in view :: EventOf(b).Some? ==> IsEventName(EventOf(b).value)
  }

  function DecodeViewState(m: Members): Option<State> {
    var view, final := Get(m, "view"), "final" in m;
    if "onDone" in m || "onError" in m || "onDecline" in m then None
    else if view.None? || !view.value.Arr? || view.value.items == [] || (final && Truthy(Get(m, "on"))) then None
    else match (DecodeItems(view.value.items, DecodeBlock), OnOf(Get(m, "on")))
      case (Some(blocks), Some(on)) => if EventsNamed(blocks) then Some(ViewState(blocks, on, final)) else None
      case _ => None
  }

  function DecodeState(j: Json): Option<State> {
    if !j.Obj? || !HasKeys(j.fields, {}, {"view", "on", "effect", "onDone", "onError", "onDecline", "final"}) then None
    else if "final" in j.fields && j.fields["final"] != Bool(true) then None
    else if "effect" in j.fields then DecodeEffectState(j.fields)
    else DecodeViewState(j.fields)
  }

  // ----- charts -----

  function AuthorOf(j: Option<Json>): Option<Author> {
    if j.None? || !j.value.Obj? || !HasKeys(j.value.fields, {"identityKey", "name"}, {}) then None
    else
      var key, name := AsString(Get(j.value.fields, "identityKey")), Get(j.value.fields, "name");
      if key.Some? && IsIdentityKey(key.value) && IsText(name, 40) then Some(Author(key.value, name.value.s)) else None
  }

  predicate KeysNamed(m: Members) {
    forall k | k in m :: IsName(k)
  }

  function FieldsOf(j: Option<Json>): Option<map<string, Field>> {
    if j.Some? && j.value.Obj? && KeysNamed(j.value.fields) then DecodeAll(j.value.fields, DecodeField) else None
  }

  function EffectsOf(j: Option<Json>, goodUrl: string -> bool): Option<map<string, Effect>> {
    if j.Some? && j.value.Obj? && KeysNamed(j.value.fields) then DecodeAll(j.value.fields, e => DecodeEffect(e, goodUrl)) else None
  }

  function StatesOf(j: Option<Json>): Option<map<string, State>> {
    if j.Some? && j.value.Obj? && KeysNamed(j.value.fields) then DecodeAll(j.value.fields, DecodeState) else None
  }

  const CHART_APP_FORMAT := "chart-app/1"

  /** The parts of a chart that stand alone. */
  datatype Header = Header(id: string, name: string, summary: string, version: string, signature: string, author: Author)

  function HeaderOf(m: Members): Option<Header> {
    var id, version, signature := AsString(Get(m, "id")), AsString(Get(m, "version")), AsString(Get(m, "signature"));
    var author := AuthorOf(Get(m, "author"));
    if && Get(m, "format") == Some(Str(CHART_APP_FORMAT)) && id.Some? && IsAppId(id.value) && IsText(Get(m, "name"), 40) && IsText(Get(m, "summary"), 140)
       && version.Some? && IsVersion(version.value) && signature.Some? && IsSignature(signature.value) && author.Some?
    then Some(Header(id.value, Get(m, "name").value.s, Get(m, "summary").value.s, version.value, signature.value, author.value))
    else None
  }

  const CHART_KEYS := {"format", "id", "name", "summary", "version", "author", "initial", "fields", "effects", "states", "signature"}

  /** JSON read as a chart. */
  function DecodeChart(j: Json, goodUrl: string -> bool): Option<ChartApp> {
    if !j.Obj? || !HasKeys(j.fields, CHART_KEYS, {}) then None
    else match (HeaderOf(j.fields), AsString(Get(j.fields, "initial")), FieldsOf(Get(j.fields, "fields")), EffectsOf(Get(j.fields, "effects"), goodUrl), StatesOf(Get(j.fields, "states")))
      case (Some(h), Some(initial), Some(fields), Some(effects), Some(states)) =>
        Some(ChartApp(h.id, h.name, h.summary, h.version, h.author, initial, fields, effects, states, h.signature))
      case _ => None
  }

  const CHART_MAX_BYTES := 32 * 1024

  /** A chart the wallet takes: of the right size and shape, and every reference in it holds. */
  predicate Accepts(raw: Json, size: Option<nat>, goodUrl: string -> bool) {
    && size.Some? && size.value <= CHART_MAX_BYTES
    && DecodeChart(raw, goodUrl).Some? && Fits(DecodeChart(raw, goodUrl).value)
  }

  lemma {:induction false} FieldsHaveMaxLengths(m: Members)
    ensures DecodeAll(m, DecodeField).Some? ==>
              forall f :: f in m ==> var max := DecodeAll(m, DecodeField).value[f].maxLength; max.Some? ==> 1 <= max.value <= MAX_TEXT
  {
  }
}
