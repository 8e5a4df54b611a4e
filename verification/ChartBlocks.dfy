/** Why the checker's way of looking at a block's texts, key by key, agrees with reading the block. */
module ChartBlocks {
  import opened Prelude
  import opened JsonText
  import opened ChartTypes
  import opened ChartFormat
  import opened ChartRules
  import opened ChartShape

  /** A text shown under `key`, where there is one, is short and its placeholders fit. */
  predicate TextPasses(fields: map<string, Field>, m: Members, key: string, max: nat) {
    key in m ==> IsText(Get(m, key), max) && PlaceholdersFit(fields, m[key].s)
  }

  predicate TextsPass(fields: map<string, Field>, m: Members) {
    && TextPasses(fields, m, "text", LONG) && TextPasses(fields, m, "label", SHORT)
    && TextPasses(fields, m, "placeholder", SHORT) && TextPasses(fields, m, "empty", SHORT)
  }

  predicate BlockPasses(fields: map<string, Field>, j: Json) {
    DecodeBlock(j).Some? && BlockFits(fields, DecodeBlock(j).value)
  }

  predicate NamesOne(fields: map<string, Field>, j: Option<Json>, kinds: set<FieldType>) {
    AsString(j).Some? && FieldIs(fields, AsString(j).value, kinds)
  }

  function InputTypes(kind: BlockKind): set<FieldType> {
    match kind
    case AmountBlock => {AmountField}
    case WordsBlock => {TextField}
    case FriendBlock => {FriendField, FriendsField}
    case _ => {ItemField}
  }

  lemma {:induction false} KeysApart()
    ensures "text" != "label" && "text" != "placeholder" && "text" != "empty" && "text" != "block" && "text" != "field" && "text" != "event" && "text" != "select" && "text" != "open"
    ensures "label" != "block" && "label" != "field" && "label" != "event"
    ensures "placeholder" != "block" && "placeholder" != "label" && "placeholder" != "field" && "placeholder" != "event" && "placeholder" != "select" && "placeholder" != "open" && "placeholder" != "empty"
    ensures "empty" != "block" && "empty" != "label" && "empty" != "field" && "empty" != "event"
  {
    assert "label"[0] == 'l' && "block"[0] == 'b' && "field"[0] == 'f' && "event"[0] == 'e' && "empty"[1] == 'm' && "event"[1] == 'v';
    assert "text"[0] == 't' && "open"[0] == 'o';
  }

  lemma {:induction false} WordsPass(fields: map<string, Field>, m: Members, heading: bool)
    requires HasKeys(m, {"block", "text"}, {})
    ensures TextsPass(fields, m) <==> DecodeWords(m, heading).Some? && BlockFits(fields, DecodeWords(m, heading).value)
  {
    KeysApart();
    assert "text" in m && "label" !in m && "placeholder" !in m && "empty" !in m;
    OneText(fields, DecodeWords(m, heading));
  }

  lemma {:induction false} OneText(fields: map<string, Field>, b: Option<Block>)
    requires b.Some? ==> |TextsOf(b.value)| == 1
    ensures b.Some? ==> ((forall t | t in TextsOf(b.value) :: PlaceholdersFit(fields, t)) <==> PlaceholdersFit(fields, TextsOf(b.value)[0]))
  {
  }

  lemma {:induction false} ButtonPasses(fields: map<string, Field>, m: Members, primary: bool)
    requires HasKeys(m, {"block", "label", "event"}, {})
    ensures TextsPass(fields, m) && AsString(Get(m, "event")).Some? <==> DecodeButton(m, primary).Some? && BlockFits(fields, DecodeButton(m, primary).value)
  {
    KeysApart();
    assert "label" in m && "text" !in m && "placeholder" !in m && "empty" !in m;
    OneText(fields, DecodeButton(m, primary));
  }

  lemma {:induction false} InputPasses(fields: map<string, Field>, m: Members, kind: BlockKind)
    requires kind.AmountBlock? || kind.FriendBlock? || kind.ItemBlock?
    requires HasKeys(m, {"block", "field", "label"}, {})
    ensures TextsPass(fields, m) && NamesOne(fields, Get(m, "field"), InputTypes(kind))
            <==> DecodeInput(m, kind).Some? && BlockFits(fields, DecodeInput(m, kind).value)
  {
    KeysApart();
    assert "label" in m && "text" !in m && "placeholder" !in m && "empty" !in m;
    OneText(fields, DecodeInput(m, kind));
  }

  lemma {:induction false} TwoTexts(fields: map<string, Field>, b: Block, first: Option<string>, second: Option<string>)
    requires TextsOf(b) == (if first.Some? then [first.value] else []) + (if second.Some? then [second.value] else [])
    ensures (forall t | t in TextsOf(b) :: PlaceholdersFit(fields, t)) <==>
              (first.Some? ==> PlaceholdersFit(fields, first.value)) && (second.Some? ==> PlaceholdersFit(fields, second.value))
  {
    if first.Some? { assert first.value in TextsOf(b); }
    if second.Some? { assert second.value in TextsOf(b); }
  }

  lemma {:induction false} WordsInputPasses(fields: map<string, Field>, m: Members)
    requires HasKeys(m, {"block", "field", "label"}, {"placeholder"})
    ensures TextsPass(fields, m) && NamesOne(fields, Get(m, "field"), {TextField})
            <==> DecodeInput(m, WordsBlock).Some? && BlockFits(fields, DecodeInput(m, WordsBlock).value)
  {
    KeysApart();
    assert "label" in m && "text" !in m && "empty" !in m;
    var b := DecodeInput(m, WordsBlock);
    if b.Some? { TwoTexts(fields, b.value, Some(b.value.caption), b.value.placeholder); }
  }

  /** What the checker asks of a list's own members. */
  predicate ListPasses(fields: map<string, Field>, m: Members) {
    && NamesOne(fields, Get(m, "field"), {MessagesField, SendersField})
    && ("select" in m ==> NamesOne(fields, Get(m, "select"), {SelectionField}))
    && ("open" in m ==>
          && OpenOf(m["open"]).Some?
          && FieldIs(fields, OpenOf(m["open"]).value.field, {RowType(fields, Get(m, "field"))}))
  }

  /** The type of field a list's rows open into. */
  function RowType(fields: map<string, Field>, list: Option<Json>): FieldType {
    if NamesOne(fields, list, {SendersField}) then SenderField else MessageField
  }

  lemma {:induction false} ListBlockPasses(fields: map<string, Field>, m: Members)
    requires HasKeys(m, {"block", "field"}, {"label", "select", "open", "empty"})
    ensures TextsPass(fields, m) && ListPasses(fields, m) <==> DecodeList(m).Some? && BlockFits(fields, DecodeList(m).value)
  {
    KeysApart();
    assert "text" !in m && "placeholder" !in m;
    var b := DecodeList(m);
    if b.Some? { TwoTexts(fields, b.value, b.value.heading, b.value.empty); }
  }
}
