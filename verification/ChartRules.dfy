/** What the checker asks of a chart's references (src/apps/chartValidator.ts), over charts of the right shape. */
module ChartRules {
  import opened Prelude
  import opened ChartTypes
  import opened ChartFormat
  import opened ChartEffects

  predicate FieldIs(fields: map<string, Field>, name: string, kinds: set<FieldType>) {
    name in fields && fields[name].kind in kinds
  }

  predicate AmountFits(fields: map<string, Field>, amount: string, split: Option<Split>, memo: Option<string>, coin: Coin) {
    && FieldIs(fields, amount, {AmountField}) && fields[amount].coin == Some(coin)
    && (split.Some? ==> FieldIs(fields, split.value.countOf, {FriendsField}))
    && (memo.Some? ==> FieldIs(fields, memo.value, {TextField}))
  }

  /** Every field an effect reads or writes is declared, and of a type it can use. */
  predicate EffectFits(fields: map<string, Field>, e: Effect) {
    match e
    case RequestPayment(coin, _, from, amount, split, memo) =>
      AmountFits(fields, amount, split, memo, coin) && FieldIs(fields, from, {FriendField, FriendsField})
    case SendPayment(coin, _, to, amount, split, memo) =>
      AmountFits(fields, amount, split, memo, coin) && FieldIs(fields, to, {FriendField})
    case SendItem(_, _, to, item) => FieldIs(fields, to, {FriendField}) && FieldIs(fields, item, {ItemField})
    case SignMessage(message, result) => FieldIs(fields, message, {TextField}) && FieldIs(fields, result, {SignatureField})
    case Fetch(_, result) => FieldIs(fields, result, {FetchedField})
    case ListMessages(_, result, blocked) =>
      FieldIs(fields, result, {MessagesField}) && (blocked.Some? ==> FieldIs(fields, blocked.value, {SendersField}))
    case AcknowledgeMessages(messages) => FieldIs(fields, messages, {SelectionField, MessageField})
    case DeleteMessages(messages) => FieldIs(fields, messages, {SelectionField, MessageField})
    case BlockSender(sender) => FieldIs(fields, sender, {MessageField, SenderField})
    case UnblockSender(sender) => FieldIs(fields, sender, {MessageField, SenderField})
  }

  /** The texts a block shows. */
  function TextsOf(b: Block): seq<string> {
    match b
    case Heading(text) => [text]
    case Text(text) => [text]
    case AmountInput(_, caption) => [caption]
    case TextInput(_, caption, placeholder) => [caption] + (if placeholder.Some? then [placeholder.value] else [])
    case FriendPicker(_, caption) => [caption]
    case ItemPicker(_, caption) => [caption]
    case List(_, heading, _, _, empty) =>
      (if heading.Some? then [heading.value] else []) + (if empty.Some? then [empty.value] else [])
    case Button(_, caption, _) => [caption]
  }

  predicate BlockFits(fields: map<string, Field>, b: Block) {
    && (forall t | t in TextsOf(b) :: PlaceholdersFit(fields, t))
    && match b
       case AmountInput(field, _) => FieldIs(fields, field, {AmountField})
       case TextInput(field, _, _) => FieldIs(fields, field, {TextField})
       case FriendPicker(field, _) => FieldIs(fields, field, {FriendField, FriendsField})
       case ItemPicker(field, _) => FieldIs(fields, field, {ItemField})
       case List(field, _, select, open, _) =>
         && FieldIs(fields, field, {MessagesField, SendersField})
         && (select.Some? ==> FieldIs(fields, select.value, {SelectionField}))
         && (open.Some? ==> FieldIs(fields, open.value.field, {if fields[field].kind.SendersField? then SenderField else MessageField}))
       case _ => true
  }

  /** The event a block sends. */
  function EventOf(b: Block): Option<string> {
    match b
    case Button(_, _, event) => Some(event)
    case List(_, _, _, Some(open), _) => Some(open.event)
    case _ => None
  }

  predicate LiteralFits(fields: map<string, Field>, name: string, value: Literal) {
    && name in fields
    && match fields[name].kind
       case AmountField => value.Number? && 0 < value.n <= MAX_SAFE
       case TextField => value.Chars? && Length16(value.s) <= MAX_TEXT
       case _ => false
  }

  predicate TransitionFits(fields: map<string, Field>, names: set<string>, t: Transition) {
    && t.target in names
    && (forall f | f in t.needs :: f in fields)
    && (forall f | f in t.assign :: LiteralFits(fields, f, t.assign[f]))
  }

  predicate StateFits(fields: map<string, Field>, effects: map<string, Effect>, names: set<string>, s: State) {
    match s
    case EffectState(effect, onDone, onError, onDecline) =>
      && effect in effects && onDone in names && onError in names
      && (NeedsApproval(effects[effect]) <==> onDecline.Some?)
      && (onDecline.Some? ==> onDecline.value in names)
    case ViewState(view, on, final) =>
      && (forall b | b in view :: BlockFits(fields, b))
      && (forall b | b in view :: EventOf(b).Some? ==> EventOf(b).value in on)
      && (forall event | event in on :: Emits(view, event) && TransitionFits(fields, names, on[event]))
  }

  predicate Emits(view: seq<Block>, event: string) {
    exists b | b in view :: EventOf(b) == Some(event)
  }

  /** A chart whose references all hold. */
  predicate Fits(chart: ChartApp) {
    && chart.initial in chart.states
    && (forall e | e in chart.effects :: EffectFits(chart.fields, chart.effects[e]))
    && (forall s | s in chart.states :: StateFits(chart.fields, chart.effects, chart.states.Keys, chart.states[s]))
    && (forall f | f in chart.fields :: chart.fields[f].maxLength.Some? ==> 1 <= chart.fields[f].maxLength.value <= MAX_TEXT)
  }
}
