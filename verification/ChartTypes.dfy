/** Chart apps (src/apps/chartTypes.ts): a chart, the values its fields hold, and the effects it may ask for. */
module ChartTypes {
  import opened Prelude

  datatype Coin = BSV | BTC

  datatype Network = Mainnet | Testnet

  datatype FieldType =
    | AmountField | TextField | FriendField | FriendsField | ItemField | MessagesField | SendersField
    | SelectionField | MessageField | SenderField | SignatureField | FetchedField

  datatype Field = Field(kind: FieldType, maxLength: Option<int>, coin: Option<Coin>)

  datatype Open = Open(event: string, field: string)

  datatype Block =
    | Heading(text: string)
    | Text(text: string)
    | AmountInput(field: string, caption: string)
    | TextInput(field: string, caption: string, placeholder: Option<string>)
    | FriendPicker(field: string, caption: string)
    | ItemPicker(field: string, caption: string)
    | List(field: string, heading: Option<string>, select: Option<string>, open: Option<Open>, empty: Option<string>)
    | Button(primary: bool, caption: string, event: string)

  datatype Literal = Number(n: int) | Chars(s: string)

  datatype Transition = Transition(target: string, needs: seq<string>, assign: map<string, Literal>)

  datatype State =
    | EffectState(effect: string, onDone: string, onError: string, onDecline: Option<string>)
    | ViewState(view: seq<Block>, on: map<string, Transition>, final: bool)

  /** Divide by the number of friends picked, plus a constant. */
  datatype Split = Split(countOf: string, plus: Option<int>)

  datatype Effect =
    | RequestPayment(coin: Coin, networks: seq<Network>, from: string, amount: string, split: Option<Split>, memo: Option<string>)
    | SendPayment(coin: Coin, networks: seq<Network>, to: string, amount: string, split: Option<Split>, memo: Option<string>)
    | SendItem(coin: Coin, networks: seq<Network>, to: string, item: string)
    | SignMessage(message: string, result: string)
    | Fetch(url: string, result: string)
    | ListMessages(boxes: seq<string>, result: string, blocked: Option<string>)
    | AcknowledgeMessages(messages: string)
    | DeleteMessages(messages: string)
    | BlockSender(sender: string)
    | UnblockSender(sender: string)

  datatype Author = Author(identityKey: string, name: string)

  datatype ChartApp = ChartApp(
    id: string, name: string, summary: string, version: string, author: Author, initial: string,
    fields: map<string, Field>, effects: map<string, Effect>, states: map<string, State>, signature: string)

  // ----- the values the runner holds -----

  datatype Recipient = Recipient(id: string, caption: string, identityKey: string)

  datatype ItemRef = ItemRef(outpoint: string, name: string)

  datatype MessageKind = Plain | PaymentRequest | PaymentNotice | Tip | FileMessage | IdentityCard | Market | Unreadable

  datatype BoxMessage = BoxMessage(id: string, box: string, sender: string, senderName: string, at: int, kind: MessageKind, text: string)

  datatype SenderRef = SenderRef(identityKey: string, name: string)

  datatype FieldValue =
    | Amount(n: int)
    | Words(s: string)
    | Friend(friend: Recipient)
    | Friends(friends: seq<Recipient>)
    | Item(item: ItemRef)
    | Messages(messages: seq<BoxMessage>)
    | Senders(senders: seq<SenderRef>)
    | Selection(ids: seq<string>)
    | Message(message: BoxMessage)
    | Sender(sender: SenderRef)
    | Signature(identityKey: string, signature: string, signed: string)
    | Fetched(url: string, status: int, body: string)

  /** A field that holds nothing is absent. */
  type Values = map<string, FieldValue>

  /** An effect with every reference resolved: exactly what is approved and run. */
  datatype ResolvedEffect =
    | AskPayment(coin: Coin, network: Network, from: seq<Recipient>, amountEach: int, memo: string)
    | Pay(coin: Coin, network: Network, to: Recipient, amount: int, memo: string)
    | GiveItem(coin: Coin, network: Network, to: Recipient, item: ItemRef)
    | Sign(appId: string, message: string)
    | Read(url: string)
    | ListBoxes(boxes: seq<string>)
    | Acknowledge(messages: seq<BoxMessage>)
    | Delete(messages: seq<BoxMessage>)
    | Block(sender: SenderRef)
    | Unblock(sender: SenderRef)

  /** What the wallet's ports answer. */
  datatype EffectResult =
    | NoResult
    | ListedMessages(messages: seq<BoxMessage>, blocked: seq<SenderRef>)
    | Signed(identityKey: string, signature: string, message: string)
    | FetchedText(url: string, status: int, text: string)

  const MAX_SAFE: int := 0x1F_FFFF_FFFF_FFFF

  const MAX_TEXT := 500

  /** How a value's shape answers to a field's type. */
  predicate ShapeOf(kind: FieldType, v: FieldValue) {
    match kind
    case AmountField => v.Amount?
    case TextField => v.Words?
    case FriendField => v.Friend?
    case FriendsField => v.Friends?
    case ItemField => v.Item?
    case MessagesField => v.Messages?
    case SendersField => v.Senders?
    case SelectionField => v.Selection?
    case MessageField => v.Message?
    case SenderField => v.Sender?
    case SignatureField => v.Signature?
    case FetchedField => v.Fetched?
  }
}
