/**
 * Chart effects (src/apps/chartEffects.ts): turning a declared effect and the
 * held values into the concrete action, and the copy its approval shows.
 */
module ChartEffects {
  import opened Prelude
  import opened ChartTypes
  import opened ChartFormat

  /** Effects that move money, share identity, or clear or block mail. */
  predicate NeedsApproval(effect: Effect) {
    effect.RequestPayment? || effect.SendPayment? || effect.SendItem? || effect.SignMessage? || effect.DeleteMessages? || effect.BlockSender?
  }

  predicate Guarded(effect: ResolvedEffect) {
    effect.AskPayment? || effect.Pay? || effect.GiveItem? || effect.Sign? || effect.Delete? || effect.Block?
  }

  /** An effect ready to run, a reason it cannot be, or a read of a value that is not there to be read. */
  datatype Resolution = Ready(effect: ResolvedEffect) | Refused(why: string) | Wrong

  predicate ReadsAs(values: Values, field: string, kinds: set<FieldType>) {
    field in values ==> exists kind :: kind in kinds && ShapeOf(kind, values[field])
  }

  /** The people a field names. */
  function Recipients(values: Values, field: string): seq<Recipient> {
    if field !in values then []
    else match values[field]
      case Friend(r) => [r]
      case Friends(list) => list
      case _ => []
  }

  /** A text field's trimmed text; empty where it holds none. */
  function TextOf(values: Values, field: Option<string>): string {
    if field.Some? && field.value in values && values[field.value].Words? then Trim(values[field.value].s) else ""
  }

  /** The declared message lists, in the order the chart declares its fields. */
  function ListFields(fields: map<string, Field>, order: seq<string>): seq<string> {
    if order == [] then []
    else (if order[0] in fields && fields[order[0]].kind.MessagesField? then [order[0]] else []) + ListFields(fields, order[1..])
  }

  /** Every listed message, list after list. */
  function Listed(values: Values, lists: seq<string>): seq<BoxMessage> {
    if lists == [] then []
    else (if lists[0] in values && values[lists[0]].Messages? then values[lists[0]].messages else []) + Listed(values, lists[1..])
  }

  /** The first listed message with this id. */
  function Find(listed: seq<BoxMessage>, id: string): (r: Option<BoxMessage>)
    ensures r.Some? <==> exists i :: 0 <= i < |listed| && listed[i].id == id
    ensures r.Some? ==> r.value in listed && r.value.id == id
  {
    if listed == [] then None else if listed[0].id == id then Some(listed[0]) else Find(listed[1..], id)
  }

  function FindAll(listed: seq<BoxMessage>, ids: seq<string>): seq<BoxMessage> {
    if ids == [] then []
    else
      var found := Find(listed, ids[0]);
      (if found.Some? then [found.value] else []) + FindAll(listed, ids[1..])
  }

  function MessagesOf(values: Values, field: string, lists: seq<string>): seq<BoxMessage> {
    if field !in values then []
    else match values[field]
      case Selection(ids) => FindAll(Listed(values, lists), ids)
      case Message(m) => [m]
      case _ => []
  }

  function SenderOf(values: Values, field: string): Option<SenderRef> {
    if field !in values then None
    else match values[field]
      case Sender(s) => Some(s)
      case Message(m) => if m.sender != "" then Some(SenderRef(m.sender, m.senderName)) else None
      case _ => None
  }

  /** How many ways the amount is split. */
  function Parts(values: Values, split: Option<Split>): int {
    match split
    case None => 1
    case Some(Split(countOf, plus)) => |Recipients(values, countOf)| + (if plus.Some? then plus.value else 0)
  }

  /** `Math.floor(total / Math.max(1, parts))` */
  function EachOf(total: nat, parts: int): nat {
    total / (if parts > 1 then parts else 1)
  }

  /** The concrete action, for fields of the shapes the chart says they have. */
  function Resolve(effect: Effect, appId: string, values: Values, lists: seq<string>, network: Network): Resolution {
    match effect
    case RequestPayment(coin, networks, from, amount, split, memo) =>
      if !ReadsAs(values, amount, {AmountField}) || !ReadsAs(values, from, {FriendField, FriendsField})
        || (split.Some? && !ReadsAs(values, split.value.countOf, {FriendsField})) then Wrong
      else if network !in networks then Refused("wrong network")
      else if amount !in values || values[amount].n <= 0 then Refused("Pick an amount first")
      else if Recipients(values, from) == [] then Refused("Pick a friend first")
      else
        var each := EachOf(values[amount].n, Parts(values, split));
        if each == 0 then Refused("The amount is too small to split")
        else Ready(AskPayment(coin, network, Recipients(values, from), each, TextOf(values, memo)))
    case SendPayment(coin, networks, to, amount, _, memo) =>
      if !ReadsAs(values, amount, {AmountField}) || !ReadsAs(values, to, {FriendField}) then Wrong
      else if network !in networks then Refused("wrong network")
      else if amount !in values || values[amount].n <= 0 then Refused("Pick an amount first")
      else if to !in values then Refused("Pick a friend first")
      else Ready(Pay(coin, network, values[to].friend, values[amount].n, TextOf(values, memo)))
    case SendItem(coin, networks, to, item) =>
      if !ReadsAs(values, to, {FriendField}) || !ReadsAs(values, item, {ItemField}) then Wrong
      else if network !in networks then Refused("wrong network")
      else if to !in values then Refused("Pick a friend first")
      else if item !in values then Refused("Pick an item first")
      else Ready(GiveItem(coin, network, values[to].friend, values[item].item))
    case SignMessage(message, _) =>
      if !ReadsAs(values, message, {TextField}) then Wrong
      else if TextOf(values, Some(message)) == "" then Refused("Write the text to sign first")
      else Ready(Sign(appId, TextOf(values, Some(message))))
    case Fetch(url, _) => Ready(Read(url))
    case ListMessages(boxes, _, _) => Ready(ListBoxes(boxes))
    case AcknowledgeMessages(messages) =>
      if !ReadsAs(values, messages, {SelectionField, MessageField}) then Wrong
      else if MessagesOf(values, messages, lists) == [] then Refused("Pick a message first")
      else Ready(Acknowledge(MessagesOf(values, messages, lists)))
    case DeleteMessages(messages) =>
      if !ReadsAs(values, messages, {SelectionField, MessageField}) then Wrong
      else if MessagesOf(values, messages, lists) == [] then Refused("Pick a message first")
      else Ready(Delete(MessagesOf(values, messages, lists)))
    case BlockSender(sender) =>
      if !ReadsAs(values, sender, {MessageField, SenderField}) then Wrong
      else (match SenderOf(values, sender)
            case None => Refused("Pick a sender first")
            case Some(s) => Ready(Block(s)))
    case UnblockSender(sender) =>
      if !ReadsAs(values, sender, {MessageField, SenderField}) then Wrong
      else (match SenderOf(values, sender)
            case None => Refused("Pick a sender first")
            case Some(s) => Ready(Unblock(s)))
  }

  // ----- what resolving promises -----

  /** An effect that waits for approval resolves to an action that waits for approval, and no other does. */
  lemma {:induction false} GuardedIffApproved(effect: Effect, appId: string, values: Values, lists: seq<string>, network: Network)
    requires Resolve(effect, appId, values, lists, network).Ready?
    ensures Guarded(Resolve(effect, appId, values, lists, network).effect) <==> NeedsApproval(effect)
  {
  }

  /** How many ways an amount is really split: at least one. */
  function Ways(parts: int): nat {
    if parts > 1 then parts else 1
  }

  /** While no more friends are asked than the amount is split for, they are never asked for more than it, nor a unit a part less. */
  lemma {:induction false} SplitIsFair(effect: Effect, appId: string, values: Values, lists: seq<string>, network: Network)
    requires effect.RequestPayment? && Resolve(effect, appId, values, lists, network).Ready?
    requires |Recipients(values, effect.from)| <= Ways(Parts(values, effect.split))
    ensures var asked := Resolve(effect, appId, values, lists, network).effect;
            var total, ways := values[effect.amount].n, Ways(Parts(values, effect.split));
            && asked.amountEach > 0 && asked.from == Recipients(values, effect.from) && |asked.from| >= 1
            && |asked.from| * asked.amountEach <= total < ways * (asked.amountEach + 1)
  {
    var total, parts := values[effect.amount].n, Parts(values, effect.split);
    var n := |Recipients(values, effect.from)|;
    Division(total, parts);
    Wider(n, Ways(parts) - n, EachOf(total, parts));
  }

  /** Asking `n` friends for a share each is safe for every amount if and only if they are no more than the ways it is split. */
  lemma {:induction false} SplitFairExactlyWhen(n: nat, parts: int)
    ensures (forall total: nat :: EachOf(total, parts) > 0 ==> n * EachOf(total, parts) <= total) <==> n <= Ways(parts)
  {
    if n <= Ways(parts) {
      forall total: nat ensures n * EachOf(total, parts) <= total {
        Division(total, parts);
        Wider(n, Ways(parts) - n, EachOf(total, parts));
      }
    } else {
      assert EachOf(Ways(parts), parts) == 1;
    }
  }

  /** A request that asks three friends for the whole amount each: it is split by another list, of one. */
  lemma {:induction false} SplitCanOverask(friend: Recipient, appId: string)
    ensures var effect := RequestPayment(BSV, [Mainnet], "everyone", "total", Some(Split("one", None)), None);
            var values: Values := map["everyone" := Friends([friend, friend, friend]), "one" := Friends([friend]), "total" := Amount(10)];
            var asked := Resolve(effect, appId, values, [], Mainnet);
            && asked == Ready(AskPayment(BSV, Mainnet, [friend, friend, friend], 10, ""))
            && |asked.effect.from| * asked.effect.amountEach > values["total"].n
  {
    assert "everyone"[0] == 'e' && "one"[0] == 'o' && "total"[0] == 't';
    var values: Values := map["everyone" := Friends([friend, friend, friend]), "one" := Friends([friend]), "total" := Amount(10)];
    assert ShapeOf(AmountField, values["total"]) && ShapeOf(FriendsField, values["everyone"]) && ShapeOf(FriendsField, values["one"]);
  }

  lemma {:induction false} Division(total: nat, parts: int)
    ensures Ways(parts) * EachOf(total, parts) <= total < Ways(parts) * (EachOf(total, parts) + 1)
  {
    assert EachOf(total, parts) == total / Ways(parts);
  }

  lemma {:induction false} Wider(n: nat, plus: nat, each: nat)
    ensures n * each <= (n + plus) * each
  {
    assert (n + plus) * each == n * each + plus * each;
  }

  function IdsOf(messages: seq<BoxMessage>): seq<string> {
    if messages == [] then [] else [messages[0].id] + IdsOf(messages[1..])
  }

  lemma {:induction false} FindFirst(listed: seq<BoxMessage>, ids: seq<string>)
    requires ids != [] && Find(listed, ids[0]).Some?
    ensures FindAll(listed, ids) == [Find(listed, ids[0]).value] + FindAll(listed, ids[1..])
  {
  }

  lemma {:induction false} IdsCons(first: BoxMessage, rest: seq<BoxMessage>)
    ensures IdsOf([first] + rest) == [first.id] + IdsOf(rest)
  {
    assert ([first] + rest)[1..] == rest;
  }

  /** Ids that are all listed resolve to exactly as many messages, in the order they were ticked. */
  lemma {:induction false} FindAllInOrder(listed: seq<BoxMessage>, ids: seq<string>)
    requires forall id :: id in ids ==> Find(listed, id).Some?
    ensures IdsOf(FindAll(listed, ids)) == ids
    ensures forall m :: m in FindAll(listed, ids) ==> m in listed
  {
    if ids != [] {
      FindAllInOrder(listed, ids[1..]);
      FindFirst(listed, ids);
      IdsCons(Find(listed, ids[0]).value, FindAll(listed, ids[1..]));
    }
  }

  lemma {:induction false} ListedHolds(values: Values, lists: seq<string>, f: string, m: BoxMessage)
    requires f in lists && f in values && values[f].Messages? && m in values[f].messages
    ensures m in Listed(values, lists)
  {
    if lists[0] != f { ListedHolds(values, lists[1..], f, m); }
  }

  lemma {:induction false} ListedFrom(values: Values, lists: seq<string>, m: BoxMessage)
    requires m in Listed(values, lists)
    ensures exists f :: f in lists && f in values && values[f].Messages? && m in values[f].messages
  {
    if !(lists[0] in values && values[lists[0]].Messages? && m in values[lists[0]].messages) {
      ListedFrom(values, lists[1..], m);
      var f :| f in lists[1..] && f in values && values[f].Messages? && m in values[f].messages;
      assert f in lists;
    }
  }

  lemma {:induction false} ListFieldsAre(fields: map<string, Field>, order: seq<string>, f: string)
    ensures f in ListFields(fields, order) <==> f in order && f in fields && fields[f].kind.MessagesField?
  {
    if order != [] { ListFieldsAre(fields, order[1..], f); }
  }

  // ----- the approval copy -----

  datatype Line = Line(caption: string, value: string)

  datatype ApprovalCopy = ApprovalCopy(eyebrow: string, title: string, amount: Option<string>, lines: seq<Line>, note: Option<string>, confirm: string)

  function CoinName(coin: Coin): string {
    match coin case BSV => "Bitcoin SV" case BTC => "Bitcoin"
  }

  function CoinLine(coin: Coin, network: Network): string {
    if network == Testnet then CoinName(coin) + " testnet" else CoinName(coin)
  }

  function Plural(n: nat, noun: string): string {
    Decimal(n) + " " + noun + if n == 1 then "" else "s"
  }

  function Names(labels: seq<string>): string {
    if |labels| <= 2 then Joined(labels, " and ")
    else Joined(labels[..|labels| - 1], ", ") + " and " + labels[|labels| - 1]
  }

  /** The first occurrences, in order. */
  function Distinct(s: seq<string>, seen: seq<string>): seq<string> {
    if s == [] then seen else Distinct(s[1..], if s[0] in seen then seen else seen + [s[0]])
  }

  /** The senders' names, one for each sender, in the order they first wrote. */
  function UniqueSenders(messages: seq<BoxMessage>, seen: set<string>): seq<string> {
    if messages == [] then []
    else if messages[0].sender in seen then UniqueSenders(messages[1..], seen)
    else [messages[0].senderName] + UniqueSenders(messages[1..], seen + {messages[0].sender})
  }

  /** Whether the sender of message `i` wrote before. */
  predicate WroteBefore(messages: seq<BoxMessage>, i: nat)
    requires i < |messages|
  {
    exists k | 0 <= k < i :: messages[k].sender == messages[i].sender
  }

  /** The places, from `i` on, of messages that are their sender's first. */
  function FirstPlaces(messages: seq<BoxMessage>, i: nat): (places: seq<nat>)
    requires i <= |messages|
    ensures forall p :: p in places ==> i <= p < |messages|
    decreases |messages| - i
  {
    if i == |messages| then [] else (if WroteBefore(messages, i) then [] else [i]) + FirstPlaces(messages, i + 1)
  }

  /** They come in order, and are exactly the first messages. */
  lemma {:induction false} FirstPlacesAre(messages: seq<BoxMessage>, i: nat)
    requires i <= |messages|
    ensures forall j, k :: 0 <= j < k < |FirstPlaces(messages, i)| ==> FirstPlaces(messages, i)[j] < FirstPlaces(messages, i)[k]
    ensures forall p :: i <= p < |messages| ==> (p in FirstPlaces(messages, i) <==> !WroteBefore(messages, p))
    decreases |messages| - i
  {
    if i < |messages| {
      FirstPlacesAre(messages, i + 1);
      var later := FirstPlaces(messages, i + 1);
      assert forall k :: 0 <= k < |later| ==> later[k] in later;
      assert forall p :: p in FirstPlaces(messages, i) <==> p in FirstPlaces(messages, i + 1) || (p == i && !WroteBefore(messages, i));
    }
  }

  function SendersBefore(messages: seq<BoxMessage>, i: nat): set<string>
    requires i <= |messages|
  {
    set k | 0 <= k < i :: messages[k].sender
  }

  function NamesAt(messages: seq<BoxMessage>, places: seq<nat>): (names: seq<string>)
    requires forall p :: p in places ==> p < |messages|
    ensures |names| == |places| && forall k :: 0 <= k < |places| ==> places[k] in places && names[k] == messages[places[k]].senderName
  {
    seq(|places|, k requires 0 <= k < |places| => assert places[k] in places; messages[places[k]].senderName)
  }

  /** Each sender's name once, as in their first message, in the order they first wrote. */
  lemma {:induction false} UniqueSendersAreFirsts(messages: seq<BoxMessage>, i: nat)
    requires i <= |messages|
    ensures UniqueSenders(messages[i..], SendersBefore(messages, i)) == NamesAt(messages, FirstPlaces(messages, i))
    decreases |messages| - i
  {
    if i < |messages| {
      UniqueSendersAreFirsts(messages, i + 1);
      assert messages[i..][0] == messages[i] && messages[i..][1..] == messages[i + 1..];
      assert SendersBefore(messages, i + 1) == SendersBefore(messages, i) + {messages[i].sender};
      if WroteBefore(messages, i) {
        assert SendersBefore(messages, i + 1) == SendersBefore(messages, i);
      }
    }
  }

  /** The senders' names as they are gathered, message by message. */
  method GatherSenders(messages: seq<BoxMessage>) returns (names: seq<string>)
    ensures names == UniqueSenders(messages, {}) && names == NamesAt(messages, FirstPlaces(messages, 0))
  {
    UniqueSendersAreFirsts(messages, 0);
    assert messages[0..] == messages && SendersBefore(messages, 0) == {};
    var seen: map<string, string> := map[];
    names := [];
    assert messages[0..] == messages && seen.Keys == {};
    for i := 0 to |messages|
      invariant names + UniqueSenders(messages[i..], seen.Keys) == UniqueSenders(messages, {})
    {
      ghost var before, rest := names, UniqueSenders(messages[i..], seen.Keys);
      assert messages[i..][0] == messages[i] && messages[i..][1..] == messages[i + 1..];
      if messages[i].sender !in seen {
        ghost var keys := seen.Keys;
        seen := seen[messages[i].sender := messages[i].senderName];
        assert seen.Keys == keys + {messages[i].sender};
        names := names + [messages[i].senderName];
      }
      assert names + UniqueSenders(messages[i + 1..], seen.Keys) == before + rest;
    }
    assert messages[|messages|..] == [];
  }

  function Notices(messages: seq<BoxMessage>): nat {
    if messages == [] then 0
    else (if messages[0].kind.PaymentNotice? || messages[0].kind.Tip? then 1 else 0) + Notices(messages[1..])
  }

  function MemoLine(memo: string): seq<Line> {
    if memo == "" then [] else [Line("Note", memo)]
  }

  function Boxes(messages: seq<BoxMessage>): seq<string> {
    seq(|messages|, i requires 0 <= i < |messages| => messages[i].box)
  }

  /** What the approval step says. */
  function ApprovalFor(effect: ResolvedEffect, app: string): ApprovalCopy {
    match effect
    case Pay(coin, network, to, amount, memo) =>
      ApprovalCopy(app + " wants to send", "Send to " + to.caption, Some(FormatChartAmount(amount)),
                   [Line("To", to.caption), Line("Coin", CoinLine(coin, network))] + MemoLine(memo), None, "Send")
    case AskPayment(coin, network, from, amountEach, memo) =>
      var each := FormatChartAmount(amountEach);
      ApprovalCopy(app + " wants to ask for a payment", "Ask " + Names(Labels(from)),
                   Some(if |from| > 1 then each + " each" else each),
                   [Line("From", Names(Labels(from))), Line("Coin", CoinLine(coin, network))] + MemoLine(memo),
                   Some("The request carries your identity to " + (if |from| == 1 then from[0].caption else "each of them") + "."),
                   if |from| > 1 then "Send " + Decimal(|from|) + " requests" else "Send request")
    case GiveItem(coin, network, to, item) =>
      ApprovalCopy(app + " wants to send an item", "Send " + item.name, None,
                   [Line("Item", item.name), Line("To", to.caption), Line("Coin", CoinLine(coin, network))], None, "Send")
    case Sign(_, message) =>
      ApprovalCopy(app + " wants your signature", "Sign with your identity key", None, [Line("Text", message)],
                   Some("Anyone can check that this wallet signed this text for " + app + ". Nothing else is signed."), "Sign")
    case Delete(messages) =>
      var notices := Notices(messages);
      ApprovalCopy(app + " wants to clear messages", "Clear " + Plural(|messages|, "message"), None,
                   [Line("From", Names(UniqueSenders(messages, {}))), Line("Box", Joined(Distinct(Boxes(messages), []), ", "))],
                   Some(if notices > 0
                        then Plural(notices, "payment notice") + " among them. Clearing a notice before this wallet takes its payment can lose that payment."
                        else "Cleared messages are deleted from the box host and cannot be read again."),
                   "Clear " + Plural(|messages|, "message"))
    case Block(sender) =>
      ApprovalCopy(app + " wants to block a sender", "Block " + sender.name, None, [Line("Identity key", sender.identityKey)],
                   Some("Messages from " + sender.name + ", payment notices included, are cleared as they arrive until you unblock them."), "Block")
    case _ => ApprovalCopy(app, "", None, [], None, "Continue")
  }

  // ----- the copy tells payments apart -----

  /** The number a text's digits spell, whatever stands between them. */
  function DigitsOf(s: string): nat {
    if s == "" then 0
    else
      var c, front := s[|s| - 1], s[..|s| - 1];
      if '0' <= c <= '9' then 10 * DigitsOf(front) + (c as int - '0' as int) else DigitsOf(front)
  }

  lemma {:induction false} DigitsThen(s: string, c: char)
    ensures DigitsOf(s + [c]) == if '0' <= c <= '9' then 10 * DigitsOf(s) + (c as int - '0' as int) else DigitsOf(s)
  {
    assert (s + [c])[..|s|] == s;
  }

  lemma {:induction false} DigitsThenWord(s: string, word: string)
    requires forall c :: c in word ==> !('0' <= c <= '9')
    ensures DigitsOf(s + word) == DigitsOf(s)
  {
    if word == "" {
      assert s + word == s;
    } else {
      var front, last := word[..|word| - 1], word[|word| - 1];
      assert word == front + [last];
      assert s + word == (s + front) + [last];
      assert last in word && forall c :: c in front ==> c in word;
      DigitsThen(s + front, last);
      DigitsThenWord(s, front);
    }
  }

  lemma {:induction false} DigitsOfDecimal(n: nat)
    ensures DigitsOf(Decimal(n)) == n
  {
    if n < 10 {
      DigitsThen("", Decimal(n)[0]);
      assert "" + Decimal(n) == Decimal(n);
    } else {
      DigitsOfDecimal(n / 10);
      DigitsThen(Decimal(n / 10), ('0' as int + n % 10) as char);
    }
  }

  function Digit(n: nat): char
    requires n < 10
  {
    ('0' as int + n) as char
  }

  lemma {:induction false} Pad3Digits(n: nat)
    requires n < 1000
    ensures Pad3(n) == [Digit(n / 100), Digit(n / 10 % 10), Digit(n % 10)]
  {
    assert Decimal(n % 10) == [Digit(n % 10)];
    if 10 <= n {
      assert n < 100 ==> Decimal(n / 10) == [Digit(n / 10)];
      if 100 <= n {
        assert Decimal(n / 10 / 10) == [Digit(n / 100)];
        assert Decimal(n / 10) == Decimal(n / 100) + [Digit(n / 10 % 10)];
      }
    }
  }

  lemma {:induction false} DigitsThenPad3(s: string, n: nat)
    requires n < 1000
    ensures DigitsOf(s + Pad3(n)) == 1000 * DigitsOf(s) + n
  {
    Pad3Digits(n);
    var a, b, c := Digit(n / 100), Digit(n / 10 % 10), Digit(n % 10);
    assert s + Pad3(n) == ((s + [a]) + [b]) + [c];
    DigitsThen(s, a);
    DigitsThen(s + [a], b);
    DigitsThen((s + [a]) + [b], c);
  }

  lemma {:induction false} DigitsOfGrouped(n: nat)
    ensures DigitsOf(Grouped(n)) == n
  {
    if n < 1000 {
      DigitsOfDecimal(n);
    } else {
      DigitsOfGrouped(n / 1000);
      DigitsThen(Grouped(n / 1000), ',');
      DigitsThenPad3(Grouped(n / 1000) + ",", n % 1000);
    }
  }

  /** Two amounts never read the same. */
  lemma {:induction false} AmountsReadApart(a: nat, b: nat)
    requires FormatChartAmount(a) == FormatChartAmount(b)
    ensures a == b
  {
    DigitsOfGrouped(a);
    DigitsOfGrouped(b);
    DigitsThenWord(Grouped(a), if a == 1 then " sat" else " sats");
    DigitsThenWord(Grouped(b), if b == 1 then " sat" else " sats");
  }

  /** Approving one payment's copy is approving its amount, coin, network, note and the name it goes to. */
  lemma {:induction false} CopyTellsPaymentsApart(a: ResolvedEffect, b: ResolvedEffect, app: string)
    requires a.Pay? && b.Pay? && a.amount >= 0 && b.amount >= 0
    requires ApprovalFor(a, app) == ApprovalFor(b, app)
    ensures a.amount == b.amount && a.coin == b.coin && a.network == b.network && a.memo == b.memo
    ensures a.to.caption == b.to.caption
  {
    AmountsReadApart(a.amount, b.amount);
    var la, lb := ApprovalFor(a, app).lines, ApprovalFor(b, app).lines;
    assert la[0].value == lb[0].value && la[1].value == lb[1].value;
    CoinLinesApart(a.coin, a.network, b.coin, b.network);
    assert |la| == |lb|;
    if a.memo != "" { assert la[2].value == lb[2].value; }
  }

  lemma {:induction false} CoinLinesApart(a: Coin, m: Network, b: Coin, n: Network)
    requires CoinLine(a, m) == CoinLine(b, n)
    ensures a == b && m == n
  {
    assert |CoinLine(BSV, Mainnet)| == 10 && |CoinLine(BTC, Mainnet)| == 7;
    assert |CoinLine(BSV, Testnet)| == 18 && |CoinLine(BTC, Testnet)| == 15;
  }
}
