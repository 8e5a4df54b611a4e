/**
 * The running chart (src/apps/chartRunner.ts): what each event makes of the
 * state, the held values and the pending effect. Looking up something that is
 * not there leaves the run `Stuck`.
 */
module ChartRunner {
  import opened Prelude
  import opened ChartTypes
  import opened ChartFormat
  import opened ChartEffects

  datatype Step = Viewing | Approving | Running | Ended

  /** The resolved effect of the current effect state, with its approval copy when it needs one. */
  datatype Pending = Pending(effect: ResolvedEffect, approval: Option<ApprovalCopy>)

  datatype Config = Config(state: string, step: Step, values: Values, pending: Option<Pending>, error: Option<string>)

  /** A chart with what it is run under: the order its fields are declared in, and the network. */
  datatype Program = Program(chart: ChartApp, order: seq<string>, network: Network)

  /** What a form sends for a field; a text comes with the number it spells once separators are dropped, if a whole one. */
  datatype Input =
    | Nothing
    | Chars(s: string, number: Option<int>)
    | Number(n: Option<int>)
    | Person(person: Recipient)
    | People(people: seq<Recipient>)
    | Thing(item: ItemRef)
    | Other

  datatype Event =
    | SetField(field: string, input: Input)
    | Toggle(field: string, id: string)
    | Approve
    | Decline
    | Fire(event: string, row: Option<string>)
    | Done(result: EffectResult)
    | Failed(why: string)

  /** Where an event leads, with the effect handed to the wallet's ports on the way. */
  datatype Outcome = At(config: Config, ran: Option<ResolvedEffect>) | Loops | Stuck

  // ----- values -----

  function Lower(s: string): (t: string)
    ensures |t| == |s|
    ensures forall i :: 0 <= i < |s| ==> t[i] == if 'A' <= s[i] <= 'Z' then (s[i] as int + 32) as char else s[i]
  {
    seq(|s|, i requires 0 <= i < |s| => if 'A' <= s[i] <= 'Z' then (s[i] as int + 32) as char else s[i])
  }

  predicate IsLowerHex(s: string) {
    forall i | 0 <= i < |s| :: '0' <= s[i] <= '9' || 'a' <= s[i] <= 'f'
  }

  /** A compressed public key in lowercase hex. */
  predicate IsIdentityKey(s: string) {
    |s| == 66 && s[0] == '0' && (s[1] == '2' || s[1] == '3') && IsLowerHex(s[2..])
  }

  predicate IsRecipient(r: Recipient) {
    IsIdentityKey(Lower(r.identityKey))
  }

  function Lowered(r: Recipient): Recipient {
    r.(identityKey := Lower(r.identityKey))
  }

  datatype Coerced = Hold(value: FieldValue) | Clear | Reject

  function CoerceNumber(n: Option<int>): Coerced {
    if n.Some? && 0 < n.value <= MAX_SAFE then Hold(Amount(n.value)) else Reject
  }

  /** An input made its field's type, a clearing of the field, or a refusal. */
  function Coerce(fields: map<string, Field>, name: string, input: Input): Coerced {
    if name !in fields then Reject
    else if input.Nothing? || (input.Chars? && input.s == "") then Clear
    else match fields[name].kind
      case AmountField =>
        if input.Chars? then CoerceNumber(input.number) else if input.Number? then CoerceNumber(input.n) else Reject
      case TextField =>
        if input.Chars?
        then Hold(Words(Take16(input.s, if fields[name].maxLength.Some? && fields[name].maxLength.value >= 0 then fields[name].maxLength.value else 140)))
        else Reject
      case FriendField => if input.Person? && IsRecipient(input.person) then Hold(Friend(Lowered(input.person))) else Reject
      case FriendsField =>
        if input.People? && forall r | r in input.people :: IsRecipient(r)
        then Hold(Friends(seq(|input.people|, i requires 0 <= i < |input.people| => Lowered(input.people[i])))) else Reject
      case ItemField => if input.Thing? then Hold(Item(input.item)) else Reject
      case _ => Reject
  }

  predicate HasValue(values: Values, name: string) {
    && name in values
    && match values[name]
       case Words(s) => Trim(s) != ""
       case Amount(n) => n > 0
       case Friends(list) => list != []
       case Messages(list) => list != []
       case Senders(list) => list != []
       case Selection(ids) => ids != []
       case _ => true
  }

  // ----- what a view listens to -----

  predicate IsInput(b: Block, name: string) {
    match b
    case AmountInput(field, _) => field == name
    case TextInput(field, _, _) => field == name
    case FriendPicker(field, _) => field == name
    case ItemPicker(field, _) => field == name
    case _ => false
  }

  predicate TakesInput(view: seq<Block>, name: string) {
    exists b | b in view :: IsInput(b, name)
  }

  /** The list whose checkboxes fill `selection`: the last one that names it. */
  function ListFor(view: seq<Block>, selection: string): (list: Option<string>)
    ensures list.Some? ==> exists b :: b in view && b.List? && b.field == list.value && b.select == Some(selection)
  {
    if view == [] then None
    else
      var last := view[|view| - 1];
      if last.List? && last.select == Some(selection) then Some(last.field) else ListFor(view[..|view| - 1], selection)
  }

  /** The list whose rows send `event` when opened: the last one that does. */
  function OpensOn(view: seq<Block>, event: string): (r: Option<(string, string)>)
    ensures r.Some? ==> exists b :: b in view && b.List? && b.open == Some(Open(event, r.value.0)) && b.field == r.value.1
  {
    if view == [] then None
    else
      var last := view[|view| - 1];
      if last.List? && last.open.Some? && last.open.value.event == event then Some((last.open.value.field, last.field))
      else OpensOn(view[..|view| - 1], event)
  }

  /** The keys of a list's rows: message ids, senders' identity keys. */
  function RowKeys(v: FieldValue): (keys: seq<string>)
    ensures v.Messages? ==> |keys| == |v.messages|
    ensures v.Senders? ==> |keys| == |v.senders|
  {
    match v
    case Messages(list) => seq(|list|, i requires 0 <= i < |list| => list[i].id)
    case Senders(list) => seq(|list|, i requires 0 <= i < |list| => list[i].identityKey)
    case _ => []
  }

  function IndexOf(keys: seq<string>, key: string): (i: nat)
    ensures i <= |keys| && (i < |keys| <==> key in keys)
    ensures i < |keys| ==> keys[i] == key && key !in keys[..i]
  {
    if keys == [] || keys[0] == key then 0
    else
      var i := IndexOf(keys[1..], key);
      assert i < |keys[1..]| ==> keys[..i + 1] == [keys[0]] + keys[1..][..i];
      i + 1
  }

  predicate IsRows(v: FieldValue) {
    v.Messages? || v.Senders?
  }

  /** The row as a field holds it. */
  function RowAt(v: FieldValue, i: nat): FieldValue
    requires IsRows(v) && i < |RowKeys(v)|
  {
    if v.Messages? then Message(v.messages[i]) else Sender(v.senders[i])
  }

  function Without(ids: seq<string>, id: string): (rest: seq<string>)
    ensures forall x :: x in rest <==> x in ids && x != id
    ensures id !in ids ==> rest == ids
  {
    if ids == [] then [] else
      var rest := Without(ids[1..], id);
      if ids[0] == id then rest else [ids[0]] + rest
  }

  lemma {:induction false} WithoutNoDup(ids: seq<string>, id: string)
    requires NoDup(ids)
    ensures NoDup(Without(ids, id))
  {
    if ids != [] {
      WithoutNoDup(ids[1..], id);
      assert ids[0] !in ids[1..];
    }
  }

  function Toggled(ids: seq<string>, id: string): seq<string> {
    if id in ids then Without(ids, id) else ids + [id]
  }

  function Assigned(values: Values, assign: map<string, Literal>): Values {
    values + map f | f in assign :: (match assign[f] case Number(n) => Amount(n) case Chars(s) => Words(s))
  }

  // ----- results -----

  function ClearSelections(fields: map<string, Field>, values: Values): Values {
    map f | f in values && !(f in fields && fields[f].kind.SelectionField?) :: values[f]
  }

  function Kept(messages: seq<BoxMessage>, gone: seq<BoxMessage>): (kept: seq<BoxMessage>)
    ensures forall m :: m in kept <==> m in messages && m.id !in IdsOf(gone)
  {
    if messages == [] then []
    else if messages[0].id in IdsOf(gone) then Kept(messages[1..], gone)
    else [messages[0]] + Kept(messages[1..], gone)
  }

  function DropMessages(fields: map<string, Field>, values: Values, gone: seq<BoxMessage>): Values {
    map f | f in values ::
      if f in fields && fields[f].kind.MessagesField? && values[f].Messages? then Messages(Kept(values[f].messages, gone)) else values[f]
  }

  /** What an effect's answer makes of the values. */
  function ApplyResult(fields: map<string, Field>, effect: Effect, values: Values, result: EffectResult, ran: ResolvedEffect): Values {
    if effect.ListMessages? && result.ListedMessages? then
      var listed := values[effect.result := Messages(result.messages)];
      ClearSelections(fields, if effect.blocked.Some? then listed[effect.blocked.value := Senders(result.blocked)] else listed)
    else if effect.SignMessage? && result.Signed? then
      values[effect.result := Signature(result.identityKey, result.signature, result.message)]
    else if effect.Fetch? && result.FetchedText? then values[effect.result := Fetched(result.url, result.status, result.text)]
    else if ran.Acknowledge? || ran.Delete? then ClearSelections(fields, DropMessages(fields, values, ran.messages))
    else values
  }

  // ----- steps -----

  function Resolved(p: Program, effect: Effect, values: Values): Resolution {
    Resolve(effect, p.chart.id, values, ListFields(p.chart.fields, p.order), p.network)
  }

  /** Entering a state; an effect that cannot be resolved goes on to `onError`, and round and round if that leads back. */
  function Enter(p: Program, s: string, values: Values, pending: Option<Pending>, error: Option<string>, passed: set<string>): Outcome
    decreases p.chart.states.Keys - passed
  {
    if s !in p.chart.states then Stuck
    else match p.chart.states[s]
      case ViewState(_, _, final) => At(Config(s, if final then Ended else Viewing, values, pending, error), None)
      case EffectState(effect, _, onError, _) =>
        if effect !in p.chart.effects then Stuck
        else match Resolved(p, p.chart.effects[effect], values)
          case Wrong => Stuck
          case Refused(why) =>
            if s in passed then Loops
            else
              assert s in p.chart.states.Keys - passed && s !in p.chart.states.Keys - (passed + {s});
              Enter(p, onError, values, None, Some(why), passed + {s})
          case Ready(e) =>
            if NeedsApproval(p.chart.effects[effect])
            then At(Config(s, Approving, values, Some(Pending(e, Some(ApprovalFor(e, p.chart.name)))), None), None)
            else At(Config(s, Running, values, Some(Pending(e, None)), None), Some(e))
  }

  function Begin(p: Program): Outcome {
    Enter(p, p.chart.initial, map[], None, None, {})
  }

  function Stay(c: Config): Outcome {
    At(c, None)
  }

  function HandleSet(p: Program, c: Config, view: seq<Block>, name: string, input: Input): Outcome {
    if !TakesInput(view, name) then Stay(c)
    else match Coerce(p.chart.fields, name, input)
      case Reject => Stay(c)
      case Clear => At(c.(values := c.values - {name}, error := None), None)
      case Hold(v) => At(c.(values := c.values[name := v], error := None), None)
  }

  function HandleToggle(c: Config, view: seq<Block>, name: string, id: string): Outcome {
    match ListFor(view, name)
    case None => Stay(c)
    case Some(list) =>
      if list !in c.values then Stay(c)
      else if !IsRows(c.values[list]) || (name in c.values && !c.values[name].Selection?) then Stuck
      else if id !in RowKeys(c.values[list]) then Stay(c)
      else At(c.(values := c.values[name := Selection(Toggled(if name in c.values then c.values[name].ids else [], id))]), None)
  }

  /** Whether a transition is taken, and the values it is taken with. */
  datatype Firing = Ignored | Broken | Taken(values: Values)

  function Fired(c: Config, view: seq<Block>, t: Transition, event: string, row: Option<string>): Firing {
    var values := Assigned(c.values, t.assign);
    var ready := forall f | f in t.needs :: HasValue(c.values, f);
    match OpensOn(view, event)
    case None => if ready then Taken(values) else Ignored
    case Some((into, list)) =>
      if row.None? || list !in c.values then Ignored
      else if !IsRows(c.values[list]) then Broken
      else if row.value !in RowKeys(c.values[list]) || !ready then Ignored
      else Taken(values[into := RowAt(c.values[list], IndexOf(RowKeys(c.values[list]), row.value))])
  }

  function HandleFire(p: Program, c: Config, view: seq<Block>, t: Transition, event: string, row: Option<string>): Outcome {
    match Fired(c, view, t, event, row)
    case Ignored => Stay(c)
    case Broken => Stuck
    case Taken(values) => Enter(p, t.target, values, c.pending, None, {})
  }

  /** One event. */
  function Handle(p: Program, c: Config, event: Event): Outcome {
    if c.state !in p.chart.states then Stuck
    else match p.chart.states[c.state]
      case EffectState(effect, onDone, onError, onDecline) =>
        if c.step.Approving? && event.Approve? then
          (if c.pending.None? then Stuck else At(c.(step := Running), Some(c.pending.value.effect)))
        else if c.step.Approving? && event.Decline? then
          Enter(p, if onDecline.Some? then onDecline.value else onError, c.values, c.pending, c.error, {})
        else if c.step.Running? && event.Done? then
          (if c.pending.None? || effect !in p.chart.effects then Stuck
           else Enter(p, onDone, ApplyResult(p.chart.fields, p.chart.effects[effect], c.values, event.result, c.pending.value.effect), c.pending, None, {}))
        else if c.step.Running? && event.Failed? then Enter(p, onError, c.values, c.pending, Some(event.why), {})
        else Stay(c)
      case ViewState(view, on, final) =>
        if !c.step.Viewing? then Stay(c)
        else match event
          case SetField(name, input) => HandleSet(p, c, view, name, input)
          case Toggle(name, id) => HandleToggle(c, view, name, id)
          case Fire(name, row) => if name in on then HandleFire(p, c, view, on[name], name, row) else Stay(c)
          case _ => Stay(c)
  }
}
