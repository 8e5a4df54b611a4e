/**
 * A chart that fits never goes wrong (src/apps/chartRunner.ts): every held
 * value has its field's type, every text renders, only approved effects run,
 * and selections never name a row that is not there.
 */
module ChartSoundness {
  import opened Prelude
  import opened ChartTypes
  import opened ChartFormat
  import opened ChartEffects
  import opened ChartRules
  import opened ChartRunner

  // ----- what every reachable configuration keeps -----

  /** A value of its field's type: amounts positive safe integers, texts at most 500 long, people with real keys. */
  predicate HasType(field: Field, v: FieldValue) {
    && ShapeOf(field.kind, v)
    && match v
       case Amount(n) => 0 < n <= MAX_SAFE
       case Words(s) => Length16(s) <= MAX_TEXT
       case Friend(r) => IsIdentityKey(r.identityKey)
       case Friends(list) => forall r | r in list :: IsIdentityKey(r.identityKey)
       case _ => true
  }

  ghost predicate Typed(fields: map<string, Field>, values: Values) {
    forall f {:trigger f in values} :: f in values ==> f in fields && HasType(fields[f], values[f])
  }

  /** Some list on hand has a row with this key. */
  ghost predicate NamesRow(values: Values, id: string) {
    exists list :: list in values && IsRows(values[list]) && id in RowKeys(values[list])
  }

  ghost predicate SelectionOk(values: Values, ids: seq<string>) {
    NoDup(ids) && forall id :: id in ids ==> NamesRow(values, id)
  }

  ghost predicate SelectionsOk(values: Values) {
    forall f {:trigger f in values} :: f in values && values[f].Selection? ==> SelectionOk(values, values[f].ids)
  }

  /** The pending effect is the state's own effect as the held values resolve it, with the copy that shows it. */
  ghost predicate PendingOk(p: Program, c: Config, effect: Effect) {
    && c.pending.Some?
    && Resolved(p, effect, c.values) == Ready(c.pending.value.effect)
    && c.pending.value.approval == if NeedsApproval(effect) then Some(ApprovalFor(c.pending.value.effect, p.chart.name)) else None
  }

  ghost predicate PlaceOk(p: Program, c: Config) {
    && c.state in p.chart.states
    && match p.chart.states[c.state]
       case ViewState(_, _, final) => c.step == if final then Ended else Viewing
       case EffectState(effect, _, _, _) =>
         && (c.step.Approving? || c.step.Running?) && effect in p.chart.effects
         && PendingOk(p, c, p.chart.effects[effect])
         && (c.step.Approving? ==> NeedsApproval(p.chart.effects[effect]))
  }

  ghost predicate Inv(p: Program, c: Config) {
    PlaceOk(p, c) && Typed(p.chart.fields, c.values) && SelectionsOk(c.values)
  }

  ghost predicate Good(p: Program, o: Outcome) {
    o.Loops? || (o.At? && Inv(p, o.config))
  }

  // ----- resolving -----

  lemma {:induction false} ReadsTyped(fields: map<string, Field>, values: Values, f: string, kinds: set<FieldType>)
    requires Typed(fields, values) && FieldIs(fields, f, kinds)
    ensures ReadsAs(values, f, kinds)
  {
  }

  /** A fitting effect never reads what is not there. */
  lemma {:induction false} ResolveNotWrong(p: Program, e: Effect, values: Values)
    requires EffectFits(p.chart.fields, e) && Typed(p.chart.fields, values)
    ensures !Resolved(p, e, values).Wrong?
  {
    var fields := p.chart.fields;
    match e
    case RequestPayment(_, _, from, amount, split, _) =>
      ReadsTyped(fields, values, amount, {AmountField});
      ReadsTyped(fields, values, from, {FriendField, FriendsField});
      if split.Some? { ReadsTyped(fields, values, split.value.countOf, {FriendsField}); }
    case SendPayment(_, _, to, amount, _, _) =>
      ReadsTyped(fields, values, amount, {AmountField});
      ReadsTyped(fields, values, to, {FriendField});
    case SendItem(_, _, to, item) =>
      ReadsTyped(fields, values, to, {FriendField});
      ReadsTyped(fields, values, item, {ItemField});
    case SignMessage(message, _) => ReadsTyped(fields, values, message, {TextField});
    case Fetch(_, _) =>
    case ListMessages(_, _, _) =>
    case AcknowledgeMessages(messages) => ReadsTyped(fields, values, messages, {SelectionField, MessageField});
    case DeleteMessages(messages) => ReadsTyped(fields, values, messages, {SelectionField, MessageField});
    case BlockSender(sender) => ReadsTyped(fields, values, sender, {MessageField, SenderField});
    case UnblockSender(sender) => ReadsTyped(fields, values, sender, {MessageField, SenderField});
  }

  lemma {:induction false} LandedGood(p: Program, s: string, values: Values, pending: Option<Pending>, error: Option<string>, passed: set<string>)
    requires s in p.chart.states && Typed(p.chart.fields, values) && SelectionsOk(values)
    requires p.chart.states[s].EffectState? && p.chart.states[s].effect in p.chart.effects
    requires Resolved(p, p.chart.effects[p.chart.states[s].effect], values).Ready?
    ensures Good(p, Enter(p, s, values, pending, error, passed))
  {
    var effect := p.chart.effects[p.chart.states[s].effect];
    var c := Enter(p, s, values, pending, error, passed).config;
    assert c.state == s && c.values == values;
    assert PendingOk(p, c, effect);
  }

  lemma {:induction false} EnterGood(p: Program, s: string, values: Values, pending: Option<Pending>, error: Option<string>, passed: set<string>)
    requires Fits(p.chart) && s in p.chart.states && Typed(p.chart.fields, values) && SelectionsOk(values)
    ensures Good(p, Enter(p, s, values, pending, error, passed))
    decreases p.chart.states.Keys - passed
  {
    assert StateFits(p.chart.fields, p.chart.effects, p.chart.states.Keys, p.chart.states[s]);
    if p.chart.states[s].EffectState? {
      var effect := p.chart.effects[p.chart.states[s].effect];
      assert EffectFits(p.chart.fields, effect);
      ResolveNotWrong(p, effect, values);
      match Resolved(p, effect, values)
      case Ready(_) => LandedGood(p, s, values, pending, error, passed);
      case Refused(why) =>
        if s !in passed {
          assert s in p.chart.states.Keys - passed && s !in p.chart.states.Keys - (passed + {s});
          EnterGood(p, p.chart.states[s].onError, values, None, Some(why), passed + {s});
          EnterRefused(p, s, values, pending, error, passed);
        }
    }
  }

  lemma {:induction false} EnterRefused(p: Program, s: string, values: Values, pending: Option<Pending>, error: Option<string>, passed: set<string>)
    requires s in p.chart.states && p.chart.states[s].EffectState? && p.chart.states[s].effect in p.chart.effects && s !in passed
    requires Resolved(p, p.chart.effects[p.chart.states[s].effect], values).Refused?
    ensures Enter(p, s, values, pending, error, passed)
            == Enter(p, p.chart.states[s].onError, values, None, Some(Resolved(p, p.chart.effects[p.chart.states[s].effect], values).why), passed + {s})
  {
  }

  // ----- values -----

  lemma {:induction false} CoercedHasType(fields: map<string, Field>, name: string, input: Input)
    requires name in fields && (fields[name].maxLength.Some? ==> 1 <= fields[name].maxLength.value <= MAX_TEXT)
    requires Coerce(fields, name, input).Hold?
    ensures HasType(fields[name], Coerce(fields, name, input).value)
  {
    if fields[name].kind.FriendsField? {
      var list := Coerce(fields, name, input).value.friends;
      forall r | r in list ensures IsIdentityKey(r.identityKey) {
        var i :| 0 <= i < |list| && list[i] == r;
        assert IsRecipient(input.people[i]) && r == Lowered(input.people[i]);
      }
    }
  }

  /** Setting a field that is neither a list nor a selection leaves every selection as it was. */
  lemma {:induction false} SetKeepsSelections(values: Values, f: string, v: FieldValue)
    requires SelectionsOk(values) && !IsRows(v) && !v.Selection?
    requires f in values ==> !IsRows(values[f])
    ensures SelectionsOk(values[f := v])
  {
    var after := values[f := v];
    forall g | g in after && after[g].Selection? ensures SelectionOk(after, after[g].ids) {
      RowsStay(values, after, after[g].ids);
    }
  }

  lemma {:induction false} RowsStay(values: Values, after: Values, ids: seq<string>)
    requires SelectionOk(values, ids)
    requires forall list :: list in values && IsRows(values[list]) ==> list in after && after[list] == values[list]
    ensures SelectionOk(after, ids)
  {
    forall id | id in ids ensures NamesRow(after, id) {
      assert NamesRow(values, id);
      var list :| list in values && IsRows(values[list]) && id in RowKeys(values[list]);
      assert list in after;
    }
  }

  lemma {:induction false} ClearKeepsSelections(values: Values, f: string)
    requires SelectionsOk(values) && (f in values ==> !IsRows(values[f]))
    ensures SelectionsOk(values - {f})
  {
    var after := values - {f};
    forall g | g in after && after[g].Selection? ensures SelectionOk(after, after[g].ids) {
      RowsStay(values, after, after[g].ids);
    }
  }

  lemma {:induction false} AssignSparesLists(p: Program, values: Values, t: Transition)
    requires TransitionFits(p.chart.fields, p.chart.states.Keys, t) && Typed(p.chart.fields, values)
    ensures forall f :: f in values && f in t.assign ==> !IsRows(values[f])
  {
    forall f | f in values && f in t.assign ensures !IsRows(values[f]) {
      assert LiteralFits(p.chart.fields, f, t.assign[f]);
    }
  }

  lemma {:induction false} AssignKeeps(p: Program, values: Values, t: Transition)
    requires TransitionFits(p.chart.fields, p.chart.states.Keys, t) && Typed(p.chart.fields, values) && SelectionsOk(values)
    ensures Typed(p.chart.fields, Assigned(values, t.assign)) && SelectionsOk(Assigned(values, t.assign))
  {
    var after := Assigned(values, t.assign);
    AssignSparesLists(p, values, t);
    forall f | f in after ensures f in p.chart.fields && HasType(p.chart.fields[f], after[f]) {
      if f in t.assign { assert LiteralFits(p.chart.fields, f, t.assign[f]); }
    }
    forall g | g in after && after[g].Selection? ensures SelectionOk(after, after[g].ids) {
      assert g !in t.assign;
      RowsStay(values, after, after[g].ids);
    }
  }

  lemma {:induction false} ToggleKeeps(values: Values, name: string, list: string, id: string)
    requires SelectionsOk(values) && list in values && IsRows(values[list]) && id in RowKeys(values[list])
    requires name in values ==> values[name].Selection?
    ensures var ids := if name in values then values[name].ids else [];
            SelectionsOk(values[name := Selection(Toggled(ids, id))])
  {
    var ids := if name in values then values[name].ids else [];
    var after := values[name := Selection(Toggled(ids, id))];
    assert NamesRow(values, id);
    assert SelectionOk(values, ids);
    if id in ids { WithoutNoDup(ids, id); }
    assert SelectionOk(values, Toggled(ids, id));
    forall g | g in after && after[g].Selection? ensures SelectionOk(after, after[g].ids) {
      RowsStay(values, after, after[g].ids);
    }
  }

  lemma {:induction false} ClearedSelectionsOk(fields: map<string, Field>, values: Values)
    requires Typed(fields, values)
    ensures Typed(fields, ClearSelections(fields, values)) && SelectionsOk(ClearSelections(fields, values))
  {
  }

  /** Neither a list of rows nor a selection of them. */
  predicate IsPlain(kind: FieldType) {
    !kind.MessagesField? && !kind.SendersField? && !kind.SelectionField?
  }

  lemma {:induction false} HoldKeeps(fields: map<string, Field>, values: Values, f: string, v: FieldValue)
    requires Typed(fields, values) && SelectionsOk(values)
    requires f in fields && IsPlain(fields[f].kind) && HasType(fields[f], v)
    ensures Typed(fields, values[f := v]) && SelectionsOk(values[f := v])
  {
    SetKeepsSelections(values, f, v);
  }

  lemma {:induction false} ListedKeeps(fields: map<string, Field>, values: Values, effect: Effect, result: EffectResult)
    requires effect.ListMessages? && EffectFits(fields, effect) && Typed(fields, values) && result.ListedMessages?
    ensures var listed := values[effect.result := Messages(result.messages)];
            Typed(fields, if effect.blocked.Some? then listed[effect.blocked.value := Senders(result.blocked)] else listed)
  {
  }

  lemma {:induction false} DropKeepsTypes(fields: map<string, Field>, values: Values, gone: seq<BoxMessage>)
    requires Typed(fields, values)
    ensures Typed(fields, DropMessages(fields, values, gone))
  {
  }

  lemma {:induction false} ResultKeeps(p: Program, effect: Effect, values: Values, result: EffectResult, ran: ResolvedEffect)
    requires EffectFits(p.chart.fields, effect) && Typed(p.chart.fields, values) && SelectionsOk(values)
    ensures Typed(p.chart.fields, ApplyResult(p.chart.fields, effect, values, result, ran))
    ensures SelectionsOk(ApplyResult(p.chart.fields, effect, values, result, ran))
  {
    var fields := p.chart.fields;
    if effect.ListMessages? && result.ListedMessages? {
      var listed := values[effect.result := Messages(result.messages)];
      ListedKeeps(fields, values, effect, result);
      ClearedSelectionsOk(fields, if effect.blocked.Some? then listed[effect.blocked.value := Senders(result.blocked)] else listed);
    } else if effect.SignMessage? && result.Signed? {
      HoldKeeps(fields, values, effect.result, Signature(result.identityKey, result.signature, result.message));
    } else if effect.Fetch? && result.FetchedText? {
      HoldKeeps(fields, values, effect.result, Fetched(result.url, result.status, result.text));
    } else if ran.Acknowledge? || ran.Delete? {
      DropKeepsTypes(fields, values, ran.messages);
      ClearedSelectionsOk(fields, DropMessages(fields, values, ran.messages));
    }
  }

  // ----- steps -----

  ghost predicate InView(p: Program, c: Config, view: seq<Block>) {
    && Inv(p, c) && p.chart.states[c.state].ViewState? && view == p.chart.states[c.state].view
  }

  lemma {:induction false} ViewStays(p: Program, c: Config, values: Values, error: Option<string>)
    requires Inv(p, c) && p.chart.states[c.state].ViewState?
    requires Typed(p.chart.fields, values) && SelectionsOk(values)
    ensures Inv(p, Config(c.state, c.step, values, c.pending, error))
  {
  }

  lemma {:induction false} ViewBlocksFit(p: Program, s: string, view: seq<Block>)
    requires Fits(p.chart) && s in p.chart.states && p.chart.states[s].ViewState? && view == p.chart.states[s].view
    ensures forall b :: b in view ==> BlockFits(p.chart.fields, b)
  {
    assert StateFits(p.chart.fields, p.chart.effects, p.chart.states.Keys, p.chart.states[s]);
  }

  lemma {:induction false} InputIsPlain(fields: map<string, Field>, view: seq<Block>, name: string)
    requires TakesInput(view, name) && forall b :: b in view ==> BlockFits(fields, b)
    ensures name in fields && IsPlain(fields[name].kind)
  {
    var b :| b in view && IsInput(b, name);
    assert BlockFits(fields, b);
  }

  lemma {:induction false} TicksAreSelections(fields: map<string, Field>, view: seq<Block>, name: string)
    requires ListFor(view, name).Some? && forall b :: b in view ==> BlockFits(fields, b)
    ensures FieldIs(fields, name, {SelectionField}) && FieldIs(fields, ListFor(view, name).value, {MessagesField, SendersField})
  {
    var b :| b in view && b.List? && b.field == ListFor(view, name).value && b.select == Some(name);
    assert BlockFits(fields, b);
  }

  lemma {:induction false} OpenedFits(fields: map<string, Field>, view: seq<Block>, event: string)
    requires OpensOn(view, event).Some? && forall b :: b in view ==> BlockFits(fields, b)
    ensures var (target, list) := OpensOn(view, event).value;
            && FieldIs(fields, list, {MessagesField, SendersField})
            && FieldIs(fields, target, {if fields[list].kind.SendersField? then SenderField else MessageField})
  {
    var (target, list) := OpensOn(view, event).value;
    var b :| b in view && b.List? && b.open == Some(Open(event, target)) && b.field == list;
    assert BlockFits(fields, b);
  }

  lemma {:induction false} SetGood(p: Program, c: Config, view: seq<Block>, name: string, input: Input)
    requires Fits(p.chart) && InView(p, c, view)
    ensures Good(p, HandleSet(p, c, view, name, input))
  {
    ViewBlocksFit(p, c.state, view);
    if TakesInput(view, name) {
      InputIsPlain(p.chart.fields, view, name);
      match Coerce(p.chart.fields, name, input)
      case Reject =>
      case Clear =>
        ClearKeepsSelections(c.values, name);
        ViewStays(p, c, c.values - {name}, None);
      case Hold(v) =>
        CoercedHasType(p.chart.fields, name, input);
        HoldKeeps(p.chart.fields, c.values, name, v);
        ViewStays(p, c, c.values[name := v], None);
    }
  }

  lemma {:induction false} ToggleGood(p: Program, c: Config, view: seq<Block>, name: string, id: string)
    requires Fits(p.chart) && InView(p, c, view)
    ensures Good(p, HandleToggle(c, view, name, id))
  {
    ViewBlocksFit(p, c.state, view);
    var list := ListFor(view, name);
    if list.Some? {
      TicksAreSelections(p.chart.fields, view, name);
      if list.value in c.values {
        assert IsRows(c.values[list.value]) && (name in c.values ==> c.values[name].Selection?);
        if id in RowKeys(c.values[list.value]) {
          ToggleKeeps(c.values, name, list.value, id);
          ViewStays(p, c, c.values[name := Selection(Toggled(if name in c.values then c.values[name].ids else [], id))], c.error);
        }
      }
    }
  }

  lemma {:induction false} RowHasType(fields: map<string, Field>, values: Values, list: string, target: string, i: nat)
    requires Typed(fields, values) && list in values && IsRows(values[list]) && i < |RowKeys(values[list])|
    requires FieldIs(fields, list, {MessagesField, SendersField})
    requires FieldIs(fields, target, {if fields[list].kind.SendersField? then SenderField else MessageField})
    ensures HasType(fields[target], RowAt(values[list], i)) && IsPlain(fields[target].kind)
  {
  }

  lemma {:induction false} FiredKeeps(p: Program, c: Config, view: seq<Block>, t: Transition, event: string, row: Option<string>)
    requires (forall b :: b in view ==> BlockFits(p.chart.fields, b)) && TransitionFits(p.chart.fields, p.chart.states.Keys, t)
    requires Typed(p.chart.fields, c.values) && SelectionsOk(c.values)
    ensures var f := Fired(c, view, t, event, row);
            !f.Broken? && (f.Taken? ==> Typed(p.chart.fields, f.values) && SelectionsOk(f.values))
  {
    var fields := p.chart.fields;
    var values := Assigned(c.values, t.assign);
    AssignKeeps(p, c.values, t);
    match OpensOn(view, event)
    case None =>
    case Some((target, list)) =>
      OpenedFits(fields, view, event);
      if list in c.values {
        assert IsRows(c.values[list]);
        if row.Some? && row.value in RowKeys(c.values[list]) {
          var i := IndexOf(RowKeys(c.values[list]), row.value);
          RowHasType(fields, c.values, list, target, i);
          HoldKeeps(fields, values, target, RowAt(c.values[list], i));
        }
      }
  }

  lemma {:induction false} FireGood(p: Program, c: Config, view: seq<Block>, t: Transition, event: string, row: Option<string>)
    requires Fits(p.chart) && InView(p, c, view) && TransitionFits(p.chart.fields, p.chart.states.Keys, t)
    ensures Good(p, HandleFire(p, c, view, t, event, row))
  {
    ViewBlocksFit(p, c.state, view);
    FiredKeeps(p, c, view, t, event, row);
    match Fired(c, view, t, event, row)
    case Taken(values) => EnterGood(p, t.target, values, c.pending, None, {});
    case _ =>
  }

  lemma {:induction false} EffectStateGood(p: Program, c: Config, event: Event)
    requires Fits(p.chart) && Inv(p, c) && p.chart.states[c.state].EffectState?
    ensures Good(p, Handle(p, c, event))
  {
    var s := p.chart.states[c.state];
    assert StateFits(p.chart.fields, p.chart.effects, p.chart.states.Keys, s);
    if c.step.Approving? && event.Decline? {
      EnterGood(p, s.onDecline.value, c.values, c.pending, c.error, {});
    } else if c.step.Running? && event.Done? {
      var effect := p.chart.effects[s.effect];
      assert EffectFits(p.chart.fields, effect);
      ResultKeeps(p, effect, c.values, event.result, c.pending.value.effect);
      EnterGood(p, s.onDone, ApplyResult(p.chart.fields, effect, c.values, event.result, c.pending.value.effect), c.pending, None, {});
    } else if c.step.Running? && event.Failed? {
      EnterGood(p, s.onError, c.values, c.pending, Some(event.why), {});
    }
  }

  /** No event ever gets stuck: what it leads to is again a configuration in which everything is in place. */
  lemma {:induction false} HandleGood(p: Program, c: Config, event: Event)
    requires Fits(p.chart) && Inv(p, c)
    ensures Good(p, Handle(p, c, event))
  {
    match p.chart.states[c.state]
    case EffectState(_, _, _, _) => EffectStateGood(p, c, event);
    case ViewState(view, on, _) =>
      assert StateFits(p.chart.fields, p.chart.effects, p.chart.states.Keys, p.chart.states[c.state]);
      match event
      case SetField(name, input) => SetGood(p, c, view, name, input);
      case Toggle(name, id) => ToggleGood(p, c, view, name, id);
      case Fire(name, row) => if name in on { FireGood(p, c, view, on[name], name, row); }
      case _ =>
  }

  // ----- runs -----

  /** One event between each configuration and the next, under any rule for what an event does. */
  ghost predicate Along(step: (Config, Event) -> Outcome, trace: seq<Config>, events: seq<Event>, rans: seq<Option<ResolvedEffect>>) {
    && |trace| == |rans| == |events| + 1
    && forall i {:trigger events[i]} :: 0 <= i < |events| ==> step(trace[i], events[i]) == At(trace[i + 1], rans[i + 1])
  }

  lemma {:induction false} AlongKeeps(step: (Config, Event) -> Outcome, holds: Config -> bool,
                                      trace: seq<Config>, events: seq<Event>, rans: seq<Option<ResolvedEffect>>, k: nat)
    requires Along(step, trace, events, rans) && k < |trace| && holds(trace[0])
    requires forall c, e :: holds(c) && step(c, e).At? ==> holds(step(c, e).config)
    ensures holds(trace[k])
  {
    if k > 0 {
      AlongKeeps(step, holds, trace, events, rans, k - 1);
      assert step(trace[k - 1], events[k - 1]) == At(trace[k], rans[k]);
    }
  }

  /** A run: from the beginning, the configurations passed through and the effects handed over on the way. */
  ghost predicate Run(p: Program, trace: seq<Config>, events: seq<Event>, rans: seq<Option<ResolvedEffect>>) {
    && Along((c, e) => Handle(p, c, e), trace, events, rans)
    && Begin(p) == At(trace[0], rans[0])
  }

  lemma {:induction false} BeginGood(p: Program)
    requires Fits(p.chart)
    ensures Good(p, Begin(p))
  {
    EnterGood(p, p.chart.initial, map[], None, None, {});
  }

  lemma {:induction false} EveryStepGood(p: Program)
    requires Fits(p.chart)
    ensures forall c, e :: Inv(p, c) ==> Good(p, Handle(p, c, e))
  {
    forall c, e | Inv(p, c) ensures Good(p, Handle(p, c, e)) { HandleGood(p, c, e); }
  }

  /** Checker soundness: in every configuration a fitting chart reaches, everything is in place. */
  lemma {:induction false} ReachedIsSound(p: Program, trace: seq<Config>, events: seq<Event>, rans: seq<Option<ResolvedEffect>>, k: nat)
    requires Fits(p.chart) && Run(p, trace, events, rans) && k < |trace|
    ensures Inv(p, trace[k])
  {
    BeginGood(p);
    EveryStepGood(p);
    AlongKeeps((c, e) => Handle(p, c, e), c => Inv(p, c), trace, events, rans, k);
  }

  /** Nothing a fitting chart is sent, in whatever order, leaves it stuck. */
  lemma {:induction false} NeverStuck(p: Program, trace: seq<Config>, events: seq<Event>, rans: seq<Option<ResolvedEffect>>, event: Event)
    requires Fits(p.chart) && Run(p, trace, events, rans)
    ensures !Begin(p).Stuck? && !Handle(p, trace[|trace| - 1], event).Stuck?
  {
    EnterGood(p, p.chart.initial, map[], None, None, {});
    ReachedIsSound(p, trace, events, rans, |trace| - 1);
    HandleGood(p, trace[|trace| - 1], event);
  }

  predicate ShowsIn(chart: ChartApp, state: string, b: Block) {
    state in chart.states && chart.states[state].ViewState? && b in chart.states[state].view
  }

  /** Every text of every block in view renders. */
  lemma {:induction false} ViewsRender(p: Program, trace: seq<Config>, events: seq<Event>, rans: seq<Option<ResolvedEffect>>, k: nat, b: Block, text: string, time: TimeFormat)
    requires Fits(p.chart) && Run(p, trace, events, rans) && k < |trace|
    requires ShowsIn(p.chart, trace[k].state, b) && text in TextsOf(b)
    ensures Interpolate(p.chart.fields, trace[k].values, text, time).Some?
  {
    ReachedIsSound(p, trace, events, rans, k);
    ViewBlocksFit(p, trace[k].state, p.chart.states[trace[k].state].view);
    assert BlockFits(p.chart.fields, b);
    FilledRenders(p.chart.fields, trace[k].values, Pieces(text, 0), time);
  }

  // ----- approved is what runs -----

  lemma {:induction false} EntryRunsFreely(p: Program, s: string, values: Values, pending: Option<Pending>, error: Option<string>, passed: set<string>)
    ensures var o := Enter(p, s, values, pending, error, passed);
            && (o.At? && o.ran.Some? ==> !Guarded(o.ran.value) && o.config.step.Running?)
            && (o.At? && o.ran.None? ==> !o.config.step.Running?)
    decreases p.chart.states.Keys - passed
  {
    if s in p.chart.states && p.chart.states[s].EffectState? && p.chart.states[s].effect in p.chart.effects {
      var effect := p.chart.effects[p.chart.states[s].effect];
      var r := Resolved(p, effect, values);
      if r.Refused? && s !in passed {
        assert s in p.chart.states.Keys - passed && s !in p.chart.states.Keys - (passed + {s});
        EntryRunsFreely(p, p.chart.states[s].onError, values, None, Some(r.why), passed + {s});
      }
      if r.Ready? {
        GuardedIffApproved(effect, p.chart.id, values, ListFields(p.chart.fields, p.order), p.network);
      }
    }
  }

  lemma {:induction false} FireRunsFreely(p: Program, c: Config, view: seq<Block>, t: Transition, event: string, row: Option<string>)
    requires !c.step.Running?
    ensures var o := HandleFire(p, c, view, t, event, row);
            && (o.At? && o.ran.Some? ==> !Guarded(o.ran.value) && o.config.step.Running?)
            && (o.At? && o.ran.None? ==> !o.config.step.Running?)
  {
    match Fired(c, view, t, event, row)
    case Taken(values) => EntryRunsFreely(p, t.target, values, c.pending, None, {});
    case _ =>
  }

  /** What one step may hand to the wallet: a guarded effect only as the approved one, and nothing twice. */
  ghost predicate RunsRight(c: Config, event: Event, o: Outcome) {
    o.At? ==>
      && (o.ran.Some? && Guarded(o.ran.value) ==>
            && event.Approve? && c.step.Approving? && o.config == c.(step := Running)
            && c.pending.Some? && c.pending.value.effect == o.ran.value)
      && (o.ran.Some? ==> o.config.step.Running?)
      && (c.step.Running? && !event.Done? && !event.Failed? ==> o == At(c, None))
  }

  lemma {:induction false} StepRunsRight(p: Program, c: Config, event: Event)
    requires Inv(p, c)
    ensures RunsRight(c, event, Handle(p, c, event))
  {
    match p.chart.states[c.state]
    case EffectState(effect, onDone, onError, onDecline) =>
      if c.step.Approving? {
        EntryRunsFreely(p, if onDecline.Some? then onDecline.value else onError, c.values, c.pending, c.error, {});
      } else if event.Done? {
        EntryRunsFreely(p, onDone, ApplyResult(p.chart.fields, p.chart.effects[effect], c.values, event.result, c.pending.value.effect), c.pending, None, {});
      } else if event.Failed? {
        EntryRunsFreely(p, onError, c.values, c.pending, Some(event.why), {});
      }
    case ViewState(view, on, _) =>
      if event.Fire? && event.event in on {
        FireRunsFreely(p, c, view, on[event.event], event.event, event.row);
      }
  }

  lemma {:induction false} EveryStepRunsRight(p: Program)
    ensures forall c, e :: Inv(p, c) ==> RunsRight(c, e, Handle(p, c, e))
  {
    forall c, e | Inv(p, c) ensures RunsRight(c, e, Handle(p, c, e)) { StepRunsRight(p, c, e); }
  }

  lemma {:induction false} AlongRight(step: (Config, Event) -> Outcome, p: Program,
                                      trace: seq<Config>, events: seq<Event>, rans: seq<Option<ResolvedEffect>>, k: nat)
    requires Along(step, trace, events, rans) && k < |events| && Inv(p, trace[k])
    requires forall c, e :: Inv(p, c) ==> RunsRight(c, e, step(c, e))
    ensures RunsRight(trace[k], events[k], At(trace[k + 1], rans[k + 1]))
  {
    assert step(trace[k], events[k]) == At(trace[k + 1], rans[k + 1]);
  }

  lemma {:induction false} RunsRightAt(p: Program, trace: seq<Config>, events: seq<Event>, rans: seq<Option<ResolvedEffect>>, k: nat)
    requires Fits(p.chart) && Run(p, trace, events, rans) && k < |events|
    ensures Inv(p, trace[k]) && RunsRight(trace[k], events[k], At(trace[k + 1], rans[k + 1]))
  {
    ReachedIsSound(p, trace, events, rans, k);
    EveryStepRunsRight(p);
    AlongRight((c, e) => Handle(p, c, e), p, trace, events, rans, k);
  }

  lemma {:induction false} BeginRunsFreely(p: Program, c: Config, ran: Option<ResolvedEffect>)
    requires Begin(p) == At(c, ran)
    ensures ran.Some? ==> !Guarded(ran.value) && c.step.Running?
  {
    EntryRunsFreely(p, p.chart.initial, map[], None, None, {});
  }

  ghost predicate RightAlong(trace: seq<Config>, events: seq<Event>, rans: seq<Option<ResolvedEffect>>) {
    && |trace| == |rans| == |events| + 1
    && (rans[0].Some? ==> !Guarded(rans[0].value) && trace[0].step.Running?)
    && forall k {:trigger events[k]} :: 0 <= k < |events| ==> RunsRight(trace[k], events[k], At(trace[k + 1], rans[k + 1]))
  }

  lemma {:induction false} RunIsRight(p: Program, trace: seq<Config>, events: seq<Event>, rans: seq<Option<ResolvedEffect>>)
    requires Fits(p.chart) && Run(p, trace, events, rans)
    ensures RightAlong(trace, events, rans)
  {
    BeginRunsFreely(p, trace[0], rans[0]);
    forall k | 0 <= k < |events| ensures RunsRight(trace[k], events[k], At(trace[k + 1], rans[k + 1])) {
      RunsRightAt(p, trace, events, rans, k);
    }
  }

  predicate InEffectState(p: Program, c: Config) {
    && c.state in p.chart.states && p.chart.states[c.state].EffectState?
    && p.chart.states[c.state].effect in p.chart.effects
  }

  function EffectAt(p: Program, c: Config): Effect
    requires InEffectState(p, c)
  {
    p.chart.effects[p.chart.states[c.state].effect]
  }

  /** The effect that ran is the one pending in its own effect state, shown by its own copy, as the held values resolve it. */
  ghost predicate RanAsShown(p: Program, before: Config, after: Config, ran: ResolvedEffect) {
    && after == before.(step := Running)
    && before.pending == Some(Pending(ran, Some(ApprovalFor(ran, p.chart.name))))
    && InEffectState(p, after) && NeedsApproval(EffectAt(p, after))
    && Resolved(p, EffectAt(p, after), after.values) == Ready(ran)
  }

  lemma {:induction false} ApprovingIs(p: Program, c: Config, next: Config, ran: ResolvedEffect)
    requires Inv(p, c) && c.step.Approving? && next == c.(step := Running) && c.pending.Some? && c.pending.value.effect == ran
    ensures RanAsShown(p, c, next, ran)
  {
    assert PendingOk(p, c, EffectAt(p, c));
  }

  lemma {:induction false} ApprovedAlong(trace: seq<Config>, events: seq<Event>, rans: seq<Option<ResolvedEffect>>, k: nat)
    requires RightAlong(trace, events, rans) && k < |trace| && rans[k].Some? && Guarded(rans[k].value)
    ensures k > 0 && events[k - 1].Approve? && trace[k - 1].step.Approving? && trace[k] == trace[k - 1].(step := Running)
    ensures trace[k - 1].pending.Some? && trace[k - 1].pending.value.effect == rans[k].value
  {
    assert RunsRight(trace[k - 1], events[k - 1], At(trace[k], rans[k]));
  }

  lemma {:induction false} ShownAlong(p: Program, trace: seq<Config>, events: seq<Event>, rans: seq<Option<ResolvedEffect>>, k: nat)
    requires RightAlong(trace, events, rans) && k < |trace| && rans[k].Some? && Guarded(rans[k].value)
    requires forall i :: 0 <= i < |trace| ==> Inv(p, trace[i])
    ensures k > 0 && events[k - 1].Approve? && trace[k - 1].step.Approving?
    ensures RanAsShown(p, trace[k - 1], trace[k], rans[k].value)
  {
    ApprovedAlong(trace, events, rans, k);
    ApprovingIs(p, trace[k - 1], trace[k], rans[k].value);
  }

  /**
   * A payment, item, signature, deletion or block reaches the wallet only when approved in its own effect
   * state, and it is to the letter the effect that the copy shown there was made from.
   */
  lemma {:induction false} OnlyApprovedRuns(p: Program, trace: seq<Config>, events: seq<Event>, rans: seq<Option<ResolvedEffect>>, k: nat)
    requires Fits(p.chart) && Run(p, trace, events, rans) && k < |trace|
    requires rans[k].Some? && Guarded(rans[k].value)
    ensures k > 0 && events[k - 1].Approve? && trace[k - 1].step.Approving?
    ensures RanAsShown(p, trace[k - 1], trace[k], rans[k].value)
  {
    RunIsRight(p, trace, events, rans);
    forall i | 0 <= i < |trace| ensures Inv(p, trace[i]) { ReachedIsSound(p, trace, events, rans, i); }
    ShownAlong(p, trace, events, rans, k);
  }

  lemma {:induction false} OnceAlong(trace: seq<Config>, events: seq<Event>, rans: seq<Option<ResolvedEffect>>, i: nat, j: nat)
    requires RightAlong(trace, events, rans) && i < j < |trace| && rans[i].Some? && rans[j].Some?
    ensures exists k :: i <= k < j && trace[k] == trace[i] && trace[k].step.Running? && (events[k].Done? || events[k].Failed?)
  {
    assert i > 0 ==> RunsRight(trace[i - 1], events[i - 1], At(trace[i], rans[i]));
    var k := i;
    while k < j && !(events[k].Done? || events[k].Failed?)
      invariant i <= k <= j && trace[k] == trace[i] && (k > i ==> rans[k].None?)
    {
      assert RunsRight(trace[k], events[k], At(trace[k + 1], rans[k + 1]));
      k := k + 1;
    }
  }

  /** Between two effects handed to the wallet, the first has been answered: no entry of an effect state runs its effect twice. */
  lemma {:induction false} OnceAnEntry(p: Program, trace: seq<Config>, events: seq<Event>, rans: seq<Option<ResolvedEffect>>, i: nat, j: nat)
    requires Fits(p.chart) && Run(p, trace, events, rans) && i < j < |trace|
    requires rans[i].Some? && rans[j].Some?
    ensures exists k :: i <= k < j && trace[k] == trace[i] && trace[k].step.Running? && (events[k].Done? || events[k].Failed?)
  {
    RunIsRight(p, trace, events, rans);
    OnceAlong(trace, events, rans, i, j);
  }

  // ----- selections -----

  /** Some message list on hand has a row with this id. */
  ghost predicate NamesMessage(values: Values, id: string) {
    exists f :: f in values && values[f].Messages? && id in RowKeys(values[f])
  }

  lemma {:induction false} FoundIfIn(listed: seq<BoxMessage>, m: BoxMessage)
    requires m in listed
    ensures Find(listed, m.id).Some?
  {
    var at :| 0 <= at < |listed| && listed[at] == m;
    assert listed[at].id == m.id;
  }

  lemma {:induction false} RowOfKey(v: FieldValue, id: string) returns (m: BoxMessage)
    requires v.Messages? && id in RowKeys(v)
    ensures m in v.messages && m.id == id
  {
    m := v.messages[IndexOf(RowKeys(v), id)];
  }

  lemma {:induction false} ListIsMessages(fields: map<string, Field>, values: Values, f: string)
    requires Typed(fields, values) && f in values && values[f].Messages?
    ensures f in fields && fields[f].kind.MessagesField?
  {
    assert HasType(fields[f], values[f]);
  }

  lemma {:induction false} TickedIsListed(fields: map<string, Field>, order: seq<string>, values: Values, id: string)
    requires Typed(fields, values) && NamesMessage(values, id) && forall f :: f in fields ==> f in order
    ensures Find(Listed(values, ListFields(fields, order)), id).Some?
  {
    var f :| f in values && values[f].Messages? && id in RowKeys(values[f]);
    var m := RowOfKey(values[f], id);
    ListIsMessages(fields, values, f);
    ListFieldsAre(fields, order, f);
    ListedHolds(values, ListFields(fields, order), f, m);
    FoundIfIn(Listed(values, ListFields(fields, order)), m);
  }

  /** A delete or acknowledge over ticked message rows resolves to exactly those messages, in the order they were ticked. */
  lemma {:induction false} SelectionResolvesExactly(p: Program, values: Values, field: string)
    requires Typed(p.chart.fields, values) && SelectionsOk(values) && field in values && values[field].Selection?
    requires forall f :: f in p.chart.fields ==> f in p.order
    requires forall id :: id in values[field].ids ==> NamesMessage(values, id)
    ensures var messages := MessagesOf(values, field, ListFields(p.chart.fields, p.order));
            && IdsOf(messages) == values[field].ids && NoDup(IdsOf(messages))
            && (forall m :: m in messages ==> exists f :: f in values && values[f].Messages? && m in values[f].messages)
  {
    var lists := ListFields(p.chart.fields, p.order);
    var ids := values[field].ids;
    forall id | id in ids ensures Find(Listed(values, lists), id).Some? {
      TickedIsListed(p.chart.fields, p.order, values, id);
    }
    FindAllInOrder(Listed(values, lists), ids);
    assert SelectionOk(values, ids);
    forall m | m in FindAll(Listed(values, lists), ids)
      ensures exists f :: f in values && values[f].Messages? && m in values[f].messages
    {
      ListedFrom(values, lists, m);
    }
  }

  /** Messages acknowledged or deleted leave every list, no other message does, and nothing else but the ticks changes. */
  lemma {:induction false} HandledMessagesLeave(p: Program, effect: Effect, values: Values, result: EffectResult, ran: ResolvedEffect, f: string)
    requires (effect.AcknowledgeMessages? || effect.DeleteMessages?) && (ran.Acknowledge? || ran.Delete?)
    requires Typed(p.chart.fields, values) && f in values && !values[f].Selection?
    ensures var after := ApplyResult(p.chart.fields, effect, values, result, ran);
            && f in after
            && (if values[f].Messages?
                then after[f].Messages? && forall m :: m in after[f].messages <==> m in values[f].messages && m.id !in IdsOf(ran.messages)
                else after[f] == values[f])
  {
    assert HasType(p.chart.fields[f], values[f]);
  }

  /** A transition is taken only with everything it needs, and a row it opens is the listed row that was named. */
  lemma {:induction false} TakenWithItsNeeds(c: Config, view: seq<Block>, t: Transition, event: string, row: Option<string>)
    requires Fired(c, view, t, event, row).Taken?
    ensures forall f :: f in t.needs ==> HasValue(c.values, f)
    ensures OpensOn(view, event).Some? ==>
              var (target, list) := OpensOn(view, event).value;
              var values := Fired(c, view, t, event, row).values;
              && row.Some? && target in values && list in c.values
              && (c.values[list].Messages? ==>
                    values[target].Message? && values[target].message in c.values[list].messages && values[target].message.id == row.value)
              && (c.values[list].Senders? ==>
                    values[target].Sender? && values[target].sender in c.values[list].senders && values[target].sender.identityKey == row.value)
  {
  }
}
