/**
 * The checker (src/apps/chartValidator.ts): one pass over a chart that pushes
 * an error for everything amiss, and finds none exactly when the chart decodes and fits.
 */
module ChartValidators {
  import opened Prelude
  import opened JsonText
  import opened ChartTypes
  import opened ChartFormat
  import opened ChartEffects
  import opened ChartRules
  import opened ChartRunner
  import opened ChartShape
  import opened ChartBlocks
  import opened ChartSoundness

  /** A reference `{ field }` to a declared field of one of these types. */
  predicate RefFits(fields: map<string, Field>, j: Option<Json>, kinds: set<FieldType>) {
    RefOf(j).Some? && FieldIs(fields, RefOf(j).value, kinds)
  }

  predicate AmountRefFits(fields: map<string, Field>, j: Option<Json>, coin: Option<Coin>) {
    && AmountOf(j).Some?
    && FieldIs(fields, AmountOf(j).value.field, {AmountField}) && fields[AmountOf(j).value.field].coin == coin
    && (AmountOf(j).value.split.Some? ==> FieldIs(fields, AmountOf(j).value.split.value.countOf, {FriendsField}))
  }

  predicate MemoFits(fields: map<string, Field>, j: Option<Json>) {
    j.Some? ==> RefFits(fields, j, {TextField})
  }

  predicate EffectPasses(fields: map<string, Field>, j: Json, goodUrl: string -> bool) {
    DecodeEffect(j, goodUrl).Some? && EffectFits(fields, DecodeEffect(j, goodUrl).value)
  }

  const ALL_TYPES := {AmountField, TextField, FriendField, FriendsField, ItemField, MessagesField, SendersField,
                      SelectionField, MessageField, SenderField, SignatureField, FetchedField}

  class Validator {
    const raw: Json
    const goodUrl: string -> bool
    var errors: seq<string>
    var fields: map<string, Field>
    var effects: map<string, Effect>
    var names: set<string>

    constructor (raw: Json, goodUrl: string -> bool)
      ensures this.raw == raw && this.goodUrl == goodUrl && errors == [] && fields == map[] && effects == map[] && names == {}
    {
      this.raw, this.goodUrl := raw, goodUrl;
      errors, fields, effects, names := [], map[], map[], {};
    }

    method Fail(message: string)
      modifies this`errors
      ensures errors == old(errors) + [message]
    {
      errors := errors + [message];
    }

    /** Pushes an error unless the condition holds. */
    method Check(holds: bool, message: string)
      modifies this`errors
      ensures errors == [] <==> old(errors) == [] && holds
    {
      if !holds { Fail(message); }
    }

    method ExactKeys(m: Members, place: string, required: set<string>, optional: set<string>)
      modifies this`errors
      ensures errors == [] <==> old(errors) == [] && HasKeys(m, required, optional)
    {
      var todo := required;
      while todo != {}
        invariant todo <= required
        invariant errors == [] <==> old(errors) == [] && required - todo <= m.Keys
        decreases todo
      {
        var key :| key in todo;
        Check(key in m, place + ": missing " + key);
        todo := todo - {key};
      }
      assert required - todo == required;
      var held := m.Keys;
      while held != {}
        invariant held <= m.Keys
        invariant errors == [] <==> old(errors) == [] && required <= m.Keys && m.Keys - held <= required + optional
        decreases held
      {
        var key :| key in held;
        Check(key in required || key in optional, place + ": unknown key " + key);
        assert m.Keys - (held - {key}) == (m.Keys - held) + {key};
        held := held - {key};
      }
      assert m.Keys - held == m.Keys;
    }

    method FieldOf(place: string, name: Option<Json>, kinds: set<FieldType>)
      modifies this`errors
      ensures errors == [] <==> old(errors) == [] && NamesOne(fields, name, kinds)
    {
      var f := AsString(name);
      if f.None? || f.value !in fields {
        Fail(place + ": undeclared field");
      } else {
        Check(fields[f.value].kind in kinds, place + ": field " + f.value + " has the wrong type");
      }
    }

    method Reference(place: string, ref: Option<Json>, kinds: set<FieldType>)
      modifies this`errors
      ensures errors == [] <==> old(errors) == [] && RefFits(fields, ref, kinds)
    {
      if ref.None? || !ref.value.Obj? {
        Fail(place + ": must be { field }");
        return;
      }
      ExactKeys(ref.value.fields, place, {"field"}, {});
      FieldOf(place, Get(ref.value.fields, "field"), kinds);
    }

    // ----- effects -----

    method CheckSplit(place: string, divide: Json)
      modifies this`errors
      ensures errors == [] <==> old(errors) == [] && SplitOf(divide).Some? && FieldIs(fields, SplitOf(divide).value.countOf, {FriendsField})
    {
      if !divide.Obj? {
        Fail(place + ": divideBy must be an object");
        return;
      }
      ExactKeys(divide.fields, place + " divideBy", {"countOf"}, {"plus"});
      FieldOf(place + " divideBy", Get(divide.fields, "countOf"), {FriendsField});
      var plus := Get(divide.fields, "plus");
      Check(plus.None? || IsPlus(plus.value), place + ": divideBy.plus must be 0 to 10");
    }

    method CheckAmount(place: string, amount: Option<Json>, coin: Option<Coin>)
      modifies this`errors
      ensures errors == [] <==> old(errors) == [] && AmountRefFits(fields, amount, coin)
    {
      if amount.None? || !amount.value.Obj? {
        Fail(place + " amount: must be { field }");
        return;
      }
      var m := amount.value.fields;
      ExactKeys(m, place + " amount", {"field"}, {"divideBy"});
      FieldOf(place + " amount", Get(m, "field"), {AmountField});
      var f := AsString(Get(m, "field"));
      if f.Some? && f.value in fields && fields[f.value].kind == AmountField {
        Check(fields[f.value].coin == coin, place + ": amount field coin must match the effect coin");
      }
      var divide := Get(m, "divideBy");
      if divide.Some? { CheckSplit(place, divide.value); }
    }

    method CheckCoinAndNetworks(place: string, m: Members)
      modifies this`errors
      ensures errors == [] <==> old(errors) == [] && CoinOf(Get(m, "coin")).Some? && NetworksOf(Get(m, "networks")).Some?
    {
      Check(CoinOf(Get(m, "coin")).Some?, place + ": unknown coin");
      Check(NetworksOf(Get(m, "networks")).Some?, place + ": networks must list mainnet and/or testnet");
    }

    method CheckMemo(place: string, memo: Option<Json>)
      modifies this`errors
      ensures errors == [] <==> old(errors) == [] && MemoFits(fields, memo)
    {
      if memo.Some? { Reference(place + " memo", memo, {TextField}); }
    }

    method CheckPayment(place: string, m: Members, asks: bool)
      modifies this`errors
      ensures var decoded := if asks then DecodeRequest(m) else DecodeSend(m);
              errors == [] <==> old(errors) == [] && decoded.Some? && EffectFits(fields, decoded.value)
    {
      if asks {
        ExactKeys(m, place, {"kind", "coin", "networks", "from", "amount"}, {"memo"});
      } else {
        ExactKeys(m, place, {"kind", "coin", "networks", "to", "amount"}, {"memo"});
      }
      CheckCoinAndNetworks(place, m);
      CheckAmount(place, Get(m, "amount"), CoinOf(Get(m, "coin")));
      CheckMemo(place, Get(m, "memo"));
      if asks {
        Reference(place + " from", Get(m, "from"), {FriendField, FriendsField});
      } else {
        Reference(place + " to", Get(m, "to"), {FriendField});
      }
    }

    method CheckSendItem(place: string, m: Members)
      modifies this`errors
      ensures errors == [] <==> old(errors) == [] && DecodeSendItem(m).Some? && EffectFits(fields, DecodeSendItem(m).value)
    {
      ExactKeys(m, place, {"kind", "coin", "networks", "to", "item"}, {});
      CheckCoinAndNetworks(place, m);
      Reference(place + " to", Get(m, "to"), {FriendField});
      Reference(place + " item", Get(m, "item"), {ItemField});
    }

    method CheckSign(place: string, m: Members)
      modifies this`errors
      ensures errors == [] <==> old(errors) == [] && DecodeSign(m).Some? && EffectFits(fields, DecodeSign(m).value)
    {
      ExactKeys(m, place, {"kind", "message", "result"}, {});
      Reference(place + " message", Get(m, "message"), {TextField});
      FieldOf(place + " result", Get(m, "result"), {SignatureField});
    }

    method CheckFetch(place: string, m: Members)
      modifies this`errors
      ensures errors == [] <==> old(errors) == [] && DecodeFetch(m, goodUrl).Some? && EffectFits(fields, DecodeFetch(m, goodUrl).value)
    {
      ExactKeys(m, place, {"kind", "url", "result"}, {});
      var url := AsString(Get(m, "url"));
      Check(url.Some? && goodUrl(url.value), place + ": url must be one fixed https address");
      FieldOf(place + " result", Get(m, "result"), {FetchedField});
    }

    method CheckListMessages(place: string, m: Members)
      modifies this`errors
      ensures errors == [] <==> old(errors) == [] && DecodeListMessages(m).Some? && EffectFits(fields, DecodeListMessages(m).value)
    {
      ExactKeys(m, place, {"kind", "boxes", "result"}, {"blocked"});
      Check(BoxesOf(Get(m, "boxes")).Some?, place + ": boxes must name one or more message boxes");
      FieldOf(place + " result", Get(m, "result"), {MessagesField});
      if Get(m, "blocked").Some? { FieldOf(place + " blocked", Get(m, "blocked"), {SendersField}); }
    }

    method CheckMessages(place: string, m: Members, deletes: bool)
      modifies this`errors
      ensures errors == [] <==> old(errors) == [] && DecodeMessages(m, deletes).Some? && EffectFits(fields, DecodeMessages(m, deletes).value)
    {
      ExactKeys(m, place, {"kind", "messages"}, {});
      Reference(place + " messages", Get(m, "messages"), {SelectionField, MessageField});
    }

    method CheckSender(place: string, m: Members, blocks: bool)
      modifies this`errors
      ensures errors == [] <==> old(errors) == [] && DecodeSender(m, blocks).Some? && EffectFits(fields, DecodeSender(m, blocks).value)
    {
      ExactKeys(m, place, {"kind", "sender"}, {});
      Reference(place + " sender", Get(m, "sender"), {MessageField, SenderField});
    }

    method CheckEffect(id: string, def: Json)
      modifies this`errors
      ensures errors == [] <==> old(errors) == [] && IsName(id) && EffectPasses(fields, def, goodUrl)
    {
      var place := "effect " + id;
      Check(IsName(id), place + ": bad id");
      if !def.Obj? {
        Fail(place + ": undeclared effect kind");
        return;
      }
      var m := def.fields;
      match KindOf(Get(m, "kind"))
      case None => Fail(place + ": undeclared effect kind");
      case Some(Requests) => CheckPayment(place, m, true);
      case Some(Sends) => CheckPayment(place, m, false);
      case Some(SendsItem) => CheckSendItem(place, m);
      case Some(Signs) => CheckSign(place, m);
      case Some(Fetches) => CheckFetch(place, m);
      case Some(Lists) => CheckListMessages(place, m);
      case Some(Acknowledges) => CheckMessages(place, m, false);
      case Some(Deletes) => CheckMessages(place, m, true);
      case Some(Blocks) => CheckSender(place, m, true);
      case Some(Unblocks) => CheckSender(place, m, false);
    }

    method CheckField(name: string, def: Json)
      modifies this`errors, this`fields
      ensures errors == [] <==> old(errors) == [] && IsName(name) && DecodeField(def).Some?
      ensures fields == if DecodeField(def).Some? then old(fields)[name := DecodeField(def).value] else old(fields)
    {
      var place := "field " + name;
      Check(IsName(name), place + ": bad name");
      if !def.Obj? {
        Fail(place + ": must be an object");
        return;
      }
      var m := def.fields;
      ExactKeys(m, place, {"type"}, {"maxLength", "coin"});
      var kind, max, coin := TypeOf(Get(m, "type")), Get(m, "maxLength"), Get(m, "coin");
      if kind.None? {
        Fail(place + ": unknown type");
        return;
      }
      if max.Some? {
        if kind.value != TextField {
          Fail(place + ": maxLength is for text fields");
        } else {
          Check(IsMaxLength(max.value), place + ": maxLength must be 1 to 500");
        }
      }
      if kind.value == AmountField {
        Check(CoinOf(coin).Some?, place + ": amount fields name their coin");
      } else {
        Check(coin.None?, place + ": coin is for amount fields");
      }
      var field := DecodeField(def);
      if field.Some? { fields := fields[name := field.value]; }
    }

    method CheckFields(all: Option<Json>)
      requires fields == map[]
      modifies this`errors, this`fields
      ensures errors == [] <==> old(errors) == [] && FieldsOf(all).Some?
      ensures errors == [] ==> fields == FieldsOf(all).value
    {
      if all.None? || !all.value.Obj? {
        Fail("chart: fields must be an object");
        return;
      }
      var m := all.value.fields;
      var todo := m.Keys;
      while todo != {}
        invariant todo <= m.Keys
        invariant errors == [] <==> old(errors) == [] && forall k :: k in m && k !in todo ==> IsName(k) && DecodeField(m[k]).Some?
        invariant errors == [] ==> fields == map k | k in m && k !in todo && DecodeField(m[k]).Some? :: DecodeField(m[k]).value
        decreases todo
      {
        var name :| name in todo;
        CheckField(name, m[name]);
        todo := todo - {name};
      }
    }

    method CheckEffects(all: Option<Json>)
      requires effects == map[]
      modifies this`errors, this`effects
      ensures errors == [] <==> old(errors) == [] && EffectsPass(fields, all, goodUrl)
      ensures errors == [] ==> effects == EffectsOf(all, goodUrl).value
    {
      if all.None? || !all.value.Obj? {
        Fail("chart: effects must be an object");
        return;
      }
      var m := all.value.fields;
      var todo := m.Keys;
      while todo != {}
        invariant todo <= m.Keys
        invariant errors == [] <==> old(errors) == [] && EffectsOkay(fields, m, m.Keys - todo, goodUrl)
        invariant effects == DecodedEffects(m, m.Keys - todo, goodUrl)
        decreases todo
      {
        var id :| id in todo;
        CheckEffect(id, m[id]);
        OneMoreEffect(fields, m, m.Keys - todo, id, goodUrl);
        var effect := DecodeEffect(m[id], goodUrl);
        if effect.Some? { effects := effects[id := effect.value]; }
        assert m.Keys - (todo - {id}) == (m.Keys - todo) + {id};
        todo := todo - {id};
      }
      AllEffects(fields, all, goodUrl);
      assert m.Keys - todo == m.Keys;
    }

    // ----- states -----

    method CheckPlaceholders(place: string, text: string)
      modifies this`errors
      ensures errors == [] <==> old(errors) == [] && PlaceholdersFit(fields, text)
    {
      var pieces := Pieces(text, 0);
      for i := 0 to |pieces|
        invariant errors == [] <==> old(errors) == [] && forall k :: 0 <= k < i && pieces[k].Placeholder? ==> PlaceholderFits(fields, pieces[k].path)
      {
        if pieces[i].Placeholder? {
          Check(PlaceholderFits(fields, pieces[i].path), place + ": placeholder {" + pieces[i].path + "} names no field, or reads nothing it has");
        }
      }
    }

    method CheckText(place: string, m: Members, key: string, max: nat)
      modifies this`errors
      ensures errors == [] <==> old(errors) == [] && TextPasses(fields, m, key, max)
    {
      if key !in m { return; }
      if IsText(Get(m, key), max) {
        CheckPlaceholders(place, m[key].s);
      } else {
        Fail(place + ": " + key + " must be short text");
      }
    }

    method CheckTexts(place: string, m: Members)
      modifies this`errors
      ensures errors == [] <==> old(errors) == [] && TextsPass(fields, m)
    {
      CheckText(place, m, "text", LONG);
      CheckText(place, m, "label", SHORT);
      CheckText(place, m, "placeholder", SHORT);
      CheckText(place, m, "empty", SHORT);
    }

    method CheckList(place: string, m: Members)
      modifies this`errors
      ensures errors == [] <==> old(errors) == [] && ListPasses(fields, m)
    {
      FieldOf(place, Get(m, "field"), {MessagesField, SendersField});
      if "select" in m { FieldOf(place + " select", Get(m, "select"), {SelectionField}); }
      if "open" in m {
        var open := m["open"];
        if !open.Obj? {
          Fail(place + ": open must be { event, field }");
        } else {
          ExactKeys(open.fields, place + " open", {"event", "field"}, {});
          FieldOf(place + " open", Get(open.fields, "field"), {RowType(fields, Get(m, "field"))});
          Check(AsString(Get(open.fields, "event")).Some?, place + ": open.event must be an event name");
        }
      }
    }

    method CheckBlock(place: string, block: Json)
      modifies this`errors
      ensures errors == [] <==> old(errors) == [] && BlockPasses(fields, block)
    {
      var kind := if block.Obj? then BlockKindOf(Get(block.fields, "block")) else None;
      if kind.None? {
        Fail(place + ": unknown block");
        return;
      }
      var m := block.fields;
      ExactKeys(m, place, Required(kind.value), Optional(kind.value));
      CheckTexts(place, m);
      CheckMembers(place, m, kind.value);
      if HasKeys(m, Required(kind.value), Optional(kind.value)) { PassesByKind(fields, m, kind.value); }
    }

    method CheckMembers(place: string, m: Members, kind: BlockKind)
      modifies this`errors
      ensures errors == [] <==> old(errors) == [] && MembersPass(fields, m, kind)
    {
      match kind
      case HeadingBlock =>
      case TextBlock =>
      case ListBlock => CheckList(place, m);
      case PrimaryBlock => Check(AsString(Get(m, "event")).Some?, place + ": event must be an event name");
      case SecondaryBlock => Check(AsString(Get(m, "event")).Some?, place + ": event must be an event name");
      case _ => FieldOf(place, Get(m, "field"), InputTypes(kind));
    }

    /** Checks every block of a view; `emitted` are the events they send. */
    method CheckView(place: string, blocks: seq<Json>) returns (emitted: set<string>)
      modifies this`errors
      ensures errors == [] <==> old(errors) == [] && BlocksPass(fields, blocks, |blocks|)
      ensures emitted == EmittedBy(blocks, |blocks|)
    {
      emitted := {};
      for i := 0 to |blocks|
        invariant errors == [] <==> old(errors) == [] && BlocksPass(fields, blocks, i)
        invariant emitted == EmittedBy(blocks, i)
      {
        CheckBlock(place, blocks[i]);
        OneMoreBlock(fields, blocks, i);
        emitted := emitted + EventIn(blocks[i]);
      }
    }

    method Target(place: string, name: Option<Json>)
      modifies this`errors
      ensures errors == [] <==> old(errors) == [] && NamesState(names, name)
    {
      Check(NamesState(names, name), place + ": undeclared state");
    }

    method CheckTransition(place: string, t: Json)
      modifies this`errors
      ensures errors == [] <==> old(errors) == [] && TransitionPasses(fields, names, t)
    {
      if t.Str? {
        Target(place, Some(t));
        return;
      }
      if !t.Obj? {
        Fail(place + ": must be a state name or { target }");
        return;
      }
      var m := t.fields;
      ExactKeys(m, place, {"target"}, {"requires", "assign"});
      Target(place, Get(m, "target"));
      CheckNeeds(place, Get(m, "requires"));
      CheckAssign(place, Get(m, "assign"));
    }

    method CheckNeeds(place: string, needs: Option<Json>)
      modifies this`errors
      ensures errors == [] <==> old(errors) == [] && NeedsPass(fields, needs)
    {
      if needs.None? { return; }
      if !needs.value.Arr? {
        Fail(place + ": requires must list fields");
        return;
      }
      var items := needs.value.items;
      for i := 0 to |items|
        invariant errors == [] <==> old(errors) == [] && forall k :: 0 <= k < i ==> items[k].Str? && items[k].s in fields
      {
        AnyType(fields, items[i]);
        FieldOf(place + " requires", Some(items[i]), ALL_TYPES);
      }
    }

    method CheckAssign(place: string, assign: Option<Json>)
      modifies this`errors
      ensures errors == [] <==> old(errors) == [] && AssignPasses(fields, assign)
    {
      if assign.None? { return; }
      if !assign.value.Obj? {
        Fail(place + ": assign must be an object");
        return;
      }
      var m := assign.value.fields;
      var todo := m.Keys;
      while todo != {}
        invariant todo <= m.Keys
        invariant errors == [] <==> old(errors) == [] && forall f :: f in m && f !in todo ==> LiteralPasses(fields, f, m[f])
        decreases todo
      {
        var f :| f in todo;
        Check(LiteralPasses(fields, f, m[f]), place + ": assign " + f + " does not suit the field");
        todo := todo - {f};
      }
      AssignByMember(fields, m);
    }

    method CheckEvents(place: string, emitted: set<string>, on: Members)
      modifies this`errors
      ensures errors == [] <==> old(errors) == [] && EventsPass(emitted, on)
    {
      var todo := emitted;
      while todo != {}
        invariant todo <= emitted
        invariant errors == [] <==> old(errors) == [] && forall e :: e in emitted && e !in todo ==> IsEventName(e) && e in on
        decreases todo
      {
        var event :| event in todo;
        if IsEventName(event) {
          Check(event in on, place + ": event " + event + " has no transition");
        } else {
          Fail(place + ": bad event name " + event);
        }
        todo := todo - {event};
      }
    }

    method CheckTransitions(place: string, emitted: set<string>, on: Members)
      modifies this`errors
      ensures errors == [] <==> old(errors) == [] && TransitionsPass(fields, names, emitted, on)
    {
      var todo := on.Keys;
      while todo != {}
        invariant todo <= on.Keys
        invariant errors == [] <==> old(errors) == [] && forall e :: e in on && e !in todo ==> e in emitted && TransitionPasses(fields, names, on[e])
        decreases todo
      {
        var event :| event in todo;
        Check(event in emitted, place + " on " + event + ": no block sends this event");
        CheckTransition(place + " on " + event, on[event]);
        todo := todo - {event};
      }
    }

    method CheckEffectState(place: string, m: Members)
      modifies this`errors
      ensures errors == [] <==> old(errors) == [] && EffectStatePasses(fields, effects, names, m)
    {
      Check(!Truthy(Get(m, "view")) && !Truthy(Get(m, "on")) && "final" !in m, place + ": an effect state has no view, events or final");
      var id := AsString(Get(m, "effect"));
      var known := id.Some? && id.value in effects;
      Check(known, place + ": undeclared effect");
      Target(place + " onDone", Get(m, "onDone"));
      Target(place + " onError", Get(m, "onError"));
      if known && NeedsApproval(effects[id.value]) {
        Target(place + " onDecline", Get(m, "onDecline"));
      } else {
        Check("onDecline" !in m, place + ": onDecline is only for effects that need approval");
      }
    }

    method CheckViewState(place: string, m: Members)
      modifies this`errors
      ensures errors == [] <==> old(errors) == [] && ViewStatePasses(fields, effects, names, m)
    {
      Check("onDone" !in m && "onError" !in m && "onDecline" !in m, place + ": only effect states have these");
      var view, on := Get(m, "view"), Get(m, "on");
      if view.None? || !view.value.Arr? || view.value.items == [] {
        Fail(place + ": needs a view or an effect");
        return;
      }
      Check(!("final" in m && Truthy(on)), place + ": a final state takes no events");
      var emitted := CheckView(place, view.value.items);
      if on.Some? && !on.value.Null? && !on.value.Obj? {
        Fail(place + ": on must be an object");
        return;
      }
      var events := if on.Some? && on.value.Obj? then on.value.fields else map[];
      CheckEvents(place, emitted, events);
      CheckTransitions(place, emitted, events);
      ViewByParts(fields, effects, names, m, view.value.items, events);
    }

    method CheckState(name: string, state: Json)
      modifies this`errors
      ensures errors == [] <==> old(errors) == [] && IsName(name) && StatePasses(fields, effects, names, state)
    {
      var place := "state " + name;
      Check(IsName(name), place + ": bad name");
      if !state.Obj? {
        Fail(place + ": must be an object");
        return;
      }
      var m := state.fields;
      ExactKeys(m, place, {}, {"view", "on", "effect", "onDone", "onError", "onDecline", "final"});
      Check("final" in m ==> m["final"] == Bool(true), place + ": final must be true when set");
      if "effect" in m {
        CheckEffectState(place, m);
      } else {
        CheckViewState(place, m);
      }
    }

    method CheckStates(all: Option<Json>)
      modifies this`errors
      ensures errors == [] <==> old(errors) == [] && StatesPass(fields, effects, names, all)
    {
      if all.None? || !all.value.Obj? {
        Fail("chart: states must name at least one state");
        return;
      }
      var m := all.value.fields;
      var todo := m.Keys;
      while todo != {}
        invariant todo <= m.Keys
        invariant errors == [] <==> old(errors) == [] && StatesOkay(fields, effects, names, m, m.Keys - todo)
        decreases todo
      {
        var name :| name in todo;
        CheckState(name, m[name]);
        OneMoreState(fields, effects, names, m, m.Keys - todo, name);
        assert m.Keys - (todo - {name}) == (m.Keys - todo) + {name};
        todo := todo - {name};
      }
      assert m.Keys - todo == m.Keys;
      AllStates(fields, effects, names, m);
    }

    method CheckHeader(m: Members)
      modifies this`errors
      ensures errors == [] <==> old(errors) == [] && HeaderOf(m).Some?
    {
      var id, version, signature := AsString(Get(m, "id")), AsString(Get(m, "version")), AsString(Get(m, "signature"));
      Check(Get(m, "format") == Some(Str(CHART_APP_FORMAT)), "chart: format must be " + CHART_APP_FORMAT);
      Check(id.Some? && IsAppId(id.value), "chart: id must be lowercase letters, digits and dashes");
      Check(IsText(Get(m, "name"), 40), "chart: name must be 1 to 40 characters");
      Check(IsText(Get(m, "summary"), 140), "chart: summary must be 1 to 140 characters");
      Check(version.Some? && IsVersion(version.value), "chart: version must be major.minor.patch");
      Check(signature.Some? && IsSignature(signature.value), "chart: signature must be hex");
      CheckAuthor(Get(m, "author"));
    }

    method CheckAuthor(author: Option<Json>)
      modifies this`errors
      ensures errors == [] <==> old(errors) == [] && AuthorOf(author).Some?
    {
      if author.None? || !author.value.Obj? {
        Fail("chart: author must be an object");
        return;
      }
      var m := author.value.fields;
      ExactKeys(m, "author", {"identityKey", "name"}, {});
      var key := AsString(Get(m, "identityKey"));
      Check(key.Some? && IsIdentityKey(key.value), "author: identityKey must be a compressed public key in lowercase hex");
      Check(IsText(Get(m, "name"), 40), "author: name must be 1 to 40 characters");
    }

    /**
     * The whole check. `size` is the length of the chart's canonical JSON in bytes, none where it has none.
     * No error is found exactly when the chart is one the format and its references allow.
     */
    method ValidateChart(size: Option<nat>)
      requires errors == [] && fields == map[] && effects == map[]
      modifies this
      ensures errors == [] <==> Accepts(raw, size, goodUrl)
    {
      if !raw.Obj? {
        Fail("Chart is not an object");
        return;
      }
      if size.None? || size.value > CHART_MAX_BYTES {
        Fail("Chart is over its size, or holds what a chart cannot hold");
        return;
      }
      CheckParts(raw.fields);
      AcceptsByParts(raw, size, goodUrl);
    }

    method CheckParts(m: Members)
      requires errors == [] && fields == map[] && effects == map[]
      modifies this
      ensures errors == [] <==> PartsPass(m, goodUrl)
    {
      ExactKeys(m, "chart", CHART_KEYS, {});
      CheckHeader(m);
      CheckFields(Get(m, "fields"));
      CheckEffects(Get(m, "effects"));
      var states := Get(m, "states");
      names := NamesIn(states);
      Check(names != {}, "chart: states must name at least one state");
      Target("chart: initial", Get(m, "initial"));
      CheckStates(states);
    }
  }

  /** The names of the states. */
  function NamesIn(states: Option<Json>): set<string> {
    if states.Some? && states.value.Obj? then states.value.fields.Keys else {}
  }

  predicate PartsPass(m: Members, goodUrl: string -> bool) {
    && HasKeys(m, CHART_KEYS, {}) && HeaderOf(m).Some? && FieldsOf(Get(m, "fields")).Some?
    && EffectsPass(FieldsOf(Get(m, "fields")).value, Get(m, "effects"), goodUrl)
    && NamesState(NamesIn(Get(m, "states")), Get(m, "initial"))
    && StatesPass(FieldsOf(Get(m, "fields")).value, EffectsOf(Get(m, "effects"), goodUrl).value, NamesIn(Get(m, "states")), Get(m, "states"))
  }

  predicate PartsDecode(m: Members, goodUrl: string -> bool) {
    && HasKeys(m, CHART_KEYS, {}) && HeaderOf(m).Some? && FieldsOf(Get(m, "fields")).Some?
    && EffectsOf(Get(m, "effects"), goodUrl).Some? && StatesOf(Get(m, "states")).Some? && AsString(Get(m, "initial")).Some?
  }

  lemma {:induction false} ChartDecodes(raw: Json, goodUrl: string -> bool)
    requires raw.Obj?
    ensures DecodeChart(raw, goodUrl).Some? <==> PartsDecode(raw.fields, goodUrl)
    ensures PartsDecode(raw.fields, goodUrl) ==>
              var chart, m := DecodeChart(raw, goodUrl).value, raw.fields;
              && chart.initial == AsString(Get(m, "initial")).value && chart.fields == FieldsOf(Get(m, "fields")).value
              && chart.effects == EffectsOf(Get(m, "effects"), goodUrl).value && chart.states == StatesOf(Get(m, "states")).value
  {
  }

  lemma {:induction false} DecodedFits(chart: ChartApp, m: Members, goodUrl: string -> bool)
    requires FieldsOf(Get(m, "fields")) == Some(chart.fields) && EffectsOf(Get(m, "effects"), goodUrl) == Some(chart.effects)
    requires StatesOf(Get(m, "states")) == Some(chart.states) && AsString(Get(m, "initial")) == Some(chart.initial)
    ensures Fits(chart) <==> && EffectsPass(chart.fields, Get(m, "effects"), goodUrl)
                             && NamesState(NamesIn(Get(m, "states")), Get(m, "initial"))
                             && StatesPass(chart.fields, chart.effects, NamesIn(Get(m, "states")), Get(m, "states"))
  {
    FieldsHaveMaxLengths(Get(m, "fields").value.fields);
    assert chart.states.Keys == NamesIn(Get(m, "states"));
  }

  lemma {:induction false} AcceptsByParts(raw: Json, size: Option<nat>, goodUrl: string -> bool)
    requires raw.Obj?
    ensures Accepts(raw, size, goodUrl) <==> size.Some? && size.value <= CHART_MAX_BYTES && PartsPass(raw.fields, goodUrl)
  {
    ChartDecodes(raw, goodUrl);
    if PartsDecode(raw.fields, goodUrl) { DecodedFits(DecodeChart(raw, goodUrl).value, raw.fields, goodUrl); }
  }

  predicate EffectStatePasses(fields: map<string, Field>, effects: map<string, Effect>, names: set<string>, m: Members) {
    DecodeEffectState(m).Some? && StateFits(fields, effects, names, DecodeEffectState(m).value)
  }

  predicate ViewStatePasses(fields: map<string, Field>, effects: map<string, Effect>, names: set<string>, m: Members) {
    DecodeViewState(m).Some? && StateFits(fields, effects, names, DecodeViewState(m).value)
  }

  predicate StatePasses(fields: map<string, Field>, effects: map<string, Effect>, names: set<string>, j: Json) {
    DecodeState(j).Some? && StateFits(fields, effects, names, DecodeState(j).value)
  }

  predicate StatesPass(fields: map<string, Field>, effects: map<string, Effect>, names: set<string>, all: Option<Json>) {
    StatesOf(all).Some? && forall s | s in StatesOf(all).value :: StateFits(fields, effects, names, StatesOf(all).value[s])
  }

  predicate StatesOkay(fields: map<string, Field>, effects: map<string, Effect>, names: set<string>, m: Members, done: set<string>) {
    forall k | k in done :: k in m && IsName(k) && StatePasses(fields, effects, names, m[k])
  }

  lemma {:induction false} OneMoreState(fields: map<string, Field>, effects: map<string, Effect>, names: set<string>, m: Members, done: set<string>, k: string)
    requires k in m
    ensures StatesOkay(fields, effects, names, m, done + {k})
            <==> StatesOkay(fields, effects, names, m, done) && IsName(k) && StatePasses(fields, effects, names, m[k])
  {
  }

  lemma {:induction false} AllStates(fields: map<string, Field>, effects: map<string, Effect>, names: set<string>, m: Members)
    ensures StatesPass(fields, effects, names, Some(Obj(m))) <==> StatesOkay(fields, effects, names, m, m.Keys)
  {
    var all := Some(Obj(m));
    if StatesPass(fields, effects, names, all) {
      forall k | k in m ensures IsName(k) && StatePasses(fields, effects, names, m[k]) { assert k in StatesOf(all).value; }
    }
    if StatesOkay(fields, effects, names, m, m.Keys) {
      forall k | k in m ensures DecodeState(m[k]).Some? { assert StatePasses(fields, effects, names, m[k]); }
      forall k | k in StatesOf(all).value ensures StateFits(fields, effects, names, StatesOf(all).value[k]) {
        assert StatePasses(fields, effects, names, m[k]);
      }
    }
  }

  lemma {:induction false} EmittedIsEmits(items: seq<Json>, blocks: seq<Block>, e: string)
    requires DecodeItems(items, DecodeBlock) == Some(blocks)
    ensures e in EmittedBy(items, |items|) <==> Emits(blocks, e)
  {
    UnionIs(items, |items|, EventIn, e);
    if e in EmittedBy(items, |items|) {
      var i :| 0 <= i < |items| && e in EventIn(items[i]);
      assert blocks[i] in blocks && EventOf(blocks[i]) == Some(e);
    }
    if Emits(blocks, e) {
      var b :| b in blocks && EventOf(b) == Some(e);
      var i :| 0 <= i < |blocks| && blocks[i] == b;
      assert e in EventIn(items[i]);
    }
  }

  predicate EventsPass(emitted: set<string>, on: Members) {
    forall e | e in emitted :: IsEventName(e) && e in on
  }

  predicate TransitionsPass(fields: map<string, Field>, names: set<string>, emitted: set<string>, on: Members) {
    forall e | e in on :: e in emitted && TransitionPasses(fields, names, on[e])
  }

  /** The blocks of a view, and what its events do. */
  predicate ViewParts(fields: map<string, Field>, names: set<string>, blocks: Option<seq<Block>>, on: Option<map<string, Transition>>) {
    && blocks.Some? && on.Some? && EventsNamed(blocks.value)
    && (forall b | b in blocks.value :: BlockFits(fields, b))
    && (forall b | b in blocks.value :: EventOf(b).Some? ==> EventOf(b).value in on.value)
    && (forall event | event in on.value :: Emits(blocks.value, event) && TransitionFits(fields, names, on.value[event]))
  }

  lemma {:induction false} ViewDecoded(fields: map<string, Field>, effects: map<string, Effect>, names: set<string>, m: Members, items: seq<Json>)
    requires Get(m, "view") == Some(Arr(items)) && items != []
    ensures ViewStatePasses(fields, effects, names, m)
            <==> && "onDone" !in m && "onError" !in m && "onDecline" !in m && !("final" in m && Truthy(Get(m, "on")))
                 && ViewParts(fields, names, DecodeItems(items, DecodeBlock), OnOf(Get(m, "on")))
  {
  }

  lemma {:induction false} BlocksDecode(fields: map<string, Field>, items: seq<Json>)
    ensures BlocksPass(fields, items, |items|)
            <==> DecodeItems(items, DecodeBlock).Some? && forall b | b in DecodeItems(items, DecodeBlock).value :: BlockFits(fields, b)
  {
    var blocks := DecodeItems(items, DecodeBlock);
    if BlocksPass(fields, items, |items|) {
      forall i | 0 <= i < |items| ensures DecodeBlock(items[i]).Some? { assert BlockPasses(fields, items[i]); }
      forall b | b in blocks.value ensures BlockFits(fields, b) {
        var i :| 0 <= i < |items| && blocks.value[i] == b;
        assert BlockPasses(fields, items[i]);
      }
    }
    if blocks.Some? && forall b | b in blocks.value :: BlockFits(fields, b) {
      forall i | 0 <= i < |items| ensures BlockPasses(fields, items[i]) { assert blocks.value[i] in blocks.value; }
    }
  }

  lemma {:induction false} OnDecodes(fields: map<string, Field>, names: set<string>, j: Option<Json>, on: Members)
    requires ((j.None? || j.value.Null?) && on == map[]) || j == Some(Obj(on))
    ensures (forall e | e in on :: TransitionPasses(fields, names, on[e]))
            <==> OnOf(j).Some? && forall e | e in OnOf(j).value :: TransitionFits(fields, names, OnOf(j).value[e])
    ensures OnOf(j).Some? ==> OnOf(j).value.Keys == on.Keys
  {
    if j == Some(Obj(on)) {
      if forall e | e in on :: TransitionPasses(fields, names, on[e]) {
        forall e | e in on ensures DecodeTransition(on[e]).Some? { assert TransitionPasses(fields, names, on[e]); }
        forall e | e in OnOf(j).value ensures TransitionFits(fields, names, OnOf(j).value[e]) { assert TransitionPasses(fields, names, on[e]); }
      }
      if OnOf(j).Some? && forall e | e in OnOf(j).value :: TransitionFits(fields, names, OnOf(j).value[e]) {
        forall e | e in on ensures TransitionPasses(fields, names, on[e]) { assert e in OnOf(j).value; }
      }
    }
  }

  /** What blocks send, seen as a set of events. */
  lemma {:induction false} PartsBySet(fields: map<string, Field>, names: set<string>, emitted: set<string>, blocks: seq<Block>, on: map<string, Transition>)
    requires forall e :: e in emitted <==> Emits(blocks, e)
    ensures ViewParts(fields, names, Some(blocks), Some(on))
            <==> && (forall b | b in blocks :: BlockFits(fields, b))
                 && (forall e | e in emitted :: IsEventName(e) && e in on)
                 && (forall e | e in on :: e in emitted && TransitionFits(fields, names, on[e]))
  {
    if ViewParts(fields, names, Some(blocks), Some(on)) {
      forall e | e in emitted ensures IsEventName(e) && e in on {
        var b :| b in blocks && EventOf(b) == Some(e);
      }
    }
    if forall e | e in emitted :: IsEventName(e) && e in on {
      forall b | b in blocks && EventOf(b).Some? ensures IsEventName(EventOf(b).value) && EventOf(b).value in on {
        assert Emits(blocks, EventOf(b).value);
      }
    }
  }

  /** A view state passes exactly when its parts do. */
  lemma {:induction false} ViewByParts(fields: map<string, Field>, effects: map<string, Effect>, names: set<string>, m: Members, items: seq<Json>, on: Members)
    requires Get(m, "view") == Some(Arr(items)) && items != []
    requires var o := Get(m, "on"); ((o.None? || o.value.Null?) && on == map[]) || o == Some(Obj(on))
    ensures ViewStatePasses(fields, effects, names, m)
            <==> && "onDone" !in m && "onError" !in m && "onDecline" !in m && !("final" in m && Truthy(Get(m, "on")))
                 && BlocksPass(fields, items, |items|)
                 && EventsPass(EmittedBy(items, |items|), on) && TransitionsPass(fields, names, EmittedBy(items, |items|), on)
  {
    ViewDecoded(fields, effects, names, m, items);
    PartsAgree(fields, names, items, Get(m, "on"), on);
  }

  lemma {:induction false} PartsAgree(fields: map<string, Field>, names: set<string>, items: seq<Json>, j: Option<Json>, on: Members)
    requires ((j.None? || j.value.Null?) && on == map[]) || j == Some(Obj(on))
    ensures ViewParts(fields, names, DecodeItems(items, DecodeBlock), OnOf(j))
            <==> && BlocksPass(fields, items, |items|)
                 && EventsPass(EmittedBy(items, |items|), on) && TransitionsPass(fields, names, EmittedBy(items, |items|), on)
  {
    BlocksDecode(fields, items);
    OnDecodes(fields, names, j, on);
    var blocks := DecodeItems(items, DecodeBlock);
    if blocks.Some? {
      forall e ensures e in EmittedBy(items, |items|) <==> Emits(blocks.value, e) { EmittedIsEmits(items, blocks.value, e); }
      if OnOf(j).Some? { PartsBySet(fields, names, EmittedBy(items, |items|), blocks.value, OnOf(j).value); }
    }
  }

  predicate NamesState(names: set<string>, j: Option<Json>) {
    AsString(j).Some? && AsString(j).value in names
  }

  predicate MembersPass(fields: map<string, Field>, m: Members, kind: BlockKind) {
    match kind
    case HeadingBlock => true
    case TextBlock => true
    case ListBlock => ListPasses(fields, m)
    case PrimaryBlock => AsString(Get(m, "event")).Some?
    case SecondaryBlock => AsString(Get(m, "event")).Some?
    case _ => NamesOne(fields, Get(m, "field"), InputTypes(kind))
  }

  lemma {:induction false} PassesByKind(fields: map<string, Field>, m: Members, kind: BlockKind)
    requires BlockKindOf(Get(m, "block")) == Some(kind) && HasKeys(m, Required(kind), Optional(kind))
    ensures TextsPass(fields, m) && MembersPass(fields, m, kind) <==> BlockPasses(fields, Obj(m))
  {
    match kind
    case HeadingBlock => WordsPass(fields, m, true);
    case TextBlock => WordsPass(fields, m, false);
    case ListBlock => ListBlockPasses(fields, m);
    case PrimaryBlock => ButtonPasses(fields, m, true);
    case SecondaryBlock => ButtonPasses(fields, m, false);
    case WordsBlock => WordsInputPasses(fields, m);
    case _ => InputPasses(fields, m, kind);
  }

  predicate BlocksPass(fields: map<string, Field>, blocks: seq<Json>, n: nat)
    requires n <= |blocks|
  {
    forall i | 0 <= i < n :: BlockPasses(fields, blocks[i])
  }

  /** The event a block sends, if any. */
  function EventIn(j: Json): set<string> {
    var block := DecodeBlock(j);
    if block.Some? && EventOf(block.value).Some? then {EventOf(block.value).value} else {}
  }

  function UnionOf(items: seq<Json>, n: nat, each: Json -> set<string>): set<string>
    requires n <= |items|
  {
    if n == 0 then {} else UnionOf(items, n - 1, each) + each(items[n - 1])
  }

  lemma {:induction false} UnionIs(items: seq<Json>, n: nat, each: Json -> set<string>, e: string)
    requires n <= |items|
    ensures e in UnionOf(items, n, each) <==> exists i :: 0 <= i < n && e in each(items[i])
  {
    if n > 0 { UnionIs(items, n - 1, each, e); }
  }

  /** The events the first `n` blocks send. */
  function EmittedBy(blocks: seq<Json>, n: nat): set<string>
    requires n <= |blocks|
  {
    UnionOf(blocks, n, EventIn)
  }

  lemma {:induction false} OneMoreBlock(fields: map<string, Field>, blocks: seq<Json>, i: nat)
    requires i < |blocks|
    ensures BlocksPass(fields, blocks, i + 1) <==> BlocksPass(fields, blocks, i) && BlockPasses(fields, blocks[i])
    ensures EmittedBy(blocks, i + 1) == EmittedBy(blocks, i) + EventIn(blocks[i])
  {
  }

  lemma {:induction false} TypeIsOne(kind: FieldType)
    ensures kind in ALL_TYPES
  {
    match kind
    case AmountField =>
    case TextField =>
    case FriendField =>
    case FriendsField =>
    case ItemField =>
    case MessagesField =>
    case SendersField =>
    case SelectionField =>
    case MessageField =>
    case SenderField =>
    case SignatureField =>
    case FetchedField =>
  }

  lemma {:induction false} AnyType(fields: map<string, Field>, j: Json)
    ensures NamesOne(fields, Some(j), ALL_TYPES) <==> j.Str? && j.s in fields
  {
    if j.Str? && j.s in fields { TypeIsOne(fields[j.s].kind); }
  }

  lemma {:induction false} AssignByMember(fields: map<string, Field>, m: Members)
    ensures AssignPasses(fields, Some(Obj(m))) <==> forall f :: f in m ==> LiteralPasses(fields, f, m[f])
  {
    var decoded := DecodeAll(m, LiteralOf);
    if AssignPasses(fields, Some(Obj(m))) {
      forall f | f in m ensures LiteralPasses(fields, f, m[f]) { assert f in decoded.value; }
    }
    if forall f :: f in m ==> LiteralPasses(fields, f, m[f]) {
      assert decoded.Some?;
    }
  }

  predicate LiteralPasses(fields: map<string, Field>, name: string, j: Json) {
    LiteralOf(j).Some? && LiteralFits(fields, name, LiteralOf(j).value)
  }

  predicate NeedsPass(fields: map<string, Field>, j: Option<Json>) {
    NeedsOf(j).Some? && forall f | f in NeedsOf(j).value :: f in fields
  }

  predicate AssignPasses(fields: map<string, Field>, j: Option<Json>) {
    AssignOf(j).Some? && forall f | f in AssignOf(j).value :: LiteralFits(fields, f, AssignOf(j).value[f])
  }

  predicate TransitionPasses(fields: map<string, Field>, names: set<string>, j: Json) {
    DecodeTransition(j).Some? && TransitionFits(fields, names, DecodeTransition(j).value)
  }

  predicate EffectsPass(fields: map<string, Field>, all: Option<Json>, goodUrl: string -> bool) {
    && EffectsOf(all, goodUrl).Some?
    && forall k | k in EffectsOf(all, goodUrl).value :: EffectFits(fields, EffectsOf(all, goodUrl).value[k])
  }

  predicate EffectsOkay(fields: map<string, Field>, m: Members, done: set<string>, goodUrl: string -> bool) {
    forall k | k in done :: k in m && IsName(k) && EffectPasses(fields, m[k], goodUrl)
  }

  function DecodedEffects(m: Members, done: set<string>, goodUrl: string -> bool): map<string, Effect> {
    map k | k in m && k in done && DecodeEffect(m[k], goodUrl).Some? :: DecodeEffect(m[k], goodUrl).value
  }

  lemma {:induction false} OneMoreEffect(fields: map<string, Field>, m: Members, done: set<string>, id: string, goodUrl: string -> bool)
    requires id in m
    ensures EffectsOkay(fields, m, done + {id}, goodUrl) <==>
              EffectsOkay(fields, m, done, goodUrl) && IsName(id) && EffectPasses(fields, m[id], goodUrl)
    ensures DecodedEffects(m, done + {id}, goodUrl)
            == if DecodeEffect(m[id], goodUrl).Some? then DecodedEffects(m, done, goodUrl)[id := DecodeEffect(m[id], goodUrl).value]
               else DecodedEffects(m, done, goodUrl)
  {
  }

  lemma {:induction false} AllEffects(fields: map<string, Field>, all: Option<Json>, goodUrl: string -> bool)
    requires all.Some? && all.value.Obj?
    ensures var m := all.value.fields;
            && (EffectsPass(fields, all, goodUrl) <==> EffectsOkay(fields, m, m.Keys, goodUrl))
            && (EffectsPass(fields, all, goodUrl) ==> EffectsOf(all, goodUrl).value == DecodedEffects(m, m.Keys, goodUrl))
  {
    var m := all.value.fields;
    if EffectsPass(fields, all, goodUrl) {
      forall k | k in m ensures IsName(k) && EffectPasses(fields, m[k], goodUrl) {
        assert k in EffectsOf(all, goodUrl).value;
      }
    }
    if EffectsOkay(fields, m, m.Keys, goodUrl) {
      assert forall k :: k in m ==> EffectPasses(fields, m[k], goodUrl);
    }
  }

  // ----- what the checker is for -----

  /** Checker soundness: run under whatever order and network, a chart the checker takes only ever reaches configurations where everything is in place. */
  lemma {:induction false} AcceptedChartIsSound(raw: Json, size: Option<nat>, goodUrl: string -> bool, p: Program,
                                                trace: seq<Config>, events: seq<Event>, rans: seq<Option<ResolvedEffect>>, k: nat, event: Event)
    requires Accepts(raw, size, goodUrl) && p.chart == DecodeChart(raw, goodUrl).value
    requires Run(p, trace, events, rans) && k < |trace|
    ensures Inv(p, trace[k]) && !Begin(p).Stuck? && !Handle(p, trace[k], event).Stuck?
  {
    ReachedIsSound(p, trace, events, rans, k);
    SoundSteps(p, trace[k], event);
  }

  lemma {:induction false} SoundSteps(p: Program, c: Config, event: Event)
    requires Fits(p.chart) && Inv(p, c)
    ensures !Begin(p).Stuck? && !Handle(p, c, event).Stuck?
  {
    BeginGood(p);
    HandleGood(p, c, event);
  }
}
