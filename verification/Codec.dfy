/** The stored form of a plan specification: raw records with optional fields. */
module Codec {
  import opened Lifecycle
  import opened Words
  import opened Paths
  import opened PlanSpec
  import opened Stability

  /** One acceptance entry: a plain string of the legacy form, or a structured item. */
  datatype RawItem = Plaintext(description: string) | Structured(key: string, description: string)

  datatype RawFinal =
    | NoFinal
    | FinalList(items: seq<RawItem>)
    | FinalObject(acceptance: Option<seq<RawItem>>, commands: Option<seq<string>>)

  datatype RawTask = RawTask(
    key: Option<string>,
    title: string,
    dependsOn: Option<seq<string>>,
    scope: seq<string>,
    inputs: Option<seq<string>>,
    outputs: Option<seq<string>>,
    risks: Option<seq<string>>,
    acceptance: Option<seq<RawItem>>,
    commands: Option<seq<string>>)

  datatype RawSpec = RawSpec(
    version: Option<int>,
    compatibility: Option<bool>,
    title: string,
    summary: string,
    tasks: seq<RawTask>,
    final: RawFinal)

  // ---- decoding --------------------------------------------------------------------

  predicate Mixed(items: seq<RawItem>) {
    exists i, j | 0 <= i < |items| && 0 <= j < |items| :: items[i].Plaintext? && items[j].Structured?
  }

  predicate Legacy(items: Option<seq<RawItem>>) {
    items.Some? && items.value != [] && items.value[0].Plaintext?
  }

  function Item(r: RawItem): Criterion {
    match r
    case Plaintext(d) => Criterion("", d)
    case Structured(k, d) => Criterion(k, d)
  }

  function ItemList(items: seq<RawItem>): (r: seq<Criterion>)
    ensures |r| == |items| && forall i | 0 <= i < |items| :: r[i] == Item(items[i])
  {
    seq(|items|, i requires 0 <= i < |items| => Item(items[i]))
  }

  function DecodedCriteria(items: Option<seq<RawItem>>): Option<seq<Criterion>> {
    if items.Some? && !Legacy(items) then Some(ItemList(items.value)) else None
  }

  function DecodedDescriptions(items: Option<seq<RawItem>>): Option<seq<string>> {
    if Legacy(items) then Some(Descriptions(ItemList(items.value))) else None
  }

  function Or<T>(o: Option<T>, d: T): T { if o.Some? then o.value else d }

  function DecodedTask(r: RawTask): TaskSpec {
    TaskSpec(Or(r.key, ""), r.title, r.dependsOn, r.scope, r.inputs, r.outputs, r.risks, r.commands,
             DecodedDescriptions(r.acceptance), DecodedCriteria(r.acceptance))
  }

  predicate TaskLegacy(r: RawTask) {
    r.key.None? || r.dependsOn.None? || r.inputs.None? || r.outputs.None? || r.risks.None? || r.commands.None?
    || Legacy(r.acceptance)
  }

  function FinalItems(f: RawFinal): Option<seq<RawItem>> {
    match f
    case NoFinal => None
    case FinalList(items) => Some(items)
    case FinalObject(acceptance, _) => acceptance
  }

  predicate FinalLegacy(f: RawFinal) {
    Legacy(FinalItems(f)) || (f.FinalObject? && f.commands.None?)
  }

  predicate Malformed(r: RawSpec) {
    || (exists i | 0 <= i < |r.tasks| :: r.tasks[i].acceptance.Some? && Mixed(r.tasks[i].acceptance.value))
    || (FinalItems(r.final).Some? && Mixed(FinalItems(r.final).value))
  }

  /** toSpec: None is the error for lists that mix both kinds of entries. */
  function Decoded(r: RawSpec): Option<Spec> {
    if Malformed(r) then None
    else
      var legacy := exists i | 0 <= i < |r.tasks| :: TaskLegacy(r.tasks[i]);
      Some(Spec(
        Or(r.version, CURRENT_VERSION),
        r.version.None? || Or(r.compatibility, true) || legacy || FinalLegacy(r.final),
        r.title, r.summary,
        seq(|r.tasks|, i requires 0 <= i < |r.tasks| => DecodedTask(r.tasks[i])),
        DecodedDescriptions(FinalItems(r.final)), DecodedCriteria(FinalItems(r.final)),
        if r.final.FinalObject? then Or(r.final.commands, []) else []))
  }

  /** decodeAcceptance */
  method DecodeAcceptance(data: Option<seq<RawItem>>) returns (ok: bool, items: Option<seq<Criterion>>, legacy: bool)
    ensures ok <==> data.None? || !Mixed(data.value)
    ensures ok ==> legacy == Legacy(data)
    ensures ok ==> items == if data.Some? then Some(ItemList(data.value)) else None
  {
    if data.None? {
      return true, None, false;
    }
    var entries := data.value;
    var out: seq<Criterion> := [];
    legacy := false;
    var structured := false;
    for n := 0 to |entries|
      invariant |out| == n && forall i | 0 <= i < n :: out[i] == Item(entries[i])
      invariant legacy <==> exists i | 0 <= i < n :: entries[i].Plaintext?
      invariant structured <==> exists i | 0 <= i < n :: entries[i].Structured?
      invariant !(legacy && structured)
    {
      out := out + [Item(entries[n])];
      match entries[n] {
        case Plaintext(_) =>
          if structured {
            return false, None, legacy;
          }
          legacy := true;
        case Structured(_, _) =>
          if legacy {
            return false, None, legacy;
          }
          structured := true;
      }
    }
    assert out == ItemList(entries);
    return true, Some(out), legacy;
  }

  method ToSpec(raw: RawSpec) returns (spec: Option<Spec>)
    ensures spec == Decoded(raw)
  {
    hide Mixed, Legacy;
    var compatibility := raw.version.None? || raw.compatibility.None? || raw.compatibility.value;
    var mode := compatibility;
    var tasks: seq<TaskSpec> := [];
    for n := 0 to |raw.tasks|
      invariant |tasks| == n && forall i | 0 <= i < n :: tasks[i] == DecodedTask(raw.tasks[i])
      invariant mode <==> compatibility || exists i | 0 <= i < n :: TaskLegacy(raw.tasks[i])
      invariant forall i | 0 <= i < n :: raw.tasks[i].acceptance.None? || !Mixed(raw.tasks[i].acceptance.value)
    {
      var item := raw.tasks[n];
      var ok, items, legacy := DecodeAcceptance(item.acceptance);
      if !ok {
        return None;
      }
      if item.key.None? || item.dependsOn.None? || item.inputs.None? || item.outputs.None? || item.risks.None?
        || item.commands.None? || legacy
      {
        mode := true;
      }
      var task := TaskSpec(Or(item.key, ""), item.title, item.dependsOn, item.scope, item.inputs, item.outputs,
                           item.risks, item.commands, None, None);
      if legacy {
        task := task.(acceptance := DescriptionsOf(items));
      } else {
        task := task.(criteria := items);
      }
      LegacyShape(item.acceptance);
      tasks := tasks + [task];
    }
    assert tasks == seq(|raw.tasks|, i requires 0 <= i < |raw.tasks| => DecodedTask(raw.tasks[i]));
    var ok, items, legacy := DecodeAcceptance(FinalItems(raw.final));
    if !ok {
      return None;
    }
    if legacy || (raw.final.FinalObject? && raw.final.commands.None?) {
      mode := true;
    }
    LegacyShape(FinalItems(raw.final));
    spec := Some(Spec(Or(raw.version, CURRENT_VERSION), mode, raw.title, raw.summary, tasks,
                      if legacy then DescriptionsOf(items) else None, if legacy then None else items,
                      if raw.final.FinalObject? then Or(raw.final.commands, []) else []));
  }

  lemma LegacyShape(items: Option<seq<RawItem>>)
    ensures Legacy(items) ==> items.Some?
  {
  }

  // ---- what is decoded ------------------------------------------------------------------

  predicate AllText(items: seq<RawItem>) { forall i | 0 <= i < |items| :: items[i].Plaintext? }
  predicate AllItems(items: seq<RawItem>) { forall i | 0 <= i < |items| :: items[i].Structured? }

  /** How a list of acceptance entries is read: texts as descriptions alone, items, or an empty list, as
      criteria; without a list there is neither. */
  predicate ReadAs(items: Option<seq<RawItem>>, descriptions: Option<seq<string>>, criteria: Option<seq<Criterion>>) {
    match items
    case None => descriptions.None? && criteria.None?
    case Some(list) =>
      if list != [] && AllText(list) then
        && criteria.None? && descriptions.Some? && |descriptions.value| == |list|
        && forall i | 0 <= i < |list| :: list[i] == Plaintext(descriptions.value[i])
      else
        && descriptions.None? && criteria.Some? && |criteria.value| == |list|
        && forall i | 0 <= i < |list| :: list[i] == Structured(criteria.value[i].key, criteria.value[i].description)
  }

  /** The entries of the final validation: a bare list or the list of an object. */
  predicate FinalHas(f: RawFinal, items: Option<seq<RawItem>>) {
    && (f.NoFinal? ==> items == None)
    && (f.FinalList? ==> items == Some(f.items))
    && (f.FinalObject? ==> items == f.acceptance)
  }

  predicate TextList(items: Option<seq<RawItem>>) { items.Some? && items.value != [] && AllText(items.value) }

  predicate LacksFields(t: RawTask) {
    t.key.None? || t.dependsOn.None? || t.inputs.None? || t.outputs.None? || t.risks.None? || t.commands.None?
  }

  lemma ListReads(items: Option<seq<RawItem>>)
    ensures items.Some? && Mixed(items.value) <==> !(items.None? || AllText(items.value) || AllItems(items.value))
    ensures !(items.Some? && Mixed(items.value)) ==>
      ReadAs(items, DecodedDescriptions(items), DecodedCriteria(items)) && (Legacy(items) <==> TextList(items))
  {
    if items.Some? && !AllText(items.value) && !AllItems(items.value) {
      var j :| 0 <= j < |items.value| && !items.value[j].Plaintext?;
      var i :| 0 <= i < |items.value| && !items.value[i].Structured?;
      assert items.value[i].Plaintext? && items.value[j].Structured?;
    }
    if items.Some? && !Mixed(items.value) && items.value != [] && items.value[0].Structured? {
      assert forall i | 0 <= i < |items.value| :: items.value[i].Structured?;
    }
  }

  /** Decoding fails exactly for a list that mixes texts and items. What it returns has every field as it
      was given, with what is missing left out, and is in compatibility mode unless version, mode and every
      list of every task are given in the current form. */
  lemma DecodedReads(r: RawSpec, items: Option<seq<RawItem>>)
    requires FinalHas(r.final, items)
    ensures Decoded(r).Some? <==>
      && (items.None? || AllText(items.value) || AllItems(items.value))
      && forall i | 0 <= i < |r.tasks| && r.tasks[i].acceptance.Some? ::
           AllText(r.tasks[i].acceptance.value) || AllItems(r.tasks[i].acceptance.value)
    ensures Decoded(r).Some? ==>
      var s := Decoded(r).value;
      && s.title == r.title && s.summary == r.summary && s.version == (if r.version.Some? then r.version.value else 2)
      && ReadAs(items, s.finalValidation, s.finalCriteria)
      && s.finalCommands == (if r.final.FinalObject? && r.final.commands.Some? then r.final.commands.value else [])
      && |s.tasks| == |r.tasks|
      && (s.compatibility <==>
            || r.version.None? || r.compatibility != Some(false)
            || TextList(items) || (r.final.FinalObject? && r.final.commands.None?)
            || exists i | 0 <= i < |r.tasks| :: LacksFields(r.tasks[i]) || TextList(r.tasks[i].acceptance))
    ensures Decoded(r).Some? ==> forall i | 0 <= i < |r.tasks| :: var t, u := r.tasks[i], Decoded(r).value.tasks[i];
      && u.key == (if t.key.Some? then t.key.value else "") && u.title == t.title && u.scope == t.scope
      && u.dependsOn == t.dependsOn && u.inputs == t.inputs && u.outputs == t.outputs && u.risks == t.risks
      && u.commands == t.commands && ReadAs(t.acceptance, u.acceptance, u.criteria)
  {
    hide Mixed, Legacy, ReadAs, TextList, AllText, AllItems, DecodedCriteria, DecodedDescriptions;
    assert FinalItems(r.final) == items;
    ListReads(items);
    forall i | 0 <= i < |r.tasks| {
      ListReads(r.tasks[i].acceptance);
    }
  }

  // ---- encoding ---------------------------------------------------------------------------

  function RawItems(cs: seq<Criterion>): (r: seq<RawItem>)
    ensures |r| == |cs| && forall i | 0 <= i < |cs| :: r[i] == Structured(cs[i].key, cs[i].description)
  {
    seq(|cs|, i requires 0 <= i < |cs| => Structured(cs[i].key, cs[i].description))
  }

  /** Each task is prepared once more, on its own and in compatibility mode, when it is encoded. */
  function EncodedTask(a: Alphabet, t: TaskSpec): RawTask {
    var p := PreparedTask(a, t, 0, "", true);
    RawTask(Some(p.key), p.title, Some(Or(p.dependsOn, [])), p.scope, Some(Or(p.inputs, [])), Some(Or(p.outputs, [])),
            Some(Or(p.risks, [])), Some(RawItems(Or(p.criteria, []))), Some(Or(p.commands, [])))
  }

  function EncodedCriteria(cs: Option<seq<Criterion>>): Option<seq<RawItem>> {
    if cs.Some? then Some(RawItems(cs.value)) else None
  }

  function EncodedTasks(a: Alphabet, ts: seq<TaskSpec>): (rs: seq<RawTask>)
    ensures |rs| == |ts| && forall i | 0 <= i < |ts| :: rs[i] == EncodedTask(a, ts[i])
  {
    seq(|ts|, i requires 0 <= i < |ts| => EncodedTask(a, ts[i]))
  }

  function EncodedPrepared(a: Alphabet, p: Spec): RawSpec {
    RawSpec(Some(p.version), Some(p.compatibility), p.title, p.summary, EncodedTasks(a, p.tasks),
            FinalObject(EncodedCriteria(p.finalCriteria), Some(p.finalCommands)))
  }

  function Encoded(a: Alphabet, s: Spec): RawSpec { EncodedPrepared(a, Prepared(a, s)) }

  // ---- the round trip ----------------------------------------------------------------------

  lemma ItemsReturn(cs: seq<Criterion>)
    ensures !Mixed(RawItems(cs)) && !Legacy(Some(RawItems(cs)))
    ensures DecodedCriteria(Some(RawItems(cs))) == Some(cs) && DecodedDescriptions(Some(RawItems(cs))) == None
  {
    assert ItemList(RawItems(cs)) == cs;
  }

  /** Decoding an encoded prepared task gives the task without its derived descriptions. */
  lemma TaskReturns(a: Alphabet, t: TaskSpec)
    requires TaskForm(a, t) && t.key != "" && t.criteria.Some?
    ensures DecodedTask(EncodedTask(a, t)) == t.(acceptance := None) && !TaskLegacy(EncodedTask(a, t))
    ensures EncodedTask(a, t).acceptance.Some? && !Mixed(EncodedTask(a, t).acceptance.value)
  {
    hide KeyForm, ScopeForm, ListForm, CriteriaForm, PreparedTask, Mixed, Legacy, DecodedCriteria, DecodedDescriptions;
    TaskIdentity(a, t, t, 0, "", true);
    ItemsReturn(t.criteria.value);
  }

  /** Decoding what a prepared plan encodes to gives that plan, its scopes prepared once more,
      without the derived description lists. */
  lemma SpecReturns(a: Alphabet, p: Spec)
    requires SpecForm(a, p) && KeysPresent(p) && p.finalCriteria.Some?
    requires forall i | 0 <= i < |p.tasks| :: p.tasks[i].criteria.Some?
    ensures Decoded(Encoded(a, p)).Some? && SameSpec(Rescoped(p), Decoded(Encoded(a, p)).value)
  {
    hide TaskForm, PreparedTask, Prepared, CriteriaForm, ListForm, Scope, DecodedTask, EncodedTask, TaskLegacy, Mixed;
    var q := Rescoped(p);
    PreparedAgain(a, p, p);
    var r := Encoded(a, p);
    forall i | 0 <= i < |q.tasks|
      ensures DecodedTask(r.tasks[i]) == q.tasks[i].(acceptance := None) && !TaskLegacy(r.tasks[i])
      ensures r.tasks[i].acceptance.Some? && !Mixed(r.tasks[i].acceptance.value)
    {
      RescopedForm(a, p.tasks[i]);
      TaskReturns(a, q.tasks[i]);
    }
    ItemsReturn(q.finalCriteria.value);
    assert !Malformed(r);
    var d := Decoded(r).value;
    assert d.compatibility == q.compatibility;
    forall i | 0 <= i < |q.tasks| ensures SameTask(q.tasks[i], d.tasks[i]) {
    }
  }

  lemma RescopedForm(a: Alphabet, t: TaskSpec)
    requires TaskForm(a, t)
    ensures TaskForm(a, t.(scope := Scope(t.scope)))
  {
    ScopeHasForm(t.scope);
  }

  /** Encoding an accepted plan and decoding and validating the result gives the same plan back
      exactly when all its scope paths are stable. */
  lemma RoundTrip(a: Alphabet, s: Spec)
    requires Accepted(a, s)
    ensures var p := Prepared(a, s);
      var d := Decoded(Encoded(a, p));
      d.Some? && (Accepted(a, d.value) && Prepared(a, d.value) == p <==> ScopesStable(p))
  {
    hide Prepared, Rescoped, Violates, Accepted, AcceptedButScopes, SpecForm, ScopesStable, Decoded, Encoded, SameSpec, KeysPresent;
    var p := Prepared(a, s);
    PreparedForm(a, s);
    AcceptedIsBut(a, s);
    AcceptedKeys(a, s);
    SpecReturns(a, p);
    var d := Decoded(Encoded(a, p)).value;
    RescopedSpecForm(a, p);
    PreparedAgain(a, Rescoped(p), d);
    UnstableShrinks(a, p, Rescoped(p));
    if ScopesStable(p) {
      AcceptedAgain(a, s, d);
      StableValid(p);
    }
  }

  lemma RescopedSpecForm(a: Alphabet, p: Spec)
    requires SpecForm(a, p)
    ensures SpecForm(a, Rescoped(p)) && (KeysPresent(p) ==> KeysPresent(Rescoped(p)))
  {
    hide TaskForm, Scope;
    forall i | 0 <= i < |p.tasks| ensures TaskForm(a, Rescoped(p).tasks[i]) {
      RescopedForm(a, p.tasks[i]);
    }
  }
}
