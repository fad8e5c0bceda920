/**
 * What the normalizer of src/classes/bootstrap.ts guarantees: which raw
 * Target shapes it accepts and in which order, that its output is canonical
 * and decodes to the typed Target the engine walks, which inputs each field
 * getter reports, and what a normalized element and context look like.
 */
module NormalizerProperties {
  import opened Js
  import opened Xacml
  import opened Walker
  import opened Normalizer

  // ---------------------------------------------------------------------
  // Targets and conditions

  /** normalizeAnyOffArr tries the widest shape first: an AnyOf[] is kept as
      it is, an AnyOf, an AllOf and a lone expression are wrapped in one,
      two or three arrays, and anything else is rejected. */
  lemma NormalizePriority(v: Value)
    ensures NormalizeAnyOfArr(v) ==
              if IsAnyOfArr(v) then Some(v)
              else if IsAnyOf(v) then Some(Arr([v]))
              else if IsAllOf(v) then Some(Arr([Arr([v])]))
              else if v.Str? then Some(Arr([Arr([Arr([v])])]))
              else None
  {
    assert AllOfToAnyOfArr(v).Some? <==> IsAllOf(v);
    if v.Arr? {
      assert (forall k :: 0 <= k < |v.items| ==> AllOfToAnyOfArr(v.items[k]).Some?) <==> IsAnyOf(v);
      forall k | 0 <= k < |v.items|
        ensures AnyOfToAnyOfArr(v.items[k]).Some? <==> IsAnyOf(v.items[k])
      {
        var w := v.items[k];
        if w.Arr? {
          assert (forall j :: 0 <= j < |w.items| ==> AllOfToAnyOfArr(w.items[j]).Some?) <==> IsAnyOf(w);
        }
      }
    }
  }

  /** Every accepted Target is canonical, and normalizing it again changes
      nothing. */
  lemma NormalizeIsCanonical(v: Value)
    ensures NormalizeAnyOfArr(v).Some? ==> IsAnyOfArr(NormalizeAnyOfArr(v).value)
    ensures NormalizeAnyOfArr(v).Some? ==> NormalizeAnyOfArr(NormalizeAnyOfArr(v).value) == NormalizeAnyOfArr(v)
  {
    NormalizePriority(v);
    if NormalizeAnyOfArr(v).Some? {
      var w := NormalizeAnyOfArr(v).value;
      if !IsAnyOfArr(v) && !IsAnyOf(v) && IsAllOf(v) {
        assert IsAnyOf(Arr([v]));
      }
      if !IsAnyOfArr(v) && !IsAnyOf(v) && !IsAllOf(v) {
        assert IsAllOf(Arr([v]));
        assert IsAnyOf(Arr([Arr([v])]));
      }
      assert IsAnyOfArr(w);
      NormalizePriority(w);
    }
  }

  /** A Target normalizes iff it is a string or an array of one of the three
      nested shapes. */
  lemma NormalizeAccepts(v: Value)
    ensures NormalizeAnyOfArr(v).Some? <==> v.Str? || IsAllOf(v) || IsAnyOf(v) || IsAnyOfArr(v)
  {
    NormalizePriority(v);
  }

  lemma AllOfRoundTrip(a: AllOf)
    ensures IsAllOf(EncodeAllOf(a)) && DecodeAllOf(EncodeAllOf(a)) == a
  {
  }

  lemma AnyOfRoundTrip(a: AnyOf)
    ensures IsAnyOf(EncodeAnyOf(a)) && DecodeAnyOf(EncodeAnyOf(a)) == a
  {
    forall k | 0 <= k < |a|
      ensures IsAllOf(EncodeAnyOf(a).items[k]) && DecodeAllOf(EncodeAnyOf(a).items[k]) == a[k]
    {
      AllOfRoundTrip(a[k]);
    }
  }

  /** Decoding the JavaScript value of a typed Target gives it back. */
  lemma DecodeEncode(t: AnyOfArr)
    ensures Decode(Encode(t)) == Some(t)
  {
    forall k | 0 <= k < |t|
      ensures IsAnyOf(Encode(t).items[k]) && DecodeAnyOf(Encode(t).items[k]) == t[k]
    {
      AnyOfRoundTrip(t[k]);
    }
    assert IsAnyOfArr(Encode(t));
    var d := Decode(Encode(t)).value;
    assert |d| == |t|;
    assert forall k :: 0 <= k < |t| ==> d[k] == t[k];
    assert d == t;
  }

  lemma AnyOfDecodes(v: Value)
    requires IsAnyOf(v)
    ensures EncodeAnyOf(DecodeAnyOf(v)) == v
  {
    forall k | 0 <= k < |v.items|
      ensures EncodeAllOf(DecodeAllOf(v.items[k])) == v.items[k]
    {
      var w := v.items[k];
      assert EncodeAllOf(DecodeAllOf(w)).items == w.items;
    }
    assert EncodeAnyOf(DecodeAnyOf(v)).items == v.items;
  }

  /** Every canonical value is the encoding of the Target it decodes to, so
      the engine's typed Targets lose nothing of a normalized one. */
  lemma EncodeDecode(v: Value)
    requires IsAnyOfArr(v)
    ensures Encode(Decode(v).value) == v
  {
    forall k | 0 <= k < |v.items|
      ensures EncodeAnyOf(DecodeAnyOf(v.items[k])) == v.items[k]
    {
      AnyOfDecodes(v.items[k]);
    }
    assert Encode(Decode(v).value).items == v.items;
  }

  /** A lone expression is a Target of one AnyOf of one AllOf. */
  lemma StringTarget(s: string)
    ensures NormalizeAnyOfArr(Str(s)).Some?
    ensures Decode(NormalizeAnyOfArr(Str(s)).value) == Some([[[s]]])
  {
    NormalizePriority(Str(s));
    DecodeEncode([[[s]]]);
    assert EncodeAllOf([s]).items == [Str(s)];
    assert EncodeAnyOf([[s]]).items == [EncodeAllOf([s])];
    assert Encode([[[s]]]).items == [EncodeAnyOf([[s]])];
  }

  /** `[]` is accepted as the empty AnyOf[], which the walker evaluates to
      true for every expression oracle: it matches everything. */
  lemma EmptyArrayMatchesEverything(expr: string -> Truth)
    ensures NormalizeAnyOfArr(Arr([])) == Some(Arr([]))
    ensures Decode(Arr([])) == Some([])
    ensures AnyOfArrValue(expr, []) == True
  {
    NormalizePriority(Arr([]));
    assert |Decode(Arr([])).value| == 0;
  }

  // ---------------------------------------------------------------------
  // Field getters

  /** getId: the id is kept iff it is a number, a numeric value or a string;
      an error is appended iff the result is falsy, so 0 and "" are reported
      although they are kept. */
  lemma GetIdMeaning(fields: map<string, Value>, kind: string)
    ensures var raw := Field(fields, "id"); var c := GetId(fields, kind);
            (c.value == raw <==> IsNumber(raw) || raw.Str?) &&
            (c.value != raw ==> c.value == Null) &&
            (c.errors == [] <==> Truthy(c.value)) &&
            (c.errors != [] ==> c.errors == [ValidationError(kind, InvalidId)])
  {
  }

  lemma FalsyIdsAreReported(kind: string)
    ensures GetId(map["id" := Num(0)], kind) == Checked(Num(0), [ValidationError(kind, InvalidId)])
    ensures GetId(map["id" := Str("")], kind) == Checked(Str(""), [ValidationError(kind, InvalidId)])
    ensures GetId(map[], kind) == Checked(Null, [ValidationError(kind, InvalidId)])
    ensures GetId(map["id" := Bool(true)], kind) == Checked(Bool(true), [])
  {
    assert Field(map["id" := Num(0)], "id") == Num(0);
    assert Field(map["id" := Str("")], "id") == Str("");
    assert Field(map["id" := Bool(true)], "id") == Bool(true);
  }

  /** getEffect keeps exactly "Permit" and "Deny". */
  lemma GetEffectMeaning(fields: map<string, Value>, kind: string)
    ensures var raw := Field(fields, "effect"); var c := GetEffect(fields, kind);
            (raw == Str("Permit") || raw == Str("Deny") ==> c.value == raw) &&
            (!(raw == Str("Permit") || raw == Str("Deny")) ==> c.value == Null) &&
            (c.errors == [] <==> c.value != Null)
  {
    var raw := Field(fields, "effect");
    if raw.Str? && raw.s in Effects {
      assert raw.s == "Permit" || raw.s == "Deny";
    }
  }

  /** getCombiningAlgorithm keeps exactly the six built-in names, which are
      exactly the names the engine dispatches; OnlyOneApplicable is reported
      on anything but a PolicySet, and kept all the same. */
  lemma GetCombiningAlgorithmMeaning(fields: map<string, Value>, kind: string)
    ensures var raw := Field(fields, "combiningAlgorithm"); var c := GetCombiningAlgorithm(fields, kind);
            (AlgorithmOf(raw).BuiltIn? ==> c.value == raw) &&
            (!AlgorithmOf(raw).BuiltIn? ==> c.value == Null) &&
            (ValidationError(kind, InvalidCombiningAlgorithm) in c.errors <==> c.value == Null) &&
            (ValidationError(kind, OnlyOneApplicableOutsidePolicySet) in c.errors <==>
               raw == Str("OnlyOneApplicable") && kind != "PolicySet") &&
            |c.errors| <= 1
  {
    var raw := Field(fields, "combiningAlgorithm");
    if raw.Str? && raw.s in CombiningAlgorithms {
      assert AlgorithmOf(raw).BuiltIn?;
    }
    if AlgorithmOf(raw).BuiltIn? {
      assert raw.Str? && raw.s in CombiningAlgorithms;
    }
  }

  /** getTarget reports exactly the values normalizeAnyOffArr rejects. */
  lemma GetTargetMeaning(fields: map<string, Value>, kind: string)
    ensures var c := GetTarget(fields, kind);
            (c.errors == [] <==> NormalizeAnyOfArr(Field(fields, "target")).Some?) &&
            (c.value == Null || IsAnyOfArr(c.value)) &&
            (c.errors != [] ==> c.value == Null && c.errors == [ValidationError(kind, InvalidTarget)])
  {
    NormalizeIsCanonical(Field(fields, "target"));
  }

  lemma {:induction false} NormalizeIdsMeaning(items: seq<Value>)
    ensures |NormalizeIds(items)| == |items|
    ensures forall k :: 0 <= k < |items| ==> NormalizeIds(items)[k] == NormalizeId(items[k])
  {
    if |items| > 0 {
      NormalizeIdsMeaning(items[1..]);
      forall k | 0 < k < |items|
        ensures NormalizeIds(items)[k] == NormalizeId(items[k])
      {
        assert NormalizeIds(items)[k] == NormalizeIds(items[1..])[k - 1];
        assert items[1..][k - 1] == items[k];
      }
    }
  }

  lemma {:induction false} NormalizeUrlsMeaning(isUrl: Value -> bool, items: seq<Value>)
    ensures |NormalizeUrls(isUrl, items)| == |items|
    ensures forall k :: 0 <= k < |items| ==> NormalizeUrls(isUrl, items)[k] == NormalizeUrl(isUrl, items[k])
  {
    if |items| > 0 {
      NormalizeUrlsMeaning(isUrl, items[1..]);
      forall k | 0 < k < |items|
        ensures NormalizeUrls(isUrl, items)[k] == NormalizeUrl(isUrl, items[k])
      {
        assert NormalizeUrls(isUrl, items)[k] == NormalizeUrls(isUrl, items[1..])[k - 1];
        assert items[1..][k - 1] == items[k];
      }
    }
  }

  lemma {:induction false} AllTruthyMeaning(vs: seq<Value>)
    ensures AllTruthy(vs) <==> forall k :: 0 <= k < |vs| ==> Truthy(vs[k])
  {
    if |vs| > 0 {
      AllTruthyMeaning(vs[1..]);
      assert forall k :: 0 < k < |vs| ==> vs[k] == vs[1..][k - 1];
    }
  }

  /** getIds: a falsy list is empty; a truthy non-array throws; otherwise
      every entry is normalized in place, and one error is appended iff some
      entry is falsy. */
  lemma GetIdsMeaning(fields: map<string, Value>, key: string, kind: string)
    ensures var raw := Field(fields, key);
            GetIds(fields, key, kind).None? <==> Truthy(raw) && !raw.Arr?
    ensures !Truthy(Field(fields, key)) ==> GetIds(fields, key, kind) == Some(Checked(Arr([]), []))
    ensures var raw := Field(fields, key);
            raw.Arr? ==>
              var c := GetIds(fields, key, kind).value;
              c.value.Arr? && |c.value.items| == |raw.items| &&
              (forall k :: 0 <= k < |raw.items| ==> c.value.items[k] == NormalizeId(raw.items[k])) &&
              (c.errors == [] <==> forall k :: 0 <= k < |raw.items| ==> Truthy(NormalizeId(raw.items[k]))) &&
              (c.errors != [] ==> c.errors == [ValidationError(kind, InvalidIds(key))])
  {
    var raw := Field(fields, key);
    if raw.Arr? {
      NormalizeIdsMeaning(raw.items);
      AllTruthyMeaning(NormalizeIds(raw.items));
    }
  }

  /** getUrls: the same, with valid-url's check for each entry. */
  lemma GetUrlsMeaning(fields: map<string, Value>, key: string, kind: string, isUrl: Value -> bool)
    ensures var raw := Field(fields, key);
            GetUrls(fields, key, kind, isUrl).None? <==> Truthy(raw) && !raw.Arr?
    ensures var raw := Field(fields, key);
            raw.Arr? ==>
              var c := GetUrls(fields, key, kind, isUrl).value;
              c.value.Arr? && |c.value.items| == |raw.items| &&
              (forall k :: 0 <= k < |raw.items| ==>
                 c.value.items[k] == (if isUrl(raw.items[k]) then raw.items[k] else Null)) &&
              (c.errors == [] <==> forall k :: 0 <= k < |raw.items| ==> Truthy(NormalizeUrl(isUrl, raw.items[k]))) &&
              (c.errors != [] ==> c.errors == [ValidationError(kind, InvalidUrls(key))])
  {
    var raw := Field(fields, key);
    if raw.Arr? {
      NormalizeUrlsMeaning(isUrl, raw.items);
      AllTruthyMeaning(NormalizeUrls(isUrl, raw.items));
    }
  }

  // ---------------------------------------------------------------------
  // Elements

  /** A rule with a condition must not name a handler: the error is appended
      iff both are there (the condition after normalization, the handler id
      before it). */
  lemma ConditionWithHandlerMeaning(fields: map<string, Value>, compiles: Value -> bool)
    ensures ValidationError("Rule", ConditionWithHandler) in RuleHeadOf(fields, compiles).errors <==>
            Truthy(CompiledCondition(fields, compiles).value) && IsPresent(Field(fields, "handlerId"))
  {
    var target := CompiledTarget(fields, "Rule", compiles);
    var condition := CompiledCondition(fields, compiles);
    var id := GetId(fields, "Rule");
    var version := GetVersion(fields, "Rule");
    var effect := GetEffect(fields, "Rule");
    var e := ValidationError("Rule", ConditionWithHandler);
    assert e !in target.errors;
    assert e !in condition.errors;
    assert e !in id.errors + version.errors + effect.errors;
  }

  /** getRule throws only when the element is null or undefined or one of
      its id lists is a truthy non-array; every other error is appended and
      normalization goes on. */
  lemma RuleThrowsOnlyOn(element: Value, compiles: Value -> bool)
    ensures RuleOf(element, compiles).value.None? <==>
            !IsPresent(element) ||
            ListOf(FieldsOf(element), "obligationIds").None? ||
            ListOf(FieldsOf(element), "adviceIds").None?
  {
  }

  /** The fields getRule computes before its lists have their declared
      types, null where a check failed; with no error appended, id, version
      and effect are all valid. */
  lemma RuleHeadIsNormalized(fields: map<string, Value>, compiles: Value -> bool)
    ensures var head := RuleHeadOf(fields, compiles);
            head.effect in {Str("Permit"), Str("Deny"), Null} &&
            (head.target == Null || IsAnyOfArr(head.target)) &&
            (head.condition == Null || IsAnyOfArr(head.condition)) &&
            (head.errors == [] ==> Truthy(head.id) && Truthy(head.version) && head.effect != Null)
  {
    GetTargetMeaning(fields, "Rule");
    NormalizeIsCanonical(Field(fields, "condition"));
    GetEffectMeaning(fields, "Rule");
    var head := RuleHeadOf(fields, compiles);
    if head.errors == [] {
      assert GetId(fields, "Rule").errors == [];
      assert GetVersion(fields, "Rule").errors == [];
      assert GetEffect(fields, "Rule").errors == [];
    }
  }

  /** The object getRule assembles is a shallow copy of the element with
      the nine rule fields written over it. */
  lemma RuleObjectIsShallowCopy(fields: map<string, Value>, id: Value, version: Value, effect: Value,
                                target: Value, condition: Value, handlerId: Value,
                                obligationIds: Value, adviceIds: Value)
    ensures var r := RuleObject(fields, id, version, effect, target, condition, handlerId,
                                obligationIds, adviceIds);
            r.Obj? && (forall k :: k in fields ==> k in r.fields) &&
            (forall k :: k in fields && k !in RuleKeys ==> r.fields[k] == fields[k])
  {
  }

  lemma RuleObjectFields(fields: map<string, Value>, id: Value, version: Value, effect: Value,
                         target: Value, condition: Value, handlerId: Value,
                         obligationIds: Value, adviceIds: Value)
    ensures var r := RuleObject(fields, id, version, effect, target, condition, handlerId,
                                obligationIds, adviceIds);
            r.fields["id"] == id && r.fields["version"] == version && r.fields["effect"] == effect &&
            r.fields["target"] == target && r.fields["condition"] == condition &&
            r.fields["obligationIds"] == obligationIds && r.fields["adviceIds"] == adviceIds &&
            r.fields["handlerId"] == handlerId && r.fields["description"] == GetDescription(fields)
  {
    RuleObjectHeadFields(fields, id, version, effect, target, condition, handlerId, obligationIds, adviceIds);
    RuleObjectHandlerFields(fields, id, version, effect, target, condition, handlerId, obligationIds, adviceIds);
    RuleObjectEffectField(fields, id, version, effect, target, condition, handlerId, obligationIds, adviceIds);
    RuleObjectExpressionFields(fields, id, version, effect, target, condition, handlerId, obligationIds, adviceIds);
    RuleObjectListFields(fields, id, version, effect, target, condition, handlerId, obligationIds, adviceIds);
  }

  lemma RuleObjectHeadFields(fields: map<string, Value>, id: Value, version: Value, effect: Value,
                             target: Value, condition: Value, handlerId: Value,
                             obligationIds: Value, adviceIds: Value)
    ensures var r := RuleObject(fields, id, version, effect, target, condition, handlerId,
                                obligationIds, adviceIds);
            r.fields["id"] == id && r.fields["version"] == version
  {
    var m := map["id" := id, "version" := version, "effect" := effect,
                 "description" := GetDescription(fields), "target" := target,
                 "condition" := condition, "handlerId" := handlerId,
                 "obligationIds" := obligationIds, "adviceIds" := adviceIds];
    assert m["id"] == id && m["version"] == version;
    assert RuleObject(fields, id, version, effect, target, condition, handlerId, obligationIds, adviceIds).fields
        == fields + m;
  }

  lemma RuleObjectHandlerFields(fields: map<string, Value>, id: Value, version: Value, effect: Value,
                                target: Value, condition: Value, handlerId: Value,
                                obligationIds: Value, adviceIds: Value)
    ensures var r := RuleObject(fields, id, version, effect, target, condition, handlerId,
                                obligationIds, adviceIds);
            r.fields["handlerId"] == handlerId && r.fields["description"] == GetDescription(fields)
  {
    var m := map["id" := id, "version" := version, "effect" := effect,
                 "description" := GetDescription(fields), "target" := target,
                 "condition" := condition, "handlerId" := handlerId,
                 "obligationIds" := obligationIds, "adviceIds" := adviceIds];
    assert m["handlerId"] == handlerId && m["description"] == GetDescription(fields);
    assert RuleObject(fields, id, version, effect, target, condition, handlerId, obligationIds, adviceIds).fields
        == fields + m;
  }

  lemma RuleObjectEffectField(fields: map<string, Value>, id: Value, version: Value, effect: Value,
                              target: Value, condition: Value, handlerId: Value,
                              obligationIds: Value, adviceIds: Value)
    ensures var r := RuleObject(fields, id, version, effect, target, condition, handlerId,
                                obligationIds, adviceIds);
            r.fields["effect"] == effect
  {
  }

  lemma RuleObjectExpressionFields(fields: map<string, Value>, id: Value, version: Value, effect: Value,
                                   target: Value, condition: Value, handlerId: Value,
                                   obligationIds: Value, adviceIds: Value)
    ensures var r := RuleObject(fields, id, version, effect, target, condition, handlerId,
                                obligationIds, adviceIds);
            r.fields["target"] == target && r.fields["condition"] == condition
  {
  }

  lemma RuleObjectListFields(fields: map<string, Value>, id: Value, version: Value, effect: Value,
                             target: Value, condition: Value, handlerId: Value,
                             obligationIds: Value, adviceIds: Value)
    ensures var r := RuleObject(fields, id, version, effect, target, condition, handlerId,
                                obligationIds, adviceIds);
            r.fields["obligationIds"] == obligationIds && r.fields["adviceIds"] == adviceIds
  {
  }

  /** When getRule does not throw, its result is that object, built from the
      head fields and the two id lists. */
  lemma RuleOfAssembles(element: Value, compiles: Value -> bool)
    requires RuleOf(element, compiles).value.Some?
    ensures var fields := FieldsOf(element);
            var head := RuleHeadOf(fields, compiles);
            var o := GetIds(fields, "obligationIds", "Rule");
            var a := GetIds(fields, "adviceIds", "Rule");
            o.Some? && a.Some? &&
            RuleOf(element, compiles) ==
              Normalized(Some(RuleObject(fields, head.id, head.version, head.effect, head.target,
                                         head.condition, head.handlerId, o.value.value, a.value.value)),
                         head.errors + o.value.errors + a.value.errors)
  {
  }

  /** The normalized rule: the element with its known fields replaced by
      normalized values, other fields copied, both id lists arrays; with no
      error appended, id, version and effect are valid. A handler id that is
      neither a number nor a string becomes null without an error. */
  lemma RuleIsNormalized(element: Value, compiles: Value -> bool)
    requires RuleOf(element, compiles).value.Some?
    ensures var r := RuleOf(element, compiles).value.value;
            var f := FieldsOf(element);
            r.Obj? && (forall k :: k in f ==> k in r.fields) &&
            (forall k :: k in f && k !in RuleKeys ==> r.fields[k] == f[k]) &&
            r.fields["effect"] in {Str("Permit"), Str("Deny"), Null} &&
            (r.fields["target"] == Null || IsAnyOfArr(r.fields["target"])) &&
            (r.fields["condition"] == Null || IsAnyOfArr(r.fields["condition"])) &&
            r.fields["obligationIds"].Arr? && r.fields["adviceIds"].Arr?
    ensures var r := RuleOf(element, compiles).value.value;
            RuleOf(element, compiles).errors == [] ==>
              Truthy(r.fields["id"]) && Truthy(r.fields["version"]) && r.fields["effect"] != Null
    ensures var r := RuleOf(element, compiles).value.value;
            var f := FieldsOf(element);
            r.fields["description"] == GetDescription(f) &&
            r.fields["handlerId"]
              == (if IsPresent(Field(f, "handlerId")) then NormalizeId(Field(f, "handlerId")) else Null) &&
            (r.fields["handlerId"] == Null || IsNumber(r.fields["handlerId"]) || r.fields["handlerId"].Str?)
  {
    var fields := FieldsOf(element);
    var head := RuleHeadOf(fields, compiles);
    RuleOfAssembles(element, compiles);
    RuleHeadIsNormalized(fields, compiles);
    GetIdsMeaning(fields, "obligationIds", "Rule");
    GetIdsMeaning(fields, "adviceIds", "Rule");
    var o := GetIds(fields, "obligationIds", "Rule").value;
    var a := GetIds(fields, "adviceIds", "Rule").value;
    RuleObjectIsShallowCopy(fields, head.id, head.version, head.effect, head.target,
                            head.condition, head.handlerId, o.value, a.value);
    RuleObjectFields(fields, head.id, head.version, head.effect, head.target,
                     head.condition, head.handlerId, o.value, a.value);
  }

  const RuleKeys: set<string> :=
    {"id", "version", "effect", "description", "target", "condition", "handlerId", "obligationIds", "adviceIds"}

  /** getPolicy and getPolicySet throw only on a missing element or a truthy
      non-array list, and keep a non-built-in algorithm as null. */
  lemma PolicyThrowsOnlyOn(element: Value, compiles: Value -> bool, isUrl: Value -> bool)
    ensures var f := FieldsOf(element);
            PolicyOf(element, compiles, isUrl).value.None? <==>
            !IsPresent(element) || ListOf(f, "ruleIds").None? || ListOf(f, "ruleUrls").None? ||
            ListOf(f, "obligationIds").None? || ListOf(f, "adviceIds").None?
    ensures var f := FieldsOf(element);
            PolicySetOf(element, compiles, isUrl).value.None? <==>
            !IsPresent(element) || ListOf(f, "policySetIds").None? || ListOf(f, "policySetUrls").None? ||
            ListOf(f, "policyIds").None? || ListOf(f, "policyUrls").None? ||
            ListOf(f, "obligationIds").None? || ListOf(f, "adviceIds").None?
  {
  }

  /** getPolicySet accepts OnlyOneApplicable silently; getPolicy keeps it and
      reports it. */
  lemma OnlyOneApplicableOnlyOnPolicySets(element: Value, compiles: Value -> bool, isUrl: Value -> bool)
    requires element.Obj? && Field(element.fields, "combiningAlgorithm") == Str("OnlyOneApplicable")
    ensures ValidationError("Policy", OnlyOneApplicableOutsidePolicySet) in PolicyOf(element, compiles, isUrl).errors
    ensures ValidationError("PolicySet", OnlyOneApplicableOutsidePolicySet) !in PolicySetOf(element, compiles, isUrl).errors
  {
    var fields := element.fields;
    GetCombiningAlgorithmMeaning(fields, "Policy");
    GetCombiningAlgorithmMeaning(fields, "PolicySet");
    var head := PolicyHeadOf(fields, "Policy", compiles);
    assert ValidationError("Policy", OnlyOneApplicableOutsidePolicySet) in head.errors;
    var setHead := PolicyHeadOf(fields, "PolicySet", compiles);
    var e := ValidationError("PolicySet", OnlyOneApplicableOutsidePolicySet);
    assert e !in setHead.errors;
    var rest := PolicySetFrom(fields, setHead, isUrl);
    assert e !in rest.errors by {
      PolicySetListsNeverReportAlgorithms(fields, setHead, isUrl);
    }
  }

  predicate OnlyListErrors(es: seq<ValidationError>)
  {
    forall e :: e in es ==> e.problem.InvalidIds? || e.problem.InvalidUrls?
  }

  lemma PolicySetTailReportsOnlyLists(fields: map<string, Value>, head: PolicyHead, isUrl: Value -> bool,
                                      policySetIds: Value, policySetUrls: Value, policyIds: Value)
    ensures OnlyListErrors(PolicySetTail(fields, head, isUrl, policySetIds, policySetUrls, policyIds).errors)
  {
    match GetUrls(fields, "policyUrls", "PolicySet", isUrl)
    case None =>
    case Some(u) =>
      assert OnlyListErrors(u.errors);
      match GetIds(fields, "obligationIds", "PolicySet")
      case None =>
      case Some(o) =>
        assert OnlyListErrors(o.errors);
        match GetIds(fields, "adviceIds", "PolicySet")
        case None =>
        case Some(d) =>
          assert OnlyListErrors(d.errors);
          assert PolicySetTail(fields, head, isUrl, policySetIds, policySetUrls, policyIds).errors
              == u.errors + o.errors + d.errors;
  }

  lemma PolicySetListsNeverReportAlgorithms(fields: map<string, Value>, head: PolicyHead, isUrl: Value -> bool)
    ensures OnlyListErrors(PolicySetFrom(fields, head, isUrl).errors)
  {
    match GetIds(fields, "policySetIds", "PolicySet")
    case None =>
    case Some(a) =>
      assert OnlyListErrors(a.errors);
      match GetUrls(fields, "policySetUrls", "PolicySet", isUrl)
      case None =>
      case Some(b) =>
        assert OnlyListErrors(b.errors);
        match GetIds(fields, "policyIds", "PolicySet")
        case None =>
        case Some(c) =>
          assert OnlyListErrors(c.errors);
          PolicySetTailReportsOnlyLists(fields, head, isUrl, a.value, b.value, c.value);
  }

  /** A subject without an id is an unauthenticated user: its id becomes null
      and nothing is reported. */
  lemma AnonymousSubject(fields: map<string, Value>)
    requires "id" !in fields
    ensures SubjectOf(Obj(fields)) == Normalized(Some(Obj(fields + map["id" := Null])), [])
  {
  }

  /** getObligation and getAdvice: an absent version, a falsy effect and a
      falsy attribute map are left null without an error; id and handler
      are required. */
  lemma ObligationOptionalFields(fields: map<string, Value>, kind: string)
    requires !IsPresent(Field(fields, "version")) && !Truthy(Field(fields, "effect"))
             && !Truthy(Field(fields, "attributeMap"))
    ensures var n := ObligationOf(Obj(fields), kind);
            n.value.Some? &&
            n.value.value.fields["version"] == Null &&
            n.value.value.fields["effect"] == Null &&
            n.value.value.fields["attributeMap"] == Null &&
            n.errors == GetId(fields, kind).errors + GetHandler(fields, kind).errors
  {
  }

  /** getRuleHandler names its element "RuleHandlers" in a version error,
      and "RuleHandler" in every other. */
  lemma RuleHandlerErrorKinds(fields: map<string, Value>)
    ensures var n := RuleHandlerOf(Obj(fields));
            n.value.Some? &&
            (ValidationError("RuleHandlers", InvalidVersion) in n.errors <==>
               !Truthy(NormalizeVersion(Field(fields, "version")))) &&
            (forall e :: e in n.errors && e.problem != InvalidVersion ==> e.kind == "RuleHandler")
  {
    RuleHandlerVersionError(fields);
    RuleHandlerOtherKinds(fields);
  }

  lemma RuleHandlerVersionError(fields: map<string, Value>)
    ensures ValidationError("RuleHandlers", InvalidVersion) in RuleHandlerOf(Obj(fields)).errors <==>
            !Truthy(NormalizeVersion(Field(fields, "version")))
  {
  }

  lemma RuleHandlerOtherKinds(fields: map<string, Value>)
    ensures forall e :: e in RuleHandlerOf(Obj(fields)).errors && e.problem != InvalidVersion ==>
              e.kind == "RuleHandler"
  {
  }

  /** getContext succeeds iff action, resource and subject are all present. */
  lemma ContextThrowsOnlyOn(fields: map<string, Value>, httpMethods: seq<string>)
    ensures ContextOf(fields, httpMethods).value.Some? <==>
            IsPresent(Field(fields, "action")) && IsPresent(Field(fields, "resource")) &&
            IsPresent(Field(fields, "subject"))
  {
  }

  /** On success getContext turns each return flag into a boolean that is
      true only for a literal true, and starts the three result lists empty. */
  lemma ContextFlags(fields: map<string, Value>, httpMethods: seq<string>)
    requires ContextOf(fields, httpMethods).value.Some?
    ensures var c := ContextOf(fields, httpMethods).value.value.fields;
            (c["returnReason"] == Bool(true) <==> Field(fields, "returnReason") == Bool(true)) &&
            c["returnReason"].Bool? &&
            (c["returnPolicyList"] == Bool(true) <==> Field(fields, "returnPolicyList") == Bool(true)) &&
            c["returnPolicyList"].Bool? &&
            (c["returnAdviceResults"] == Bool(true) <==> Field(fields, "returnAdviceResults") == Bool(true)) &&
            c["returnAdviceResults"].Bool? &&
            (c["returnObligationResults"] == Bool(true) <==> Field(fields, "returnObligationResults") == Bool(true)) &&
            c["returnObligationResults"].Bool? &&
            c["policyList"] == Arr([]) && c["adviceResults"] == Arr([]) && c["obligationResults"] == Arr([])
  {
    var a := ActionOf(Field(fields, "action"), httpMethods).value.value;
    var r := ResourceOf(Field(fields, "resource")).value.value;
    var sub := SubjectOf(Field(fields, "subject")).value.value;
    ContextOfAssembles(fields, httpMethods);
    ContextReasonLookup(fields, a, r, sub);
    ContextPolicyListLookup(fields, a, r, sub);
    ContextAdviceLookup(fields, a, r, sub);
    ContextObligationLookup(fields, a, r, sub);
    ContextListLookups(fields, a, r, sub);
  }

  lemma ContextOfAssembles(fields: map<string, Value>, httpMethods: seq<string>)
    requires ContextOf(fields, httpMethods).value.Some?
    ensures ContextOf(fields, httpMethods).value.value.fields ==
            ContextFields(fields, ActionOf(Field(fields, "action"), httpMethods).value.value,
                       ResourceOf(Field(fields, "resource")).value.value,
                       SubjectOf(Field(fields, "subject")).value.value)
  {
  }

  lemma ContextReasonLookup(fields: map<string, Value>, a: Value, r: Value, sub: Value)
    ensures ContextFields(fields, a, r, sub)["returnReason"] == NormalizeBoolean(Field(fields, "returnReason"))
  {
  }

  lemma ContextPolicyListLookup(fields: map<string, Value>, a: Value, r: Value, sub: Value)
    ensures ContextFields(fields, a, r, sub)["returnPolicyList"]
         == NormalizeBoolean(Field(fields, "returnPolicyList"))
  {
  }

  lemma ContextAdviceLookup(fields: map<string, Value>, a: Value, r: Value, sub: Value)
    ensures ContextFields(fields, a, r, sub)["returnAdviceResults"]
         == NormalizeBoolean(Field(fields, "returnAdviceResults"))
  {
  }

  lemma ContextObligationLookup(fields: map<string, Value>, a: Value, r: Value, sub: Value)
    ensures ContextFields(fields, a, r, sub)["returnObligationResults"]
         == NormalizeBoolean(Field(fields, "returnObligationResults"))
  {
  }

  lemma ContextListLookups(fields: map<string, Value>, a: Value, r: Value, sub: Value)
    ensures var c := ContextFields(fields, a, r, sub);
            c["policyList"] == Arr([]) && c["adviceResults"] == Arr([]) && c["obligationResults"] == Arr([])
  {
  }
}
