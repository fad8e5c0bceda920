/**
 * The normalizer of src/classes/bootstrap.ts: it turns raw, loosely typed
 * policy documents into canonical elements, field by field. A field that
 * fails its check becomes null and appends one error to the caller's error
 * list; later fields are still processed. Only reading a property of null
 * or undefined, or mapping over a truthy non-array id list, throws.
 *
 * Each field getter is a function returning its value together with the
 * errors it appends (`Checked`); each element normalizer is a function
 * returning the element, or None when it throws, with the errors appended
 * before that point (`Normalized`), and a method that appends those errors
 * to an `ErrorList` step by step. Algorithm, effect and HTTP method
 * constants are their names as strings.
 */
module Normalizer {
  import opened Js
  import opened Xacml

  datatype Problem =
    | InvalidId
    | InvalidVersion
    | InvalidEffect
    | InvalidTarget
    | TargetNotCompiled
    | InvalidCondition
    | ConditionNotCompiled
    | ConditionWithHandler
    | InvalidCombiningAlgorithm
    | OnlyOneApplicableOutsidePolicySet
    | InvalidIds(key: string)
    | InvalidUrls(key: string)
    | InvalidHandler
    | InvalidHttpMethod
    | InvalidAttributeMap

  /** One pushed error: the element type named in the message and what was wrong. */
  datatype ValidationError = ValidationError(kind: string, problem: Problem)

  /** A field getter's value and the errors it appends. */
  datatype Checked = Checked(value: Value, errors: seq<ValidationError>)

  /** An element normalizer's result (None when it throws) and the errors it
      appended up to that point. */
  datatype Normalized = Normalized(value: Option<Value>, errors: seq<ValidationError>)

  /** The caller-owned `errors: Error[]` array. */
  class ErrorList {
    var items: seq<ValidationError>

    constructor()
      ensures items == []
    {
      items := [];
    }

    method PushAll(es: seq<ValidationError>)
      modifies this
      ensures items == old(items) + es
    {
      items := items + es;
    }
  }

  /** The own enumerable properties Object.assign copies from a source value.
      String and array elements are taken to have none: the index properties
      it would copy from them are not modelled. */
  function FieldsOf(v: Value): map<string, Value>
  {
    if v.Obj? then v.fields else map[]
  }

  /** `if (!x) errors.push(...)`: no error when ok. */
  function Report(ok: bool, kind: string, p: Problem): seq<ValidationError>
  {
    if ok then [] else [ValidationError(kind, p)]
  }

  // ---------------------------------------------------------------------
  // Value normalizers

  const CombiningAlgorithms: seq<string> :=
    ["DenyOverrides", "PermitOverrides", "DenyUnlessPermit", "PermitUnlessDeny",
     "FirstApplicable", "OnlyOneApplicable"]

  const Effects: seq<string> := ["Permit", "Deny"]

  function NormalizeString(v: Value): Value
  {
    if v.Str? then v else Null
  }

  /** `isUrl` is npm's valid-url check. */
  function NormalizeUrl(isUrl: Value -> bool, v: Value): Value
  {
    if isUrl(v) then v else Null
  }

  function NormalizeBoolean(v: Value): Value
  {
    Bool(v == Bool(true))
  }

  function NormalizeObject(v: Value): Value
  {
    if IsObject(v) then v else Null
  }

  function NormalizeId(v: Value): Value
  {
    if IsNumber(v) || v.Str? then v else Null
  }

  function NormalizeVersion(v: Value): Value
  {
    if v.Str? || IsNumber(v) then v else Null
  }

  function NormalizeEffect(v: Value): Value
  {
    if v.Str? && v.s in Effects then v else Null
  }

  function NormalizeCombiningAlgorithm(v: Value): Value
  {
    if v.Str? && v.s in CombiningAlgorithms then v else Null
  }

  function NormalizeHandler(v: Value): Value
  {
    if v.Fn? || v.Str? then v else Null
  }

  function NormalizeHttpMethod(httpMethods: seq<string>, v: Value): Value
  {
    if v.Str? && v.s in httpMethods then v else Null
  }

  /** The engine's view of a `combiningAlgorithm` value. */
  function AlgorithmOf(v: Value): AlgorithmRef
  {
    match v
    case Str("DenyOverrides") => BuiltIn(DenyOverrides)
    case Str("PermitOverrides") => BuiltIn(PermitOverrides)
    case Str("DenyUnlessPermit") => BuiltIn(DenyUnlessPermit)
    case Str("PermitUnlessDeny") => BuiltIn(PermitUnlessDeny)
    case Str("FirstApplicable") => BuiltIn(FirstApplicable)
    case Str("OnlyOneApplicable") => BuiltIn(OnlyOneApplicable)
    case _ => Other(v)
  }

  // ---------------------------------------------------------------------
  // Targets and conditions

  /** stringToAnyOfArr */
  function StringToAnyOfArr(v: Value): Option<Value>
  {
    if v.Str? then Some(Arr([Arr([Arr([v])])])) else None
  }

  /** allOfToAnyOffArr: an array of strings. */
  function AllOfToAnyOfArr(v: Value): Option<Value>
  {
    if v.Arr? && forall k :: 0 <= k < |v.items| ==> v.items[k].Str? then Some(Arr([Arr([v])])) else None
  }

  /** anyOfToAnyOffArr: an array every element of which passes allOfToAnyOffArr. */
  function AnyOfToAnyOfArr(v: Value): Option<Value>
  {
    if v.Arr? && forall k :: 0 <= k < |v.items| ==> AllOfToAnyOfArr(v.items[k]).Some? then Some(Arr([v])) else None
  }

  /** anyOfArrToAnyOffArr: an array every element of which passes anyOfToAnyOffArr. */
  function AnyOfArrToAnyOfArr(v: Value): Option<Value>
  {
    if v.Arr? && forall k :: 0 <= k < |v.items| ==> AnyOfToAnyOfArr(v.items[k]).Some? then Some(v) else None
  }

  /** normalizeAnyOffArr: the first shape that fits, widest first. */
  function NormalizeAnyOfArr(v: Value): Option<Value>
  {
    var a := AnyOfArrToAnyOfArr(v);
    if a.Some? then a
    else
      var b := AnyOfToAnyOfArr(v);
      if b.Some? then b
      else
        var c := AllOfToAnyOfArr(v);
        if c.Some? then c else StringToAnyOfArr(v)
  }

  /** The canonical shapes, as predicates. */
  predicate IsAllOf(v: Value)
  {
    v.Arr? && forall k :: 0 <= k < |v.items| ==> v.items[k].Str?
  }

  predicate IsAnyOf(v: Value)
  {
    v.Arr? && forall k :: 0 <= k < |v.items| ==> IsAllOf(v.items[k])
  }

  predicate IsAnyOfArr(v: Value)
  {
    v.Arr? && forall k :: 0 <= k < |v.items| ==> IsAnyOf(v.items[k])
  }

  function EncodeAllOf(a: AllOf): Value
  {
    Arr(seq(|a|, k requires 0 <= k < |a| => Str(a[k])))
  }

  function EncodeAnyOf(a: AnyOf): Value
  {
    Arr(seq(|a|, k requires 0 <= k < |a| => EncodeAllOf(a[k])))
  }

  /** A typed Target as the JavaScript value it is. */
  function Encode(t: AnyOfArr): Value
  {
    Arr(seq(|t|, k requires 0 <= k < |t| => EncodeAnyOf(t[k])))
  }

  function DecodeAllOf(v: Value): AllOf
    requires IsAllOf(v)
  {
    seq(|v.items|, k requires 0 <= k < |v.items| => v.items[k].s)
  }

  function DecodeAnyOf(v: Value): AnyOf
    requires IsAnyOf(v)
  {
    seq(|v.items|, k requires 0 <= k < |v.items| => DecodeAllOf(v.items[k]))
  }

  /** A canonical value as the typed Target the engine walks. */
  function Decode(v: Value): (r: Option<AnyOfArr>)
    ensures r.Some? <==> IsAnyOfArr(v)
  {
    if IsAnyOfArr(v) then Some(seq(|v.items|, k requires 0 <= k < |v.items| => DecodeAnyOf(v.items[k])))
    else None
  }

  // ---------------------------------------------------------------------
  // Field getters

  function GetId(fields: map<string, Value>, kind: string): Checked
  {
    var id := NormalizeId(Field(fields, "id"));
    Checked(id, Report(Truthy(id), kind, InvalidId))
  }

  function GetVersion(fields: map<string, Value>, kind: string): Checked
  {
    var version := NormalizeVersion(Field(fields, "version"));
    Checked(version, Report(Truthy(version), kind, InvalidVersion))
  }

  function GetEffect(fields: map<string, Value>, kind: string): Checked
  {
    var effect := NormalizeEffect(Field(fields, "effect"));
    Checked(effect, Report(Truthy(effect), kind, InvalidEffect))
  }

  /** getDescription never reports. */
  function GetDescription(fields: map<string, Value>): Value
  {
    NormalizeString(Field(fields, "description"))
  }

  function GetTarget(fields: map<string, Value>, kind: string): Checked
  {
    var target := NormalizeAnyOfArr(Field(fields, "target"));
    Checked(if target.Some? then target.value else Null, Report(target.Some?, kind, InvalidTarget))
  }

  function GetCondition(fields: map<string, Value>): Checked
  {
    var condition := NormalizeAnyOfArr(Field(fields, "condition"));
    Checked(if condition.Some? then condition.value else Null, Report(condition.Some?, "Rule", InvalidCondition))
  }

  function GetCombiningAlgorithm(fields: map<string, Value>, kind: string): Checked
  {
    var algorithm := NormalizeCombiningAlgorithm(Field(fields, "combiningAlgorithm"));
    Checked(algorithm,
            Report(Truthy(algorithm), kind, InvalidCombiningAlgorithm) +
            Report(!(algorithm == Str("OnlyOneApplicable") && kind != "PolicySet"), kind,
                   OnlyOneApplicableOutsidePolicySet))
  }

  /** `(element[key] || []).map(...)`: a missing list is empty; a truthy
      value that is not an array has no `map` and throws (None). */
  function ListOf(fields: map<string, Value>, key: string): Option<seq<Value>>
  {
    var raw := Field(fields, key);
    if !Truthy(raw) then Some([]) else if raw.Arr? then Some(raw.items) else None
  }

  /** `list.map(normalizeId)` */
  function NormalizeIds(items: seq<Value>): seq<Value>
  {
    if |items| == 0 then [] else [NormalizeId(items[0])] + NormalizeIds(items[1..])
  }

  /** `list.map(normalizeUrl)` */
  function NormalizeUrls(isUrl: Value -> bool, items: seq<Value>): seq<Value>
  {
    if |items| == 0 then [] else [NormalizeUrl(isUrl, items[0])] + NormalizeUrls(isUrl, items[1..])
  }

  /** `list.every(x => x)` */
  predicate AllTruthy(vs: seq<Value>)
  {
    |vs| == 0 || (Truthy(vs[0]) && AllTruthy(vs[1..]))
  }

  function GetIds(fields: map<string, Value>, key: string, kind: string): Option<Checked>
  {
    match ListOf(fields, key)
    case None => None
    case Some(items) =>
      var ids := NormalizeIds(items);
      Some(Checked(Arr(ids), Report(AllTruthy(ids), kind, InvalidIds(key))))
  }

  function GetUrls(fields: map<string, Value>, key: string, kind: string, isUrl: Value -> bool): Option<Checked>
  {
    match ListOf(fields, key)
    case None => None
    case Some(items) =>
      var urls := NormalizeUrls(isUrl, items);
      Some(Checked(Arr(urls), Report(AllTruthy(urls), kind, InvalidUrls(key))))
  }

  function GetHandler(fields: map<string, Value>, kind: string): Checked
  {
    var handler := NormalizeHandler(Field(fields, "handler"));
    Checked(handler, Report(Truthy(handler), kind, InvalidHandler))
  }

  function GetHttpMethod(fields: map<string, Value>, kind: string, httpMethods: seq<string>): Checked
  {
    var httpMethod := NormalizeHttpMethod(httpMethods, Field(fields, "method"));
    Checked(httpMethod, Report(Truthy(httpMethod), kind, InvalidHttpMethod))
  }

  function GetAttributeMap(fields: map<string, Value>, kind: string): Checked
  {
    var attributeMap := NormalizeObject(Field(fields, "attributeMap"));
    Checked(attributeMap, Report(Truthy(attributeMap), kind, InvalidAttributeMap))
  }

  /** A falsy field is left null without a check; otherwise the getter runs. */
  function Optional(fields: map<string, Value>, key: string, getter: Checked): Checked
  {
    if Truthy(Field(fields, key)) then getter else Checked(Null, [])
  }

  /** getRule/getPolicy/getPolicySet's target step: skipped when falsy;
      otherwise checked, then compiled, a compile failure adding one error. */
  function CompiledTarget(fields: map<string, Value>, kind: string, compiles: Value -> bool): Checked
  {
    var target := Optional(fields, "target", GetTarget(fields, kind));
    Checked(target.value,
            target.errors + Report(!Truthy(target.value) || compiles(target.value), kind, TargetNotCompiled))
  }

  function CompiledCondition(fields: map<string, Value>, compiles: Value -> bool): Checked
  {
    var condition := Optional(fields, "condition", GetCondition(fields));
    Checked(condition.value,
            condition.errors + Report(!Truthy(condition.value) || compiles(condition.value), "Rule", ConditionNotCompiled))
  }

  // ---------------------------------------------------------------------
  // Element normalizers as functions

  /** `Object.assign({}, element, {...})`: a shallow copy of the element with
      the normalized fields written over it. */
  function RuleObject(fields: map<string, Value>, id: Value, version: Value, effect: Value,
                      target: Value, condition: Value, handlerId: Value,
                      obligationIds: Value, adviceIds: Value): Value
  {
    Obj(fields + map[
      "id" := id, "version" := version, "effect" := effect,
      "description" := GetDescription(fields), "target" := target,
      "condition" := condition, "handlerId" := handlerId,
      "obligationIds" := obligationIds, "adviceIds" := adviceIds])
  }

  function PolicyObject(fields: map<string, Value>, id: Value, version: Value, algorithm: Value,
                        target: Value, ruleIds: Value, ruleUrls: Value,
                        obligationIds: Value, adviceIds: Value): Value
  {
    Obj(fields + map[
      "id" := id, "version" := version, "combiningAlgorithm" := algorithm,
      "description" := GetDescription(fields), "target" := target,
      "ruleIds" := ruleIds, "ruleUrls" := ruleUrls,
      "obligationIds" := obligationIds, "adviceIds" := adviceIds])
  }

  function PolicySetObject(fields: map<string, Value>, id: Value, version: Value, algorithm: Value,
                           target: Value, policySetIds: Value, policySetUrls: Value,
                           policyIds: Value, policyUrls: Value,
                           obligationIds: Value, adviceIds: Value): Value
  {
    Obj(fields + map[
      "id" := id, "version" := version, "combiningAlgorithm" := algorithm,
      "description" := GetDescription(fields), "target" := target,
      "policySetIds" := policySetIds, "policySetUrls" := policySetUrls,
      "policyIds" := policyIds, "policyUrls" := policyUrls,
      "obligationIds" := obligationIds, "adviceIds" := adviceIds])
  }

  /** The normalizer's methods append errors one step at a time while their
      specification functions concatenate them left to right; naming this
      step keeps those proofs within the verifier's resource limit. */
  lemma AppendAssociates(a: seq<ValidationError>, b: seq<ValidationError>, c: seq<ValidationError>)
    ensures a + b + c == a + (b + c)
  {
  }

  /** The fields getRule computes before its id lists, and the errors they append. */
  datatype RuleHead = RuleHead(target: Value, condition: Value, handlerId: Value,
                               id: Value, version: Value, effect: Value,
                               errors: seq<ValidationError>)

  function RuleHeadOf(fields: map<string, Value>, compiles: Value -> bool): RuleHead
  {
    var target := CompiledTarget(fields, "Rule", compiles);
    var condition := CompiledCondition(fields, compiles);
    var handlerDefined := IsPresent(Field(fields, "handlerId"));
    var handlerId := if handlerDefined then NormalizeId(Field(fields, "handlerId")) else Null;
    var id := GetId(fields, "Rule");
    var version := GetVersion(fields, "Rule");
    var effect := GetEffect(fields, "Rule");
    RuleHead(target.value, condition.value, handlerId, id.value, version.value, effect.value,
             target.errors + condition.errors +
             Report(!(Truthy(condition.value) && handlerDefined), "Rule", ConditionWithHandler) +
             id.errors + version.errors + effect.errors)
  }

  function RuleOf(element: Value, compiles: Value -> bool): Normalized
  {
    if !IsPresent(element) then Normalized(None, [])
    else
      var fields := FieldsOf(element);
      var head := RuleHeadOf(fields, compiles);
      match GetIds(fields, "obligationIds", "Rule")
      case None => Normalized(None, head.errors)
      case Some(obligationIds) =>
        match GetIds(fields, "adviceIds", "Rule")
        case None => Normalized(None, head.errors + obligationIds.errors)
        case Some(adviceIds) =>
          Normalized(Some(RuleObject(fields, head.id, head.version, head.effect, head.target,
                                     head.condition, head.handlerId, obligationIds.value, adviceIds.value)),
                     head.errors + obligationIds.errors + adviceIds.errors)
  }

  /** The fields getPolicy and getPolicySet compute before their id lists. */
  datatype PolicyHead = PolicyHead(target: Value, id: Value, version: Value, algorithm: Value,
                                   errors: seq<ValidationError>)

  function PolicyHeadOf(fields: map<string, Value>, kind: string, compiles: Value -> bool): PolicyHead
  {
    var target := CompiledTarget(fields, kind, compiles);
    var id := GetId(fields, kind);
    var version := GetVersion(fields, kind);
    var algorithm := GetCombiningAlgorithm(fields, kind);
    PolicyHead(target.value, id.value, version.value, algorithm.value,
               target.errors + id.errors + version.errors + algorithm.errors)
  }

  /** getPolicy's id and url lists, read after its head fields: the element,
      or None when a list throws, and the errors the lists append. */
  function PolicyFrom(fields: map<string, Value>, head: PolicyHead, isUrl: Value -> bool): Normalized
  {
    match GetIds(fields, "ruleIds", "Policy")
    case None => Normalized(None, [])
    case Some(ruleIds) =>
      match GetUrls(fields, "ruleUrls", "Policy", isUrl)
      case None => Normalized(None, ruleIds.errors)
      case Some(ruleUrls) =>
        match GetIds(fields, "obligationIds", "Policy")
        case None => Normalized(None, ruleIds.errors + ruleUrls.errors)
        case Some(obligationIds) =>
          match GetIds(fields, "adviceIds", "Policy")
          case None => Normalized(None, ruleIds.errors + ruleUrls.errors + obligationIds.errors)
          case Some(adviceIds) =>
            Normalized(Some(PolicyObject(fields, head.id, head.version, head.algorithm, head.target,
                                         ruleIds.value, ruleUrls.value, obligationIds.value, adviceIds.value)),
                       ruleIds.errors + ruleUrls.errors + obligationIds.errors + adviceIds.errors)
  }

  function PolicyOf(element: Value, compiles: Value -> bool, isUrl: Value -> bool): Normalized
  {
    if !IsPresent(element) then Normalized(None, [])
    else
      var fields := FieldsOf(element);
      var head := PolicyHeadOf(fields, "Policy", compiles);
      var rest := PolicyFrom(fields, head, isUrl);
      Normalized(rest.value, head.errors + rest.errors)
  }

  /** getPolicySet's first three lists; the other three follow in PolicySetTail. */
  function PolicySetFrom(fields: map<string, Value>, head: PolicyHead, isUrl: Value -> bool): Normalized
  {
    match GetIds(fields, "policySetIds", "PolicySet")
    case None => Normalized(None, [])
    case Some(policySetIds) =>
      match GetUrls(fields, "policySetUrls", "PolicySet", isUrl)
      case None => Normalized(None, policySetIds.errors)
      case Some(policySetUrls) =>
        match GetIds(fields, "policyIds", "PolicySet")
        case None => Normalized(None, policySetIds.errors + policySetUrls.errors)
        case Some(policyIds) =>
          var tail := PolicySetTail(fields, head, isUrl, policySetIds.value, policySetUrls.value, policyIds.value);
          Normalized(tail.value, policySetIds.errors + policySetUrls.errors + policyIds.errors + tail.errors)
  }

  function PolicySetTail(fields: map<string, Value>, head: PolicyHead, isUrl: Value -> bool,
                         policySetIds: Value, policySetUrls: Value, policyIds: Value): Normalized
  {
    match GetUrls(fields, "policyUrls", "PolicySet", isUrl)
    case None => Normalized(None, [])
    case Some(policyUrls) =>
      match GetIds(fields, "obligationIds", "PolicySet")
      case None => Normalized(None, policyUrls.errors)
      case Some(obligationIds) =>
        match GetIds(fields, "adviceIds", "PolicySet")
        case None => Normalized(None, policyUrls.errors + obligationIds.errors)
        case Some(adviceIds) =>
          Normalized(Some(PolicySetObject(fields, head.id, head.version, head.algorithm, head.target,
                                          policySetIds, policySetUrls, policyIds, policyUrls.value,
                                          obligationIds.value, adviceIds.value)),
                     policyUrls.errors + obligationIds.errors + adviceIds.errors)
  }

  function PolicySetOf(element: Value, compiles: Value -> bool, isUrl: Value -> bool): Normalized
  {
    if !IsPresent(element) then Normalized(None, [])
    else
      var fields := FieldsOf(element);
      var head := PolicyHeadOf(fields, "PolicySet", compiles);
      var rest := PolicySetFrom(fields, head, isUrl);
      Normalized(rest.value, head.errors + rest.errors)
  }

  function RuleHandlerOf(element: Value): Normalized
  {
    if !IsPresent(element) then Normalized(None, [])
    else
      var fields := FieldsOf(element);
      var id := GetId(fields, "RuleHandler");
      var version := GetVersion(fields, "RuleHandlers");
      var handler := GetHandler(fields, "RuleHandler");
      var attributeMap := Optional(fields, "attributeMap", GetAttributeMap(fields, "RuleHandler"));
      Normalized(Some(RuleHandlerObject(fields, id.value, version.value, handler.value, attributeMap.value)),
                 id.errors + version.errors + handler.errors + attributeMap.errors)
  }

  function RuleHandlerObject(fields: map<string, Value>, id: Value, version: Value, handler: Value,
                             attributeMap: Value): Value
  {
    Obj(fields + map[
      "id" := id, "version" := version, "description" := GetDescription(fields),
      "handler" := handler, "attributeMap" := attributeMap])
  }

  /** getObligation and getAdvice, which differ only in the type named. */
  function ObligationOf(element: Value, kind: string): Normalized
  {
    if !IsPresent(element) then Normalized(None, [])
    else
      var fields := FieldsOf(element);
      var id := GetId(fields, kind);
      var version := if IsPresent(Field(fields, "version")) then GetVersion(fields, kind) else Checked(Null, []);
      var effect := Optional(fields, "effect", GetEffect(fields, kind));
      var handler := GetHandler(fields, kind);
      var attributeMap := Optional(fields, "attributeMap", GetAttributeMap(fields, kind));
      Normalized(Some(ObligationObject(fields, id.value, version.value, effect.value, handler.value,
                                       attributeMap.value)),
                 id.errors + version.errors + effect.errors + handler.errors + attributeMap.errors)
  }

  function ObligationObject(fields: map<string, Value>, id: Value, version: Value, effect: Value,
                            handler: Value, attributeMap: Value): Value
  {
    Obj(fields + map[
      "id" := id, "version" := version, "description" := GetDescription(fields),
      "effect" := effect, "handler" := handler, "attributeMap" := attributeMap])
  }

  function ActionOf(element: Value, httpMethods: seq<string>): Normalized
  {
    if !IsPresent(element) then Normalized(None, [])
    else
      var fields := FieldsOf(element);
      var httpMethod := GetHttpMethod(fields, "Action", httpMethods);
      Normalized(Some(Obj(fields + map[
        "method" := httpMethod.value, "operation" := NormalizeString(Field(fields, "operation"))])),
        httpMethod.errors)
  }

  function ResourceOf(element: Value): Normalized
  {
    if !IsPresent(element) then Normalized(None, [])
    else
      var fields := FieldsOf(element);
      var id := GetId(fields, "Resource");
      Normalized(Some(Obj(fields + map["id" := id.value])), id.errors)
  }

  /** An absent subject id stands for an unauthenticated user: null, no error. */
  function SubjectOf(element: Value): Normalized
  {
    if !IsPresent(element) then Normalized(None, [])
    else
      var fields := FieldsOf(element);
      var id := if IsPresent(Field(fields, "id")) then GetId(fields, "Subject") else Checked(Null, []);
      Normalized(Some(Obj(fields + map["id" := id.value])), id.errors)
  }

  /** getEnvironment copies its argument; Object.assign skips a null source,
      so it never throws. */
  function EnvironmentOf(element: Value): Value
  {
    Obj(FieldsOf(element))
  }

  /** The fields getContext assigns onto the context object, or None when
      normalizing the action, resource or subject throws. */
  function ContextOf(fields: map<string, Value>, httpMethods: seq<string>): Normalized
  {
    var action := ActionOf(Field(fields, "action"), httpMethods);
    match action.value
    case None => Normalized(None, action.errors)
    case Some(a) =>
      var resource := ResourceOf(Field(fields, "resource"));
      match resource.value
      case None => Normalized(None, action.errors + resource.errors)
      case Some(r) =>
        var subject := SubjectOf(Field(fields, "subject"));
        match subject.value
        case None => Normalized(None, action.errors + resource.errors + subject.errors)
        case Some(s) =>
          Normalized(Some(Obj(ContextFields(fields, a, r, s))), action.errors + resource.errors + subject.errors)
  }

  /** The fields getContext writes over the context: the return flags as
      booleans, the normalized categories and empty result lists. */
  function ContextFields(fields: map<string, Value>, action: Value, resource: Value, subject: Value): map<string, Value>
  {
    fields + map[
      "returnReason" := NormalizeBoolean(Field(fields, "returnReason")),
      "returnPolicyList" := NormalizeBoolean(Field(fields, "returnPolicyList")),
      "returnAdviceResults" := NormalizeBoolean(Field(fields, "returnAdviceResults")),
      "returnObligationResults" := NormalizeBoolean(Field(fields, "returnObligationResults")),
      "action" := action, "resource" := resource, "subject" := subject,
      "environment" := EnvironmentOf(Field(fields, "environment")),
      "policyList" := Arr([]), "adviceResults" := Arr([]), "obligationResults" := Arr([])]
  }

  // ---------------------------------------------------------------------
  // Element normalizers as they run: one getter after the other, each
  // appending its errors to the caller's list.

  method GetCompiledTarget(fields: map<string, Value>, kind: string, compiles: Value -> bool,
                           errors: ErrorList) returns (target: Value)
    modifies errors
    ensures target == CompiledTarget(fields, kind, compiles).value
    ensures errors.items == old(errors.items) + CompiledTarget(fields, kind, compiles).errors
  {
    target := Null;
    if Truthy(Field(fields, "target")) {
      var t := GetTarget(fields, kind);
      errors.PushAll(t.errors);
      target := t.value;
    }
    if Truthy(target) && !compiles(target) {
      errors.PushAll([ValidationError(kind, TargetNotCompiled)]);
    }
  }

  method GetCompiledCondition(fields: map<string, Value>, compiles: Value -> bool, errors: ErrorList)
    returns (condition: Value)
    modifies errors
    ensures condition == CompiledCondition(fields, compiles).value
    ensures errors.items == old(errors.items) + CompiledCondition(fields, compiles).errors
  {
    condition := Null;
    if Truthy(Field(fields, "condition")) {
      var c := GetCondition(fields);
      errors.PushAll(c.errors);
      condition := c.value;
    }
    if Truthy(condition) && !compiles(condition) {
      errors.PushAll([ValidationError("Rule", ConditionNotCompiled)]);
    }
  }

  method GetRuleHead(fields: map<string, Value>, compiles: Value -> bool, errors: ErrorList)
    returns (head: RuleHead)
    modifies errors
    ensures head == RuleHeadOf(fields, compiles)
    ensures errors.items == old(errors.items) + head.errors
  {
    ghost var before := errors.items;
    var target := GetCompiledTarget(fields, "Rule", compiles, errors);
    var condition := GetCompiledCondition(fields, compiles, errors);
    var pushed := CompiledTarget(fields, "Rule", compiles).errors + CompiledCondition(fields, compiles).errors;
    AppendAssociates(before, CompiledTarget(fields, "Rule", compiles).errors, CompiledCondition(fields, compiles).errors);
    var ruleHandlerDefined := IsPresent(Field(fields, "handlerId"));
    var handlerId := if !ruleHandlerDefined then Null else NormalizeId(Field(fields, "handlerId"));
    var clash := Report(!(Truthy(condition) && ruleHandlerDefined), "Rule", ConditionWithHandler);
    errors.PushAll(clash);
    AppendAssociates(before, pushed, clash);
    pushed := pushed + clash;
    var id := GetId(fields, "Rule");
    errors.PushAll(id.errors);
    AppendAssociates(before, pushed, id.errors);
    pushed := pushed + id.errors;
    var version := GetVersion(fields, "Rule");
    errors.PushAll(version.errors);
    AppendAssociates(before, pushed, version.errors);
    pushed := pushed + version.errors;
    var effect := GetEffect(fields, "Rule");
    errors.PushAll(effect.errors);
    AppendAssociates(before, pushed, effect.errors);
    pushed := pushed + effect.errors;
    head := RuleHead(target, condition, handlerId, id.value, version.value, effect.value, pushed);
  }

  method GetRule(element: Value, compiles: Value -> bool, errors: ErrorList) returns (rule: Option<Value>)
    modifies errors
    ensures rule == RuleOf(element, compiles).value
    ensures errors.items == old(errors.items) + RuleOf(element, compiles).errors
  {
    if !IsPresent(element) {
      return None;
    }
    var fields := FieldsOf(element);
    ghost var before := errors.items;
    var head := GetRuleHead(fields, compiles, errors);
    assert errors.items == before + head.errors;
    var obligationIds := GetIds(fields, "obligationIds", "Rule");
    if obligationIds.None? {
      assert RuleOf(element, compiles) == Normalized(None, head.errors);
      return None;
    }
    errors.PushAll(obligationIds.value.errors);
    AppendAssociates(before, head.errors, obligationIds.value.errors);
    assert errors.items == before + (head.errors + obligationIds.value.errors);
    var adviceIds := GetIds(fields, "adviceIds", "Rule");
    if adviceIds.None? {
      assert RuleOf(element, compiles) == Normalized(None, head.errors + obligationIds.value.errors);
      return None;
    }
    errors.PushAll(adviceIds.value.errors);
    AppendAssociates(before, head.errors + obligationIds.value.errors, adviceIds.value.errors);
    rule := Some(RuleObject(fields, head.id, head.version, head.effect, head.target, head.condition,
                            head.handlerId, obligationIds.value.value, adviceIds.value.value));
    assert RuleOf(element, compiles)
        == Normalized(rule, head.errors + obligationIds.value.errors + adviceIds.value.errors);
  }

  method GetPolicyHead(fields: map<string, Value>, kind: string, compiles: Value -> bool, errors: ErrorList)
    returns (head: PolicyHead)
    modifies errors
    ensures head == PolicyHeadOf(fields, kind, compiles)
    ensures errors.items == old(errors.items) + head.errors
  {
    var target := GetCompiledTarget(fields, kind, compiles, errors);
    var pushed := CompiledTarget(fields, kind, compiles).errors;
    var id := GetId(fields, kind);
    errors.PushAll(id.errors);
    pushed := pushed + id.errors;
    assert errors.items == old(errors.items) + pushed;
    var version := GetVersion(fields, kind);
    errors.PushAll(version.errors);
    pushed := pushed + version.errors;
    assert errors.items == old(errors.items) + pushed;
    var algorithm := GetCombiningAlgorithm(fields, kind);
    errors.PushAll(algorithm.errors);
    pushed := pushed + algorithm.errors;
    head := PolicyHead(target, id.value, version.value, algorithm.value, pushed);
  }

  method GetPolicyLists(fields: map<string, Value>, head: PolicyHead, isUrl: Value -> bool, errors: ErrorList)
    returns (policy: Option<Value>)
    modifies errors
    ensures policy == PolicyFrom(fields, head, isUrl).value
    ensures errors.items == old(errors.items) + PolicyFrom(fields, head, isUrl).errors
  {
    var ruleIds := GetIds(fields, "ruleIds", "Policy");
    if ruleIds.None? {
      return None;
    }
    errors.PushAll(ruleIds.value.errors);
    ghost var pushed := ruleIds.value.errors;
    var ruleUrls := GetUrls(fields, "ruleUrls", "Policy", isUrl);
    if ruleUrls.None? {
      return None;
    }
    errors.PushAll(ruleUrls.value.errors);
    AppendAssociates(old(errors.items), pushed, ruleUrls.value.errors);
    pushed := pushed + ruleUrls.value.errors;
    var obligationIds := GetIds(fields, "obligationIds", "Policy");
    if obligationIds.None? {
      assert PolicyFrom(fields, head, isUrl) == Normalized(None, pushed);
      return None;
    }
    errors.PushAll(obligationIds.value.errors);
    AppendAssociates(old(errors.items), pushed, obligationIds.value.errors);
    pushed := pushed + obligationIds.value.errors;
    var adviceIds := GetIds(fields, "adviceIds", "Policy");
    if adviceIds.None? {
      assert PolicyFrom(fields, head, isUrl) == Normalized(None, pushed);
      return None;
    }
    errors.PushAll(adviceIds.value.errors);
    AppendAssociates(old(errors.items), pushed, adviceIds.value.errors);
    pushed := pushed + adviceIds.value.errors;
    policy := Some(PolicyObject(fields, head.id, head.version, head.algorithm, head.target,
                     ruleIds.value.value, ruleUrls.value.value, obligationIds.value.value, adviceIds.value.value));
    assert PolicyFrom(fields, head, isUrl) == Normalized(policy, pushed);
  }

  method GetPolicy(element: Value, compiles: Value -> bool, isUrl: Value -> bool, errors: ErrorList)
    returns (policy: Option<Value>)
    modifies errors
    ensures policy == PolicyOf(element, compiles, isUrl).value
    ensures errors.items == old(errors.items) + PolicyOf(element, compiles, isUrl).errors
  {
    if !IsPresent(element) {
      return None;
    }
    var fields := FieldsOf(element);
    ghost var before := errors.items;
    var head := GetPolicyHead(fields, "Policy", compiles, errors);
    ghost var afterHead := errors.items;
    policy := GetPolicyLists(fields, head, isUrl, errors);
    ghost var rest := PolicyFrom(fields, head, isUrl);
    assert errors.items == afterHead + rest.errors;
    AppendAssociates(before, head.errors, rest.errors);
    assert PolicyOf(element, compiles, isUrl) == Normalized(rest.value, head.errors + rest.errors);
  }

  method GetPolicySetLists(fields: map<string, Value>, head: PolicyHead, isUrl: Value -> bool, errors: ErrorList)
    returns (policySet: Option<Value>)
    modifies errors
    ensures policySet == PolicySetFrom(fields, head, isUrl).value
    ensures errors.items == old(errors.items) + PolicySetFrom(fields, head, isUrl).errors
  {
    var policySetIds := GetIds(fields, "policySetIds", "PolicySet");
    if policySetIds.None? {
      return None;
    }
    errors.PushAll(policySetIds.value.errors);
    var policySetUrls := GetUrls(fields, "policySetUrls", "PolicySet", isUrl);
    if policySetUrls.None? {
      return None;
    }
    errors.PushAll(policySetUrls.value.errors);
    var policyIds := GetIds(fields, "policyIds", "PolicySet");
    if policyIds.None? {
      assert PolicySetFrom(fields, head, isUrl).errors == policySetIds.value.errors + policySetUrls.value.errors;
      return None;
    }
    errors.PushAll(policyIds.value.errors);
    ghost var pushed := policySetIds.value.errors + policySetUrls.value.errors + policyIds.value.errors;
    assert errors.items == old(errors.items) + pushed;
    ghost var afterHalf := errors.items;
    policySet := GetPolicySetTail(fields, head, isUrl, policySetIds.value.value, policySetUrls.value.value,
                                  policyIds.value.value, errors);
    ghost var tail := PolicySetTail(fields, head, isUrl, policySetIds.value.value, policySetUrls.value.value,
                                    policyIds.value.value);
    AppendAssociates(old(errors.items), pushed, tail.errors);
  }

  method GetPolicySetTail(fields: map<string, Value>, head: PolicyHead, isUrl: Value -> bool,
                          policySetIds: Value, policySetUrls: Value, policyIds: Value, errors: ErrorList)
    returns (policySet: Option<Value>)
    modifies errors
    ensures policySet == PolicySetTail(fields, head, isUrl, policySetIds, policySetUrls, policyIds).value
    ensures errors.items == old(errors.items) + PolicySetTail(fields, head, isUrl, policySetIds, policySetUrls, policyIds).errors
  {
    var policyUrls := GetUrls(fields, "policyUrls", "PolicySet", isUrl);
    if policyUrls.None? {
      return None;
    }
    errors.PushAll(policyUrls.value.errors);
    var obligationIds := GetIds(fields, "obligationIds", "PolicySet");
    if obligationIds.None? {
      return None;
    }
    errors.PushAll(obligationIds.value.errors);
    AppendAssociates(old(errors.items), policyUrls.value.errors, obligationIds.value.errors);
    ghost var pushed := policyUrls.value.errors + obligationIds.value.errors;
    var adviceIds := GetIds(fields, "adviceIds", "PolicySet");
    if adviceIds.None? {
      assert PolicySetTail(fields, head, isUrl, policySetIds, policySetUrls, policyIds).errors == pushed;
      return None;
    }
    errors.PushAll(adviceIds.value.errors);
    AppendAssociates(old(errors.items), pushed, adviceIds.value.errors);
    policySet := Some(PolicySetObject(fields, head.id, head.version, head.algorithm, head.target,
                                      policySetIds, policySetUrls, policyIds, policyUrls.value.value,
                                      obligationIds.value.value, adviceIds.value.value));
  }

  method GetPolicySet(element: Value, compiles: Value -> bool, isUrl: Value -> bool, errors: ErrorList)
    returns (policySet: Option<Value>)
    modifies errors
    ensures policySet == PolicySetOf(element, compiles, isUrl).value
    ensures errors.items == old(errors.items) + PolicySetOf(element, compiles, isUrl).errors
  {
    if !IsPresent(element) {
      return None;
    }
    var fields := FieldsOf(element);
    ghost var before := errors.items;
    var head := GetPolicyHead(fields, "PolicySet", compiles, errors);
    ghost var afterHead := errors.items;
    policySet := GetPolicySetLists(fields, head, isUrl, errors);
    ghost var rest := PolicySetFrom(fields, head, isUrl);
    assert errors.items == afterHead + rest.errors;
    AppendAssociates(before, head.errors, rest.errors);
    assert PolicySetOf(element, compiles, isUrl) == Normalized(rest.value, head.errors + rest.errors);
  }

  method GetRuleHandler(element: Value, errors: ErrorList) returns (ruleHandler: Option<Value>)
    modifies errors
    ensures ruleHandler == RuleHandlerOf(element).value
    ensures errors.items == old(errors.items) + RuleHandlerOf(element).errors
  {
    var n := RuleHandlerOf(element);
    errors.PushAll(n.errors);
    return n.value;
  }

  method GetObligation(element: Value, errors: ErrorList) returns (obligation: Option<Value>)
    modifies errors
    ensures obligation == ObligationOf(element, "Obligation").value
    ensures errors.items == old(errors.items) + ObligationOf(element, "Obligation").errors
  {
    var n := ObligationOf(element, "Obligation");
    errors.PushAll(n.errors);
    return n.value;
  }

  method GetAdvice(element: Value, errors: ErrorList) returns (advice: Option<Value>)
    modifies errors
    ensures advice == ObligationOf(element, "Advice").value
    ensures errors.items == old(errors.items) + ObligationOf(element, "Advice").errors
  {
    var n := ObligationOf(element, "Advice");
    errors.PushAll(n.errors);
    return n.value;
  }

  /** The request context object, which getContext updates in place. */
  class ContextObject {
    var fields: map<string, Value>

    constructor(fields: map<string, Value>)
      ensures this.fields == fields
    {
      this.fields := fields;
    }
  }

  /** getContext: `Object.assign(element, {...})` overwrites the listed fields
      of the context itself. When a nested normalizer throws, nothing is
      assigned, but the errors appended before the throw stay. */
  method GetContext(context: ContextObject, httpMethods: seq<string>, errors: ErrorList)
    returns (ok: bool)
    modifies context, errors
    ensures var n := ContextOf(old(context.fields), httpMethods);
            ok == n.value.Some? &&
            errors.items == old(errors.items) + n.errors &&
            context.fields == (if ok then n.value.value.fields else old(context.fields))
  {
    var fields := context.fields;
    ghost var before := errors.items;
    var action := ActionOf(Field(fields, "action"), httpMethods);
    errors.PushAll(action.errors);
    if action.value.None? {
      return false;
    }
    var resource := ResourceOf(Field(fields, "resource"));
    errors.PushAll(resource.errors);
    AppendAssociates(before, action.errors, resource.errors);
    if resource.value.None? {
      return false;
    }
    var subject := SubjectOf(Field(fields, "subject"));
    errors.PushAll(subject.errors);
    AppendAssociates(before, action.errors + resource.errors, subject.errors);
    if subject.value.None? {
      return false;
    }
    context.fields := ContextFields(fields, action.value.value, resource.value.value, subject.value.value);
    return true;
  }
}
