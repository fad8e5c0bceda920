/**
 * The decision engine of src/points/pdp.ts.
 *
 * The first half states what an evaluation computes, as functions over an
 * explicit `State` (the context's data, the four attribute-map caches and
 * the `policyList` trace): `Combine` is combineDecision, `Dispatch` its
 * algorithm switch, `Reduce`/`RunFrom` the six reducer loops, `RuleEval`
 * evaluateRule. The `Engine` class at the end holds the same state in
 * fields and runs the same steps with loops; each of its methods is proved
 * to land exactly where the functions say.
 *
 * Bootstrapping normalizes the retrieved rule handlers with the normalizer
 * and registers them by id (`Register`, `Engine.Bootstrap`).
 *
 * Collaborators the engine only calls are oracles in `Env`: the Language
 * compiler's attribute map, Pip.retrieveAttributes (merge into the context,
 * then list what is still missing), strToExpression, eval, and the rule
 * handler runner.
 */
module Pdp {
  import opened Js
  import opened Xacml
  import opened Combining
  import opened Walker
  import Normalizer

  /** `{ version, attributeMap }` as stored in an attribute-map cache. */
  datatype Container = Container(version: Value, attributeMap: Value)

  /** An attribute-map cache: a plain object indexed by `element.id`, i.e. by
      the id's string form. */
  type Cache = map<string, Container>

  datatype CacheId = RuleTargets | RuleConditions | PolicyTargets | PolicySetTargets

  /** What an evaluation may throw. */
  datatype Fault =
    | NotBootstrapped  // EvaluateDecisionRequest before bootstrap
    | RetrievalFailed  // the Prp reported errors
    | PipFailed        // Pip.retrieveAttributes threw
    | HandlerFailed    // the rule handler threw
    | TypeError        // a null target iterated, a null policySet read

  datatype Outcome = Decided(d: Decision) | Thrown(fault: Fault)

  /** Everything an evaluation reads and writes besides the registry. */
  datatype State = State(
    attributes: Value,
    ruleTargets: Cache,
    ruleConditions: Cache,
    policyTargets: Cache,
    policySetTargets: Cache,
    trace: seq<TraceEntry>)

  datatype Env = Env(
    handlers: map<string, Value>,
    attributeMapOf: Option<AnyOfArr> -> Value,
    resolve: (Value, Value) -> Option<(Value, seq<string>)>,
    toExpression: (Value, string) -> Option<string>,
    eval: (Value, string) -> Option<Value>,
    runHandler: (Value, Value) -> Option<Value>)

  /** The outcome of one step together with the state it leaves. */
  datatype Eval = Eval(out: Outcome, st: State)

  /** A reducer run: its outcome, the state it leaves, and the decisions of
      the children it evaluated, in order. */
  datatype Run = Run(out: Outcome, st: State, seen: seq<Decision>)

  datatype Resolution = Complete | Incomplete | Failed

  /** A target check either lets evaluation go on or ends it with an outcome. */
  datatype Gate = Pass(st: State) | Halt(out: Outcome, st: State)

  function CacheOf(st: State, c: CacheId): Cache
  {
    match c
    case RuleTargets => st.ruleTargets
    case RuleConditions => st.ruleConditions
    case PolicyTargets => st.policyTargets
    case PolicySetTargets => st.policySetTargets
  }

  function WithCache(st: State, c: CacheId, cache: Cache): (r: State)
    ensures CacheOf(r, c) == cache
    ensures forall c' :: c' != c ==> CacheOf(r, c') == CacheOf(st, c')
    ensures r.attributes == st.attributes && r.trace == st.trace
  {
    match c
    case RuleTargets => st.(ruleTargets := cache)
    case RuleConditions => st.(ruleConditions := cache)
    case PolicyTargets => st.(policyTargets := cache)
    case PolicySetTargets => st.(policySetTargets := cache)
  }

  // ---------------------------------------------------------------------
  // Attribute maps and attribute resolution

  /** retrieveTargetAttributeMap / retrieveRuleConditionAttributeMap: reuse the
      stored map when the id has an entry of the same version, otherwise
      compile the Target (or Condition) again and overwrite that entry. */
  function Lookup(env: Env, st: State, c: CacheId, id: Value, version: Value,
                  anyOfArr: Option<AnyOfArr>): (Value, State)
  {
    var cache := CacheOf(st, c);
    var key := ToString(id);
    if key in cache && cache[key].version == version then (cache[key].attributeMap, st)
    else
      var m := env.attributeMapOf(anyOfArr);
      (m, WithCache(st, c, cache[key := Container(version, m)]))
  }

  /** Pip.retrieveAttributes as the engine sees it: it may throw; otherwise the
      context takes the merged attributes and the call reports whether
      anything is still missing. */
  function ResolveAttributes(env: Env, st: State, attributeMap: Value): (Resolution, State)
  {
    match env.resolve(st.attributes, attributeMap)
    case None => (Failed, st)
    case Some(r) => (if |r.1| > 0 then Incomplete else Complete, st.(attributes := r.0))
  }

  /** expressionToDecision: an expression the compiler rejects, or one whose
      evaluation throws, is Indeterminate; any other value counts by its
      truthiness. */
  function ExpressionToDecision(env: Env, attributes: Value, s: string): Truth
  {
    match env.toExpression(attributes, s)
    case None => Indet
    case Some(code) =>
      match env.eval(attributes, code)
      case None => Indet
      case Some(v) => if Truthy(v) then True else False
  }

  function ExprIn(env: Env, attributes: Value): string -> Truth
  {
    s => ExpressionToDecision(env, attributes, s)
  }

  /** The target check shared by combineDecision (identified elements) and
      evaluateRule: attribute map, resolution, then the walk. */
  function TargetGate(env: Env, st: State, c: CacheId, id: Value, version: Value,
                      target: Option<AnyOfArr>): Gate
  {
    var (m, st1) := Lookup(env, st, c, id, version, target);
    var (res, st2) := ResolveAttributes(env, st1, m);
    if res == Failed then Halt(Thrown(PipFailed), st2)
    else if res == Incomplete then Halt(Decided(Indeterminate), st2)
    else match target
      case None => Halt(Thrown(TypeError), st2)
      case Some(t) =>
        var v := AnyOfArrValue(ExprIn(env, st2.attributes), t);
        if v == Indet then Halt(Decided(Indeterminate), st2)
        else if v == False then Halt(Decided(NotApplicable), st2)
        else Pass(st2)
  }

  // ---------------------------------------------------------------------
  // Rules

  /** `if (conditionAttributeMap)`: resolution runs only for a truthy map. */
  function ConditionAttributes(env: Env, st: State, m: Value): (Resolution, State)
  {
    if Truthy(m) then ResolveAttributes(env, st, m) else (Complete, st)
  }

  /** `decision === true` gives the effect, `=== false` NotApplicable, anything else Indeterminate. */
  function Judge(effect: Effect, v: Value): Decision
  {
    if v == Bool(true) then effect else if v == Bool(false) then NotApplicable else Indeterminate
  }

  function TruthValue(t: Truth): Value
  {
    match t
    case True => Bool(true)
    case False => Bool(false)
    case Indet => Str("Indeterminate")
  }

  /** `ruleHandler.attributeMap` for a registered handler. */
  function HandlerAttributeMap(h: Value): Value
  {
    if h.Obj? then Field(h.fields, "attributeMap") else Undefined
  }

  function RuleEval(env: Env, st: State, r: Rule): Eval
  {
    match TargetGate(env, st, RuleTargets, r.id, r.version, r.target)
    case Halt(out, st1) => Eval(out, st1)
    case Pass(st1) =>
      var handlerDefined := IsPresent(r.handlerId);
      if r.condition.Some? && handlerDefined then Eval(Decided(Indeterminate), st1)
      else if r.condition.Some? then
        var (m, st2) := Lookup(env, st1, RuleConditions, r.id, r.version, r.condition);
        var (res, st3) := ConditionAttributes(env, st2, m);
        if res == Failed then Eval(Thrown(PipFailed), st3)
        else if res == Incomplete then Eval(Decided(Indeterminate), st3)
        else
          var v := AnyOfArrValue(ExprIn(env, st3.attributes), r.condition.value);
          Eval(Decided(Judge(r.effect, TruthValue(v))), st3)
      else if handlerDefined then
        var key := ToString(r.handlerId);
        if key !in env.handlers || !Truthy(env.handlers[key]) then Eval(Decided(Indeterminate), st1)
        else
          var h := env.handlers[key];
          var (res, st3) := ConditionAttributes(env, st1, HandlerAttributeMap(h));
          if res == Failed then Eval(Thrown(PipFailed), st3)
          else if res == Incomplete then Eval(Decided(Indeterminate), st3)
          else match env.runHandler(st3.attributes, h)
            case None => Eval(Thrown(HandlerFailed), st3)
            case Some(v) => Eval(Decided(Judge(r.effect, v)), st3)
      else Eval(Decided(r.effect), st1)
  }

  // ---------------------------------------------------------------------
  // Policies and policy sets

  /** How many children a reducer walks: the rules of a Policy, the policies
      then the policy sets of a PolicySet. */
  function KidCount(e: Element): nat
  {
    if e.Policy? then |e.rules| else |e.policies| + |e.policySets|
  }

  /** `policyList` after combineDecision appended `{ policy: e, decision }`,
      which it does only for a truthy id. */
  function Record(e: Element, out: Outcome, st: State): State
  {
    if out.Decided? && Truthy(e.id) then st.(trace := st.trace + [TraceEntry(e, out.d)]) else st
  }

  function Combine(env: Env, st: State, e: Element): Eval
    decreases e, 3
  {
    if !Truthy(e.id) then Dispatch(env, st, e)
    else
      var c := if e.Policy? then PolicyTargets else PolicySetTargets;
      match TargetGate(env, st, c, e.id, e.version, e.target)
      case Halt(out, st1) => Eval(out, st1)
      case Pass(st1) => Dispatch(env, st1, e)
  }

  /** The algorithm switch. PermitOverrides matches two of its tests, so its
      reducer runs twice; a value outside the built-ins finds no custom
      algorithm and is Indeterminate, untraced. */
  function Dispatch(env: Env, st: State, e: Element): Eval
    decreases e, 2
  {
    match e.algorithm
    case Other(_) => Eval(Decided(Indeterminate), st)
    case BuiltIn(alg) =>
      var r := Reduce(env, st, e, alg);
      var r2 := if alg == PermitOverrides && r.out.Decided? then Reduce(env, r.st, e, alg) else r;
      Eval(r2.out, Record(e, r2.out, r2.st))
  }

  /** One reducer call. OnlyOneApplicable reads the children of `policySet`,
      which is null for a Policy. */
  function Reduce(env: Env, st: State, e: Element, alg: Algorithm): Run
    decreases e, 1
  {
    if alg == OnlyOneApplicable && e.Policy? then Run(Thrown(TypeError), st, [])
    else RunFrom(env, st, alg, e, 0, Start, [])
  }

  /** The reducer loop from child i with flags f; `seen` the decisions so far. */
  function RunFrom(env: Env, st: State, alg: Algorithm, e: Element, i: nat, f: Flags,
                   seen: seq<Decision>): Run
    requires i <= KidCount(e)
    decreases e, 0, KidCount(e) - i
  {
    if i == KidCount(e) then Run(Decided(Finish(alg, f)), st, seen)
    else if Stop(alg, f) then Run(Decided(Early(alg, f)), st, seen)
    else
      var c := ChildEval(env, st, e, i);
      match c.out
      case Thrown(_) => Run(c.out, c.st, seen)
      case Decided(d) => RunFrom(env, c.st, alg, e, i + 1, Step(alg, f, d), seen + [d])
  }

  /** Child i: evaluateRule for a rule, combineDecision for a policy or set. */
  function ChildEval(env: Env, st: State, e: Element, i: nat): Eval
    requires i < KidCount(e)
    decreases e, 0, KidCount(e) - i, 0
  {
    match e
    case Policy(_, _, _, _, rules) => RuleEval(env, st, rules[i])
    case PolicySet(_, _, _, _, policies, policySets) =>
      if i < |policies| then
        assert policies[i] in policies;
        Combine(env, st, policies[i])
      else
        assert policySets[i - |policies|] in policySets;
        Combine(env, st, policySets[i - |policies|])
  }

  /** EvaluateDecisionRequest below the bootstrap and retrieval checks: the
      retrieved policies and sets are wrapped in a PolicySet with null id,
      version and target, combined by the configured algorithm. */
  function Root(algorithm: AlgorithmRef, policies: seq<Element>, policySets: seq<Element>): Element
  {
    PolicySet(Null, Null, None, algorithm, policies, policySets)
  }

  // ---------------------------------------------------------------------
  // Bootstrap

  /** The id of a normalized rule handler. */
  function HandlerId(handler: Value): Value
  {
    if handler.Obj? then Field(handler.fields, "id") else Undefined
  }

  /** The handler registry after a bootstrap, the errors the normalizer
      appended, and whether something was thrown (and caught). */
  datatype Registration = Registration(registry: map<string, Value>,
                                       errors: seq<Normalizer.ValidationError>, thrown: bool)

  /** The forEach of bootstrap: each element is normalized and registered
      under its id's string form when the id is present, a later handler
      replacing an earlier one; a null or undefined element throws, which
      ends the walk. */
  function Register(elements: seq<Value>, registry: map<string, Value>): Registration
    decreases |elements|
  {
    if |elements| == 0 then Registration(registry, [], false)
    else
      var n := Normalizer.RuleHandlerOf(elements[0]);
      match n.value
      case None => Registration(registry, n.errors, true)
      case Some(handler) =>
        var rest := Register(elements[1..], Enter(registry, handler));
        Registration(rest.registry, n.errors + rest.errors, rest.thrown)
  }

  /** `if (isPresent(ruleHandler.id)) ruleHandlerMap[ruleHandler.id] = ruleHandler` */
  function Enter(registry: map<string, Value>, handler: Value): map<string, Value>
  {
    if IsPresent(HandlerId(handler)) then registry[ToString(HandlerId(handler)) := handler] else registry
  }

  lemma RegisterUnfold(elements: seq<Value>, i: nat, registry: map<string, Value>)
    requires i < |elements|
    ensures var n := Normalizer.RuleHandlerOf(elements[i]);
            Register(elements[i..], registry) ==
              if n.value.None? then Registration(registry, n.errors, true)
              else
                var rest := Register(elements[i + 1..], Enter(registry, n.value.value));
                Registration(rest.registry, n.errors + rest.errors, rest.thrown)
  {
    assert elements[i..][1..] == elements[i + 1..];
  }

  /** What bootstrap does with what retrieveRuleHandlers resolved to: a
      rejection (None) and a value without forEach are caught. */
  function RegistrationOf(retrieved: Option<Value>, registry: map<string, Value>): Registration
  {
    match retrieved
    case None => Registration(registry, [], true)
    case Some(v) => if v.Arr? then Register(v.items, registry) else Registration(registry, [], true)
  }

  /** bootstrap resolves to true, or rejects with the errors joined. */
  datatype BootstrapOutcome = Ready | Rejected(errors: seq<Normalizer.ValidationError>, caught: bool)

  // ---------------------------------------------------------------------
  // The engine object

  /** The Pdp singleton: its bootstrap flag, the rule handler registry and
      the four attribute-map caches, updated in place as requests are
      evaluated. The per-request data (attributes, trace, decision) lives in
      the Context. */
  class Engine {
    var bootstrapped: bool
    var ruleHandlerMap: map<string, Value>
    var ruleTargetAttributeMaps: Cache
    var ruleConditionAttributeMaps: Cache
    var policyTargetAttributeMaps: Cache
    var policySetTargetAttributeMaps: Cache

    constructor()
      ensures !bootstrapped && ruleHandlerMap == map[]
      ensures ruleTargetAttributeMaps == map[] && ruleConditionAttributeMaps == map[]
      ensures policyTargetAttributeMaps == map[] && policySetTargetAttributeMaps == map[]
    {
      bootstrapped := false;
      ruleHandlerMap := map[];
      ruleTargetAttributeMaps := map[];
      ruleConditionAttributeMaps := map[];
      policyTargetAttributeMaps := map[];
      policySetTargetAttributeMaps := map[];
    }

    /** The evaluation state held by this engine and a request context. */
    function Snap(ctx: Context): State
      reads this, ctx
    {
      State(ctx.attributes, ruleTargetAttributeMaps, ruleConditionAttributeMaps,
            policyTargetAttributeMaps, policySetTargetAttributeMaps, ctx.policyList)
    }

    function CacheField(c: CacheId): Cache
      reads this
    {
      match c
      case RuleTargets => ruleTargetAttributeMaps
      case RuleConditions => ruleConditionAttributeMaps
      case PolicyTargets => policyTargetAttributeMaps
      case PolicySetTargets => policySetTargetAttributeMaps
    }

    method SetCache(ghost ctx: Context, c: CacheId, cache: Cache)
      modifies this`ruleTargetAttributeMaps, this`ruleConditionAttributeMaps,
               this`policyTargetAttributeMaps, this`policySetTargetAttributeMaps
      ensures Snap(ctx) == WithCache(old(Snap(ctx)), c, cache)
    {
      match c
      case RuleTargets => ruleTargetAttributeMaps := cache;
      case RuleConditions => ruleConditionAttributeMaps := cache;
      case PolicyTargets => policyTargetAttributeMaps := cache;
      case PolicySetTargets => policySetTargetAttributeMaps := cache;
    }

    /** retrieveTargetAttributeMap(element, attributeMaps) with the cache
        named by c; retrieveRuleConditionAttributeMap is c == RuleConditions. */
    method RetrieveAttributeMap(ctx: Context, c: CacheId, id: Value, version: Value,
                                anyOfArr: Option<AnyOfArr>, env: Env) returns (m: Value)
      modifies this`ruleTargetAttributeMaps, this`ruleConditionAttributeMaps,
               this`policyTargetAttributeMaps, this`policySetTargetAttributeMaps
      ensures (m, Snap(ctx)) == Lookup(env, old(Snap(ctx)), c, id, version, anyOfArr)
    {
      ghost var st := Snap(ctx);
      var cache := CacheField(c);
      assert cache == CacheOf(st, c);
      var key := ToString(id);
      if key in cache && cache[key].version == version {
        m := cache[key].attributeMap;
        assert Lookup(env, st, c, id, version, anyOfArr) == (m, st);
        return;
      }
      m := env.attributeMapOf(anyOfArr);
      SetCache(ctx, c, cache[key := Container(version, m)]);
      assert Lookup(env, st, c, id, version, anyOfArr) == (m, WithCache(st, c, cache[key := Container(version, m)]));
    }

    /** Pip.retrieveAttributes(context, attributeMap) through the oracle. */
    method RetrieveAttributes(ctx: Context, attributeMap: Value, env: Env) returns (res: Resolution)
      modifies ctx`attributes
      ensures (res, Snap(ctx)) == ResolveAttributes(env, old(Snap(ctx)), attributeMap)
    {
      var r := env.resolve(ctx.attributes, attributeMap);
      if r.None? {
        return Failed;
      }
      ctx.attributes := r.value.0;
      res := if |r.value.1| > 0 then Incomplete else Complete;
    }

    /** The target check of combineDecision and evaluateRule; `halt` is the
        outcome it ends evaluation with, if any. */
    method CheckTarget(ctx: Context, c: CacheId, id: Value, version: Value,
                       target: Option<AnyOfArr>, env: Env) returns (halt: Option<Outcome>)
      modifies this`ruleTargetAttributeMaps, this`ruleConditionAttributeMaps,
               this`policyTargetAttributeMaps, this`policySetTargetAttributeMaps, ctx`attributes
      ensures var g := TargetGate(env, old(Snap(ctx)), c, id, version, target);
              Snap(ctx) == g.st && (halt.None? <==> g.Pass?) && (g.Halt? ==> halt == Some(g.out))
    {
      var m := RetrieveAttributeMap(ctx, c, id, version, target, env);
      var res := RetrieveAttributes(ctx, m, env);
      if res == Failed {
        return Some(Thrown(PipFailed));
      }
      if res == Incomplete {
        return Some(Decided(Indeterminate));
      }
      if target.None? {
        return Some(Thrown(TypeError));
      }
      var v := EvaluateAnyOfArr(ExprIn(env, ctx.attributes), target.value);
      if v == Indet {
        return Some(Decided(Indeterminate));
      }
      if v == False {
        return Some(Decided(NotApplicable));
      }
      return None;
    }

    method EvaluateRule(ctx: Context, r: Rule, env: Env) returns (out: Outcome)
      requires env.handlers == ruleHandlerMap
      modifies this`ruleTargetAttributeMaps, this`ruleConditionAttributeMaps,
               this`policyTargetAttributeMaps, this`policySetTargetAttributeMaps, ctx`attributes
      ensures Eval(out, Snap(ctx)) == RuleEval(env, old(Snap(ctx)), r)
    {
      var halt := CheckTarget(ctx, RuleTargets, r.id, r.version, r.target, env);
      if halt.Some? {
        return halt.value;
      }
      ghost var st1 := Snap(ctx);
      var handlerDefined := IsPresent(r.handlerId);
      if r.condition.Some? && handlerDefined {
        return Decided(Indeterminate);
      }
      var conditionAttributeMap: Value;
      var ruleHandler: Value := Undefined;
      if r.condition.Some? {
        conditionAttributeMap := RetrieveAttributeMap(ctx, RuleConditions, r.id, r.version, r.condition, env);
      } else if handlerDefined {
        var key := ToString(r.handlerId);
        if key !in ruleHandlerMap || !Truthy(ruleHandlerMap[key]) {
          return Decided(Indeterminate);
        }
        ruleHandler := ruleHandlerMap[key];
        conditionAttributeMap := HandlerAttributeMap(ruleHandler);
      } else {
        conditionAttributeMap := Null;
      }
      ghost var st2 := Snap(ctx);
      if Truthy(conditionAttributeMap) {
        var res := RetrieveAttributes(ctx, conditionAttributeMap, env);
        if res == Failed {
          return Thrown(PipFailed);
        }
        if res == Incomplete {
          return Decided(Indeterminate);
        }
      }
      assert (Complete, Snap(ctx)) == ConditionAttributes(env, st2, conditionAttributeMap);
      if r.condition.None? && !handlerDefined {
        return Decided(r.effect);
      } else if r.condition.Some? {
        var v := EvaluateAnyOfArr(ExprIn(env, ctx.attributes), r.condition.value);
        return Decided(Judge(r.effect, TruthValue(v)));
      } else {
        var v := env.runHandler(ctx.attributes, ruleHandler);
        if v.None? {
          return Thrown(HandlerFailed);
        }
        return Decided(Judge(r.effect, v.value));
      }
    }

    method CombineDecision(ctx: Context, e: Element, env: Env) returns (out: Outcome)
      requires env.handlers == ruleHandlerMap
      modifies this`ruleTargetAttributeMaps, this`ruleConditionAttributeMaps,
               this`policyTargetAttributeMaps, this`policySetTargetAttributeMaps,
               ctx`attributes, ctx`policyList
      ensures Eval(out, Snap(ctx)) == Combine(env, old(Snap(ctx)), e)
      decreases e, 3
    {
      if Truthy(e.id) {
        var c := if e.Policy? then PolicyTargets else PolicySetTargets;
        var halt := CheckTarget(ctx, c, e.id, e.version, e.target, env);
        if halt.Some? {
          return halt.value;
        }
      }
      ghost var st1 := Snap(ctx);
      if e.algorithm.Other? {
        return Decided(Indeterminate);
      }
      var alg := e.algorithm.alg;
      if alg == DenyOverrides {
        out := DenyOverridesReduce(ctx, e, env);
      }
      if alg == PermitOverrides {
        out := PermitOverridesReduce(ctx, e, env);
      }
      if alg == DenyUnlessPermit {
        out := DenyUnlessPermitReduce(ctx, e, env);
      }
      if alg == PermitUnlessDeny {
        out := PermitUnlessDenyReduce(ctx, e, env);
      }
      if alg == PermitOverrides {
        ghost var st2 := Snap(ctx);
        assert Reduce(env, st1, e, alg) == Run(out, st2, Reduce(env, st1, e, alg).seen);
        if out.Thrown? {
          return;
        }
        out := PermitOverridesReduce(ctx, e, env);
      }
      if alg == FirstApplicable {
        out := FirstApplicableReduce(ctx, e, env);
      }
      if alg == OnlyOneApplicable {
        out := OnlyOneApplicableReduce(ctx, e, env);
      }
      if out.Decided? && Truthy(e.id) {
        ctx.policyList := ctx.policyList + [TraceEntry(e, out.d)];
      }
    }

    /** Child i of e: evaluateRule for a rule, combineDecision otherwise. */
    method EvaluateChild(ctx: Context, e: Element, i: nat, env: Env) returns (out: Outcome)
      requires i < KidCount(e) && env.handlers == ruleHandlerMap
      modifies this`ruleTargetAttributeMaps, this`ruleConditionAttributeMaps,
               this`policyTargetAttributeMaps, this`policySetTargetAttributeMaps,
               ctx`attributes, ctx`policyList
      ensures Eval(out, Snap(ctx)) == ChildEval(env, old(Snap(ctx)), e, i)
      decreases e, 0, KidCount(e) - i, 0
    {
      match e
      case Policy(_, _, _, _, rules) =>
        out := EvaluateRule(ctx, rules[i], env);
      case PolicySet(_, _, _, _, policies, policySets) =>
        if i < |policies| {
          assert policies[i] in policies;
          out := CombineDecision(ctx, policies[i], env);
        } else {
          assert policySets[i - |policies|] in policySets;
          out := CombineDecision(ctx, policySets[i - |policies|], env);
        }
    }

    method DenyOverridesReduce(ctx: Context, e: Element, env: Env) returns (out: Outcome)
      requires env.handlers == ruleHandlerMap
      modifies this`ruleTargetAttributeMaps, this`ruleConditionAttributeMaps,
               this`policyTargetAttributeMaps, this`policySetTargetAttributeMaps,
               ctx`attributes, ctx`policyList
      ensures out == Reduce(env, old(Snap(ctx)), e, DenyOverrides).out
      ensures Snap(ctx) == Reduce(env, old(Snap(ctx)), e, DenyOverrides).st
      decreases e, 1
    {
      var deny, indeterminate, permit := false, false, false;
      var i := 0;
      ghost var seen: seq<Decision> := [];
      while i < KidCount(e)
        invariant i <= KidCount(e) && |seen| == i
        invariant Reduce(env, old(Snap(ctx)), e, DenyOverrides) ==
                  RunFrom(env, Snap(ctx), DenyOverrides, e, i, Flags(deny, permit, indeterminate, NotApplicable), seen)
        decreases KidCount(e) - i
      {
        if deny {
          return Decided(Deny);
        }
        ghost var f := Flags(deny, permit, indeterminate, NotApplicable);
        ghost var before := Snap(ctx);
        var decision := EvaluateChild(ctx, e, i, env);
        assert RunFrom(env, before, DenyOverrides, e, i, f, seen) ==
               if decision.Thrown? then Run(decision, Snap(ctx), seen)
               else RunFrom(env, Snap(ctx), DenyOverrides, e, i + 1, Step(DenyOverrides, f, decision.d), seen + [decision.d]);
        if decision.Thrown? {
          return decision;
        }
        deny := decision.d == Deny;
        if !indeterminate {
          indeterminate := decision.d == Indeterminate;
        }
        if !permit {
          permit := decision.d == Permit;
        }
        i, seen := i + 1, seen + [decision.d];
      }
      if deny {
        return Decided(Deny);
      }
      if indeterminate {
        return Decided(Indeterminate);
      }
      if permit {
        return Decided(Permit);
      }
      return Decided(NotApplicable);
    }

    method PermitOverridesReduce(ctx: Context, e: Element, env: Env) returns (out: Outcome)
      requires env.handlers == ruleHandlerMap
      modifies this`ruleTargetAttributeMaps, this`ruleConditionAttributeMaps,
               this`policyTargetAttributeMaps, this`policySetTargetAttributeMaps,
               ctx`attributes, ctx`policyList
      ensures out == Reduce(env, old(Snap(ctx)), e, PermitOverrides).out
      ensures Snap(ctx) == Reduce(env, old(Snap(ctx)), e, PermitOverrides).st
      decreases e, 1
    {
      var permit, indeterminate, deny := false, false, false;
      var i := 0;
      ghost var seen: seq<Decision> := [];
      while i < KidCount(e)
        invariant i <= KidCount(e) && |seen| == i
        invariant Reduce(env, old(Snap(ctx)), e, PermitOverrides) ==
                  RunFrom(env, Snap(ctx), PermitOverrides, e, i, Flags(deny, permit, indeterminate, NotApplicable), seen)
        decreases KidCount(e) - i
      {
        if permit {
          return Decided(Permit);
        }
        ghost var f := Flags(deny, permit, indeterminate, NotApplicable);
        ghost var before := Snap(ctx);
        var decision := EvaluateChild(ctx, e, i, env);
        assert RunFrom(env, before, PermitOverrides, e, i, f, seen) ==
               if decision.Thrown? then Run(decision, Snap(ctx), seen)
               else RunFrom(env, Snap(ctx), PermitOverrides, e, i + 1, Step(PermitOverrides, f, decision.d), seen + [decision.d]);
        if decision.Thrown? {
          return decision;
        }
        permit := decision.d == Permit;
        if !indeterminate {
          indeterminate := decision.d == Indeterminate;
        }
        if !permit {
          permit := decision.d == Permit;
        }
        i, seen := i + 1, seen + [decision.d];
      }
      if permit {
        return Decided(Permit);
      }
      if indeterminate {
        return Decided(Indeterminate);
      }
      if deny {
        return Decided(Deny);
      }
      return Decided(NotApplicable);
    }

    method DenyUnlessPermitReduce(ctx: Context, e: Element, env: Env) returns (out: Outcome)
      requires env.handlers == ruleHandlerMap
      modifies this`ruleTargetAttributeMaps, this`ruleConditionAttributeMaps,
               this`policyTargetAttributeMaps, this`policySetTargetAttributeMaps,
               ctx`attributes, ctx`policyList
      ensures out == Reduce(env, old(Snap(ctx)), e, DenyUnlessPermit).out
      ensures Snap(ctx) == Reduce(env, old(Snap(ctx)), e, DenyUnlessPermit).st
      decreases e, 1
    {
      var permit := false;
      var i := 0;
      ghost var seen: seq<Decision> := [];
      while i < KidCount(e)
        invariant i <= KidCount(e) && |seen| == i
        invariant Reduce(env, old(Snap(ctx)), e, DenyUnlessPermit) ==
                  RunFrom(env, Snap(ctx), DenyUnlessPermit, e, i, Flags(false, permit, false, NotApplicable), seen)
        decreases KidCount(e) - i
      {
        if permit {
          return Decided(Permit);
        }
        ghost var f := Flags(false, permit, false, NotApplicable);
        ghost var before := Snap(ctx);
        var decision := EvaluateChild(ctx, e, i, env);
        assert RunFrom(env, before, DenyUnlessPermit, e, i, f, seen) ==
               if decision.Thrown? then Run(decision, Snap(ctx), seen)
               else RunFrom(env, Snap(ctx), DenyUnlessPermit, e, i + 1, Step(DenyUnlessPermit, f, decision.d), seen + [decision.d]);
        if decision.Thrown? {
          return decision;
        }
        permit := decision.d == Permit;
        i, seen := i + 1, seen + [decision.d];
      }
      if permit {
        return Decided(Permit);
      }
      return Decided(Deny);
    }

    method PermitUnlessDenyReduce(ctx: Context, e: Element, env: Env) returns (out: Outcome)
      requires env.handlers == ruleHandlerMap
      modifies this`ruleTargetAttributeMaps, this`ruleConditionAttributeMaps,
               this`policyTargetAttributeMaps, this`policySetTargetAttributeMaps,
               ctx`attributes, ctx`policyList
      ensures out == Reduce(env, old(Snap(ctx)), e, PermitUnlessDeny).out
      ensures Snap(ctx) == Reduce(env, old(Snap(ctx)), e, PermitUnlessDeny).st
      decreases e, 1
    {
      var deny := false;
      var i := 0;
      ghost var seen: seq<Decision> := [];
      while i < KidCount(e)
        invariant i <= KidCount(e) && |seen| == i
        invariant Reduce(env, old(Snap(ctx)), e, PermitUnlessDeny) ==
                  RunFrom(env, Snap(ctx), PermitUnlessDeny, e, i, Flags(deny, false, false, NotApplicable), seen)
        decreases KidCount(e) - i
      {
        if deny {
          return Decided(Deny);
        }
        ghost var f := Flags(deny, false, false, NotApplicable);
        ghost var before := Snap(ctx);
        var decision := EvaluateChild(ctx, e, i, env);
        assert RunFrom(env, before, PermitUnlessDeny, e, i, f, seen) ==
               if decision.Thrown? then Run(decision, Snap(ctx), seen)
               else RunFrom(env, Snap(ctx), PermitUnlessDeny, e, i + 1, Step(PermitUnlessDeny, f, decision.d), seen + [decision.d]);
        if decision.Thrown? {
          return decision;
        }
        deny := decision.d == Deny;
        i, seen := i + 1, seen + [decision.d];
      }
      if deny {
        return Decided(Deny);
      }
      return Decided(Permit);
    }

    method FirstApplicableReduce(ctx: Context, e: Element, env: Env) returns (out: Outcome)
      requires env.handlers == ruleHandlerMap
      modifies this`ruleTargetAttributeMaps, this`ruleConditionAttributeMaps,
               this`policyTargetAttributeMaps, this`policySetTargetAttributeMaps,
               ctx`attributes, ctx`policyList
      ensures out == Reduce(env, old(Snap(ctx)), e, FirstApplicable).out
      ensures Snap(ctx) == Reduce(env, old(Snap(ctx)), e, FirstApplicable).st
      decreases e, 1
    {
      var decision := NotApplicable;
      var i := 0;
      ghost var seen: seq<Decision> := [];
      while i < KidCount(e)
        invariant i <= KidCount(e) && |seen| == i
        invariant Reduce(env, old(Snap(ctx)), e, FirstApplicable) ==
                  RunFrom(env, Snap(ctx), FirstApplicable, e, i, Flags(false, false, false, decision), seen)
        decreases KidCount(e) - i
      {
        if decision != NotApplicable {
          return Decided(decision);
        }
        ghost var f := Flags(false, false, false, decision);
        ghost var before := Snap(ctx);
        var child := EvaluateChild(ctx, e, i, env);
        assert RunFrom(env, before, FirstApplicable, e, i, f, seen) ==
               if child.Thrown? then Run(child, Snap(ctx), seen)
               else RunFrom(env, Snap(ctx), FirstApplicable, e, i + 1, Step(FirstApplicable, f, child.d), seen + [child.d]);
        if child.Thrown? {
          return child;
        }
        decision := child.d;
        i, seen := i + 1, seen + [child.d];
      }
      return Decided(NotApplicable);
    }

    method OnlyOneApplicableReduce(ctx: Context, e: Element, env: Env) returns (out: Outcome)
      requires env.handlers == ruleHandlerMap
      modifies this`ruleTargetAttributeMaps, this`ruleConditionAttributeMaps,
               this`policyTargetAttributeMaps, this`policySetTargetAttributeMaps,
               ctx`attributes, ctx`policyList
      ensures out == Reduce(env, old(Snap(ctx)), e, OnlyOneApplicable).out
      ensures Snap(ctx) == Reduce(env, old(Snap(ctx)), e, OnlyOneApplicable).st
      decreases e, 1
    {
      if e.Policy? {
        return Thrown(TypeError);
      }
      var indeterminate := false;
      var result := NotApplicable;
      var i := 0;
      ghost var seen: seq<Decision> := [];
      while i < KidCount(e)
        invariant i <= KidCount(e) && |seen| == i
        invariant Reduce(env, old(Snap(ctx)), e, OnlyOneApplicable) ==
                  RunFrom(env, Snap(ctx), OnlyOneApplicable, e, i, Flags(false, false, indeterminate, result), seen)
        decreases KidCount(e) - i
      {
        if indeterminate {
          return Decided(Indeterminate);
        }
        ghost var f := Flags(false, false, indeterminate, result);
        ghost var before := Snap(ctx);
        var decision := EvaluateChild(ctx, e, i, env);
        assert RunFrom(env, before, OnlyOneApplicable, e, i, f, seen) ==
               if decision.Thrown? then Run(decision, Snap(ctx), seen)
               else RunFrom(env, Snap(ctx), OnlyOneApplicable, e, i + 1, Step(OnlyOneApplicable, f, decision.d), seen + [decision.d]);
        if decision.Thrown? {
          return decision;
        }
        indeterminate := decision.d == Indeterminate ||
                         (decision.d != NotApplicable && result != NotApplicable);
        result := decision.d;
        i, seen := i + 1, seen + [decision.d];
      }
      if indeterminate {
        return Decided(Indeterminate);
      }
      return Decided(result);
    }

    /** bootstrap: clears the flag, registers the retrieved handlers, and
        sets the flag again only when nothing was reported or thrown.
        Handlers registered before the failure stay registered. */
    method Bootstrap(retrieved: Option<Value>) returns (outcome: BootstrapOutcome)
      modifies this`bootstrapped, this`ruleHandlerMap
      ensures var r := RegistrationOf(retrieved, old(ruleHandlerMap));
              ruleHandlerMap == r.registry &&
              bootstrapped == (r.errors == [] && !r.thrown) &&
              outcome == (if bootstrapped then Ready else Rejected(r.errors, r.thrown))
    {
      var errors := new Normalizer.ErrorList();
      bootstrapped := false;
      var thrown := false;
      if retrieved.None? || !retrieved.value.Arr? {
        thrown := true;
        assert RegistrationOf(retrieved, old(ruleHandlerMap)) == Registration(ruleHandlerMap, errors.items, thrown);
      } else {
        var elements := retrieved.value.items;
        var i := 0;
        while i < |elements|
          invariant 0 <= i <= |elements|
          invariant var rest := Register(elements[i..], ruleHandlerMap);
                    Register(elements, old(ruleHandlerMap)) ==
                    Registration(rest.registry, errors.items + rest.errors, rest.thrown)
          invariant !thrown && !bootstrapped
        {
          RegisterUnfold(elements, i, ruleHandlerMap);
          ghost var before := errors.items;
          var handler := Normalizer.GetRuleHandler(elements[i], errors);
          if handler.None? {
            thrown := true;
            assert Register(elements, old(ruleHandlerMap)) == Registration(ruleHandlerMap, errors.items, true);
            break;
          }
          ghost var rest := Register(elements[i + 1..], Enter(ruleHandlerMap, handler.value));
          Normalizer.AppendAssociates(before, Normalizer.RuleHandlerOf(elements[i]).errors, rest.errors);
          if IsPresent(HandlerId(handler.value)) {
            ruleHandlerMap := ruleHandlerMap[ToString(HandlerId(handler.value)) := handler.value];
          }
          i := i + 1;
        }
        if !thrown {
          assert elements[i..] == [];
          assert Register(elements, old(ruleHandlerMap)) == Registration(ruleHandlerMap, errors.items + [], false);
          assert errors.items + [] == errors.items;
        }
        assert RegistrationOf(retrieved, old(ruleHandlerMap)) == Registration(ruleHandlerMap, errors.items, thrown);
      }
      if |errors.items| > 0 || thrown {
        return Rejected(errors.items, thrown);
      }
      bootstrapped := true;
      return Ready;
    }

    /** EvaluateDecisionRequest: refuse before bootstrap, refuse when the
        policy retrieval reported errors, otherwise combine the retrieved
        policies and sets under the configured algorithm and store the
        decision in the context. `retrieved` is what the Prp returned for the
        context's queries, None when it reported errors. */
    method EvaluateDecisionRequest(ctx: Context, algorithm: AlgorithmRef,
                                   retrieved: Option<(seq<Element>, seq<Element>)>,
                                   attributeMapOf: Option<AnyOfArr> -> Value,
                                   resolve: (Value, Value) -> Option<(Value, seq<string>)>,
                                   toExpression: (Value, string) -> Option<string>,
                                   eval: (Value, string) -> Option<Value>,
                                   runHandler: (Value, Value) -> Option<Value>)
      returns (out: Outcome)
      modifies this`ruleTargetAttributeMaps, this`ruleConditionAttributeMaps,
               this`policyTargetAttributeMaps, this`policySetTargetAttributeMaps,
               ctx`attributes, ctx`policyList, ctx`decision
      ensures !bootstrapped ==> out == Thrown(NotBootstrapped) && Snap(ctx) == old(Snap(ctx)) &&
                                ctx.decision == old(ctx.decision)
      ensures bootstrapped && retrieved.None? ==> out == Thrown(RetrievalFailed) &&
                                                  Snap(ctx) == old(Snap(ctx)) && ctx.decision == old(ctx.decision)
      ensures bootstrapped && retrieved.Some? ==>
                var env := Env(ruleHandlerMap, attributeMapOf, resolve, toExpression, eval, runHandler);
                Eval(out, Snap(ctx)) == Combine(env, old(Snap(ctx)), Root(algorithm, retrieved.value.0, retrieved.value.1)) &&
                ctx.decision == (if out.Decided? then Some(out.d) else old(ctx.decision))
    {
      if !bootstrapped {
        return Thrown(NotBootstrapped);
      }
      if retrieved.None? {
        return Thrown(RetrievalFailed);
      }
      var env := Env(ruleHandlerMap, attributeMapOf, resolve, toExpression, eval, runHandler);
      var policySet := Root(algorithm, retrieved.value.0, retrieved.value.1);
      out := CombineDecision(ctx, policySet, env);
      if out.Decided? {
        ctx.decision := Some(out.d);
      }
    }
  }
}
