/**
 * What the decision engine of src/points/pdp.ts guarantees, stated over the
 * functions of module Pdp: the trace only grows and only ever records
 * identified elements; each reducer call computes the combining fold of
 * module Combining over the decisions of the children it evaluated; the
 * caches are reused exactly while the version is unchanged; a rule only
 * ever yields its own effect, NotApplicable or Indeterminate; bootstrap
 * registers each handler under its own id, never forgets one, and throws
 * exactly when a retrieved element is null or undefined.
 */
module PdpProperties {
  import opened Js
  import opened Xacml
  import opened Combining
  import opened Walker
  import opened Pdp
  import Normalizer

  // ---------------------------------------------------------------------
  // The trace

  /** st' keeps st's trace as a prefix and every entry added since names an
      element with a truthy id. */
  predicate Extends(st: State, st': State)
  {
    st.trace <= st'.trace &&
    forall k :: |st.trace| <= k < |st'.trace| ==> Truthy(st'.trace[k].policy.id)
  }

  lemma ExtendsTransitive(a: State, b: State, c: State)
    requires Extends(a, b) && Extends(b, c)
    ensures Extends(a, c)
  {
    forall k | |a.trace| <= k < |c.trace|
      ensures Truthy(c.trace[k].policy.id)
    {
      if k < |b.trace| {
        assert c.trace[k] == b.trace[k];
      }
    }
  }

  lemma GateKeepsTrace(env: Env, st: State, c: CacheId, id: Value, version: Value, target: Option<AnyOfArr>)
    ensures TargetGate(env, st, c, id, version, target).st.trace == st.trace
  {
  }

  /** evaluateRule never touches `policyList`. */
  lemma {:induction false} EvaluateRuleKeepsTrace(env: Env, st: State, r: Rule)
    ensures RuleEval(env, st, r).st.trace == st.trace
  {
    GateKeepsTrace(env, st, RuleTargets, r.id, r.version, r.target);
  }

  lemma {:induction false} CombineExtends(env: Env, st: State, e: Element)
    ensures Extends(st, Combine(env, st, e).st)
    decreases e, 3
  {
    if !Truthy(e.id) {
      DispatchExtends(env, st, e);
    } else {
      var c := if e.Policy? then PolicyTargets else PolicySetTargets;
      var g := TargetGate(env, st, c, e.id, e.version, e.target);
      GateKeepsTrace(env, st, c, e.id, e.version, e.target);
      if g.Pass? {
        DispatchExtends(env, g.st, e);
      }
    }
  }

  lemma {:induction false} DispatchExtends(env: Env, st: State, e: Element)
    ensures Extends(st, Dispatch(env, st, e).st)
    decreases e, 2
  {
    if e.algorithm.BuiltIn? {
      var alg := e.algorithm.alg;
      var r := Reduce(env, st, e, alg);
      ReduceExtends(env, st, e, alg);
      var r2 := r;
      if alg == PermitOverrides && r.out.Decided? {
        r2 := Reduce(env, r.st, e, alg);
        ReduceExtends(env, r.st, e, alg);
        ExtendsTransitive(st, r.st, r2.st);
      }
      assert Extends(r2.st, Record(e, r2.out, r2.st));
      ExtendsTransitive(st, r2.st, Record(e, r2.out, r2.st));
    }
  }

  lemma {:induction false} ReduceExtends(env: Env, st: State, e: Element, alg: Algorithm)
    ensures Extends(st, Reduce(env, st, e, alg).st)
    decreases e, 1
  {
    if !(alg == OnlyOneApplicable && e.Policy?) {
      RunExtends(env, st, alg, e, 0, Start, []);
    }
  }

  lemma {:induction false} RunExtends(env: Env, st: State, alg: Algorithm, e: Element, i: nat,
                                      f: Flags, seen: seq<Decision>)
    requires i <= KidCount(e)
    ensures Extends(st, RunFrom(env, st, alg, e, i, f, seen).st)
    decreases e, 0, KidCount(e) - i
  {
    if i < KidCount(e) && !Stop(alg, f) {
      var c := ChildEval(env, st, e, i);
      ChildExtends(env, st, e, i);
      if c.out.Decided? {
        RunExtends(env, c.st, alg, e, i + 1, Step(alg, f, c.out.d), seen + [c.out.d]);
        ExtendsTransitive(st, c.st, RunFrom(env, c.st, alg, e, i + 1, Step(alg, f, c.out.d), seen + [c.out.d]).st);
      }
    }
  }

  lemma {:induction false} ChildExtends(env: Env, st: State, e: Element, i: nat)
    requires i < KidCount(e)
    ensures Extends(st, ChildEval(env, st, e, i).st)
    decreases e, 0, KidCount(e) - i, 0
  {
    match e
    case Policy(_, _, _, _, rules) =>
      EvaluateRuleKeepsTrace(env, st, rules[i]);
    case PolicySet(_, _, _, _, policies, policySets) =>
      if i < |policies| {
        assert policies[i] in policies;
        CombineExtends(env, st, policies[i]);
      } else {
        assert policySets[i - |policies|] in policySets;
        CombineExtends(env, st, policySets[i - |policies|]);
      }
  }

  /** The synthetic root (null id) is never recorded: every entry an
      evaluation adds names an element with a truthy id. */
  lemma RootNeverTraced(env: Env, st: State, algorithm: AlgorithmRef,
                        policies: seq<Element>, policySets: seq<Element>)
    ensures var st' := Combine(env, st, Root(algorithm, policies, policySets)).st;
            st.trace <= st'.trace &&
            forall k :: |st.trace| <= k < |st'.trace| ==>
              st'.trace[k].policy != Root(algorithm, policies, policySets)
  {
    CombineExtends(env, st, Root(algorithm, policies, policySets));
  }

  /** An identified element whose target matched and whose algorithm is a
      built-in is recorded last, with the decision it returns; one whose
      target check stopped evaluation records nothing. */
  lemma CombineRecords(env: Env, st: State, e: Element)
    requires Truthy(e.id)
    ensures var c := if e.Policy? then PolicyTargets else PolicySetTargets;
            var g := TargetGate(env, st, c, e.id, e.version, e.target);
            var r := Combine(env, st, e);
            (g.Halt? ==> r.out == g.out && r.st.trace == st.trace) &&
            (g.Pass? && e.algorithm.BuiltIn? && r.out.Decided? ==>
               |r.st.trace| > 0 && r.st.trace[|r.st.trace| - 1] == TraceEntry(e, r.out.d))
  {
    var c := if e.Policy? then PolicyTargets else PolicySetTargets;
    GateKeepsTrace(env, st, c, e.id, e.version, e.target);
  }

  /** A value outside the built-in algorithms is Indeterminate and records nothing. */
  lemma UnknownAlgorithmIndeterminate(env: Env, st: State, e: Element)
    requires e.algorithm.Other?
    ensures Dispatch(env, st, e) == Eval(Decided(Indeterminate), st)
  {
  }

  // ---------------------------------------------------------------------
  // Reducers are the combining folds

  /** The decisions a run saw, followed by NotApplicable for the children it
      never evaluated. */
  function Completed(seen: seq<Decision>, n: nat): (ds: seq<Decision>)
    requires |seen| <= n
    ensures |ds| == n && seen <= ds
  {
    seen + seq(n - |seen|, _ => NotApplicable)
  }

  /** One turn of the reducer loop. */
  lemma RunFromUnfold(env: Env, st: State, alg: Algorithm, e: Element, i: nat, f: Flags, seen: seq<Decision>)
    requires i < KidCount(e) && !Stop(alg, f)
    ensures var c := ChildEval(env, st, e, i);
            RunFrom(env, st, alg, e, i, f, seen) ==
              if c.out.Thrown? then Run(c.out, c.st, seen)
              else RunFrom(env, c.st, alg, e, i + 1, Step(alg, f, c.out.d), seen + [c.out.d])
  {
  }

  lemma FoldFromUnfold(alg: Algorithm, ds: seq<Decision>, i: nat, f: Flags)
    requires i < |ds| && !Stop(alg, f)
    ensures FoldFrom(alg, ds, i, f) == FoldFrom(alg, ds, i + 1, Step(alg, f, ds[i]))
    ensures ConsumedFrom(alg, ds, i, f) == ConsumedFrom(alg, ds, i + 1, Step(alg, f, ds[i]))
  {
  }

  /** What a reducer run from child i with flags f, having seen `seen`,
      promises: it only extends `seen`, and a decision it reaches is the
      fold's from i on any completion of what it saw, after consuming what
      it saw. */
  ghost predicate FoldsAs(alg: Algorithm, e: Element, i: nat, f: Flags, seen: seq<Decision>, r: Run)
  {
    seen <= r.seen && |r.seen| <= KidCount(e) &&
    (r.out.Decided? ==>
       forall ds :: |ds| == KidCount(e) && r.seen <= ds ==>
         i <= |ds| && FoldFrom(alg, ds, i, f) == r.out.d && ConsumedFrom(alg, ds, i, f) == |r.seen|)
  }

  /** A decided child extends the fold by one step, whatever decisions the
      children after it would have. */
  lemma FoldsAsStep(alg: Algorithm, e: Element, i: nat, f: Flags, seen: seq<Decision>, d: Decision, r: Run)
    requires |seen| == i && i < KidCount(e) && !Stop(alg, f)
    requires FoldsAs(alg, e, i + 1, Step(alg, f, d), seen + [d], r)
    ensures FoldsAs(alg, e, i, f, seen, r)
  {
    if r.out.Decided? {
      forall ds | |ds| == KidCount(e) && r.seen <= ds
        ensures i <= |ds| && FoldFrom(alg, ds, i, f) == r.out.d && ConsumedFrom(alg, ds, i, f) == |r.seen|
      {
        assert ds[i] == r.seen[i] == (seen + [d])[i] == d;
        FoldFromUnfold(alg, ds, i, f);
      }
    }
  }

  lemma {:induction false} RunFromIsFold(env: Env, st: State, alg: Algorithm, e: Element, i: nat,
                                         f: Flags, seen: seq<Decision>)
    requires i <= KidCount(e) && |seen| == i
    ensures FoldsAs(alg, e, i, f, seen, RunFrom(env, st, alg, e, i, f, seen))
    decreases KidCount(e) - i
  {
    if i < KidCount(e) && !Stop(alg, f) {
      var c := ChildEval(env, st, e, i);
      RunFromUnfold(env, st, alg, e, i, f, seen);
      if c.out.Decided? {
        var d := c.out.d;
        RunFromIsFold(env, c.st, alg, e, i + 1, Step(alg, f, d), seen + [d]);
        FoldsAsStep(alg, e, i, f, seen, d, RunFrom(env, c.st, alg, e, i + 1, Step(alg, f, d), seen + [d]));
      }
    }
  }

  /** Each reducer call decides what the combining fold of its algorithm
      decides on the children's decisions, whatever the children it did not
      evaluate would have decided, and it evaluated exactly as many children
      as the fold consumes. */
  lemma ReduceIsFold(env: Env, st: State, e: Element, alg: Algorithm)
    ensures var r := Reduce(env, st, e, alg);
            |r.seen| <= KidCount(e) &&
            (alg == OnlyOneApplicable && e.Policy? ==> r.out == Thrown(TypeError)) &&
            (r.out.Decided? ==>
               forall ds :: |ds| == KidCount(e) && r.seen <= ds ==>
                 Fold(alg, ds) == r.out.d && Consumed(alg, ds) == |r.seen|)
  {
    if !(alg == OnlyOneApplicable && e.Policy?) {
      RunFromIsFold(env, st, alg, e, 0, Start, []);
    }
  }

  lemma InWithNotApplicablePadding(seen: seq<Decision>, n: nat, d: Decision)
    requires |seen| <= n && d != NotApplicable
    ensures d in Completed(seen, n) <==> d in seen
  {
    var ds := Completed(seen, n);
    if d in ds {
      var k :| 0 <= k < |ds| && ds[k] == d;
      assert k < |seen| && seen[k] == d;
    }
  }

  /** Engine-level meaning of the four flag-only reducers, on the decisions of
      the children each one evaluated. */
  lemma ReducerMeanings(env: Env, st: State, e: Element)
    ensures var r := Reduce(env, st, e, DenyOverrides);
            r.out.Decided? ==> r.out.d == DenyOverridesValue(r.seen)
    ensures var r := Reduce(env, st, e, PermitOverrides);
            r.out.Decided? ==> r.out.d == PermitOverridesValue(r.seen) && r.out.d != Deny
    ensures var r := Reduce(env, st, e, DenyUnlessPermit);
            r.out.Decided? ==> r.out.d == (if Permit in r.seen then Permit else Deny)
    ensures var r := Reduce(env, st, e, PermitUnlessDeny);
            r.out.Decided? ==> r.out.d == (if Deny in r.seen then Deny else Permit)
  {
    var n := KidCount(e);
    var r1 := Reduce(env, st, e, DenyOverrides);
    ReduceIsFold(env, st, e, DenyOverrides);
    if r1.out.Decided? {
      var ds := Completed(r1.seen, n);
      DenyOverridesMeaning(ds);
      InWithNotApplicablePadding(r1.seen, n, Deny);
      InWithNotApplicablePadding(r1.seen, n, Permit);
      InWithNotApplicablePadding(r1.seen, n, Indeterminate);
    }
    var r2 := Reduce(env, st, e, PermitOverrides);
    ReduceIsFold(env, st, e, PermitOverrides);
    if r2.out.Decided? {
      var ds := Completed(r2.seen, n);
      PermitOverridesMeaning(ds);
      InWithNotApplicablePadding(r2.seen, n, Deny);
      InWithNotApplicablePadding(r2.seen, n, Permit);
      InWithNotApplicablePadding(r2.seen, n, Indeterminate);
    }
    var r3 := Reduce(env, st, e, DenyUnlessPermit);
    ReduceIsFold(env, st, e, DenyUnlessPermit);
    if r3.out.Decided? {
      DenyUnlessPermitMeaning(Completed(r3.seen, n));
      InWithNotApplicablePadding(r3.seen, n, Permit);
    }
    var r4 := Reduce(env, st, e, PermitUnlessDeny);
    ReduceIsFold(env, st, e, PermitUnlessDeny);
    if r4.out.Decided? {
      PermitUnlessDenyMeaning(Completed(r4.seen, n));
      InWithNotApplicablePadding(r4.seen, n, Deny);
    }
  }

  /** Whatever its children decide, an element combined by PermitOverrides is
      never denied, and one combined by DenyUnlessPermit or PermitUnlessDeny
      is always Permit or Deny once it gets past its target. */
  lemma DispatchRanges(env: Env, st: State, e: Element)
    requires e.algorithm.BuiltIn?
    ensures var alg := e.algorithm.alg;
            var r := Dispatch(env, st, e);
            (alg == PermitOverrides ==> r.out != Decided(Deny)) &&
            (r.out.Decided? && (alg == DenyUnlessPermit || alg == PermitUnlessDeny) ==>
               r.out.d == Permit || r.out.d == Deny)
  {
    var alg := e.algorithm.alg;
    var r := Reduce(env, st, e, alg);
    ReducerMeanings(env, st, e);
    if alg == PermitOverrides && r.out.Decided? {
      ReducerMeanings(env, r.st, e);
    }
  }

  // ---------------------------------------------------------------------
  // Target checks and attribute maps

  /** The target check lets evaluation on exactly when resolution completed,
      the target is present and the walk gave true; otherwise it stops with
      Indeterminate, NotApplicable or a throw, never with Permit or Deny. */
  lemma GateMeaning(env: Env, st: State, c: CacheId, id: Value, version: Value, target: Option<AnyOfArr>)
    ensures var g := TargetGate(env, st, c, id, version, target);
            var (m, st1) := Lookup(env, st, c, id, version, target);
            var (res, st2) := ResolveAttributes(env, st1, m);
            (g.Pass? <==> res == Complete && target.Some? &&
                          AnyOfArrValue(ExprIn(env, st2.attributes), target.value) == True) &&
            (g.Halt? ==> g.out in {Decided(Indeterminate), Decided(NotApplicable), Thrown(PipFailed), Thrown(TypeError)}) &&
            (res == Incomplete ==> g == Halt(Decided(Indeterminate), st2)) &&
            (res == Complete && target.None? ==> g == Halt(Thrown(TypeError), st2))
  {
  }

  /** Missing attributes decide Indeterminate before any expression is
      looked at: the expression compiler and evaluator cannot change it. */
  lemma MissingAttributesIgnoreExpressions(env: Env, env': Env, st: State, c: CacheId, id: Value,
                                           version: Value, target: Option<AnyOfArr>)
    requires env'.attributeMapOf == env.attributeMapOf && env'.resolve == env.resolve
    requires var (m, st1) := Lookup(env, st, c, id, version, target);
             var (res, st2) := ResolveAttributes(env, st1, m);
             res == Incomplete
    ensures TargetGate(env, st, c, id, version, target) == TargetGate(env', st, c, id, version, target)
    ensures TargetGate(env, st, c, id, version, target).out == Decided(Indeterminate)
  {
  }

  /** A stored attribute map is reused exactly when the id's entry has the
      element's version; otherwise the target is compiled again and only that
      id's entry of that cache changes. */
  lemma LookupMeaning(env: Env, st: State, c: CacheId, id: Value, version: Value, target: Option<AnyOfArr>)
    ensures var key := ToString(id);
            var cache := CacheOf(st, c);
            var (m, st') := Lookup(env, st, c, id, version, target);
            var hit := key in cache && cache[key].version == version;
            (hit ==> m == cache[key].attributeMap && st' == st) &&
            (!hit ==> m == env.attributeMapOf(target) &&
                      CacheOf(st', c) == cache[key := Container(version, m)]) &&
            CacheOf(st', c)[key] == Container(version, m) &&
            (forall c' :: c' != c ==> CacheOf(st', c') == CacheOf(st, c')) &&
            st'.attributes == st.attributes && st'.trace == st.trace
  {
  }

  /** Asking again with the same id and version hits the entry just written. */
  lemma LookupTwiceHits(env: Env, st: State, c: CacheId, id: Value, version: Value,
                        target: Option<AnyOfArr>, target': Option<AnyOfArr>)
    ensures var (m, st1) := Lookup(env, st, c, id, version, target);
            Lookup(env, st1, c, id, version, target') == (m, st1)
  {
  }

  /** A version bump forces recompilation from the current target. */
  lemma NewVersionRecompiles(env: Env, st: State, c: CacheId, id: Value, version: Value, target: Option<AnyOfArr>)
    requires ToString(id) in CacheOf(st, c) && CacheOf(st, c)[ToString(id)].version != version
    ensures Lookup(env, st, c, id, version, target).0 == env.attributeMapOf(target)
  {
  }

  /** The caches are indexed by the id's string form, so the number 1 and the
      string "1" share one entry: the second element reuses the first one's
      map while the versions agree. */
  lemma IdsWithOneStringFormShareAnEntry(env: Env, st: State, version: Value, t1: Option<AnyOfArr>, t2: Option<AnyOfArr>)
    ensures var (m, st1) := Lookup(env, st, PolicyTargets, Num(1), version, t1);
            Lookup(env, st1, PolicyTargets, Str("1"), version, t2).0 == m
  {
    assert ToString(Num(1)) == "1";
  }

  // ---------------------------------------------------------------------
  // Expressions and rules

  /** An expression is Indeterminate only when it does not compile or its
      evaluation throws; otherwise it is true exactly when its value is truthy. */
  lemma ExpressionMeaning(env: Env, attributes: Value, s: string)
    ensures var t := ExpressionToDecision(env, attributes, s);
            var code := env.toExpression(attributes, s);
            (t == Indet <==> code.None? || env.eval(attributes, code.value).None?) &&
            (t == True <==> code.Some? && env.eval(attributes, code.value).Some? &&
                            Truthy(env.eval(attributes, code.value).value))
  {
  }

  function Opposite(effect: Effect): Decision
  {
    if effect == Permit then Deny else Permit
  }

  /** The outcomes of evaluateRule: the target check first; then a condition
      together with a handlerId, or a handlerId that is not registered, is
      Indeterminate; neither is the rule's effect. Whatever happens, a rule
      decides its own effect, NotApplicable or Indeterminate, never the
      opposite effect. */
  lemma EvaluateRuleOutcomes(env: Env, st: State, r: Rule)
    ensures var g := TargetGate(env, st, RuleTargets, r.id, r.version, r.target);
            var x := RuleEval(env, st, r);
            (g.Halt? ==> x.out == g.out) &&
            (g.Pass? && r.condition.Some? && IsPresent(r.handlerId) ==> x.out == Decided(Indeterminate)) &&
            (g.Pass? && r.condition.None? && IsPresent(r.handlerId) && ToString(r.handlerId) !in env.handlers ==>
               x.out == Decided(Indeterminate)) &&
            (g.Pass? && r.condition.None? && !IsPresent(r.handlerId) ==> x.out == Decided(r.effect)) &&
            (x.out.Decided? ==> x.out.d == r.effect || x.out.d == NotApplicable || x.out.d == Indeterminate) &&
            x.out != Decided(Opposite(r.effect))
  {
    GateMeaning(env, st, RuleTargets, r.id, r.version, r.target);
  }

  /** With both present and resolution complete, a condition that walks to
      true gives the effect and one that walks to false gives NotApplicable. */
  lemma ConditionDecides(env: Env, st: State, r: Rule)
    requires r.condition.Some? && !IsPresent(r.handlerId)
    requires TargetGate(env, st, RuleTargets, r.id, r.version, r.target).Pass?
    ensures var st1 := TargetGate(env, st, RuleTargets, r.id, r.version, r.target).st;
            var (m, st2) := Lookup(env, st1, RuleConditions, r.id, r.version, r.condition);
            var (res, st3) := ConditionAttributes(env, st2, m);
            var v := AnyOfArrValue(ExprIn(env, st3.attributes), r.condition.value);
            res == Complete ==>
              RuleEval(env, st, r).out == Decided(if v == True then r.effect else if v == False then NotApplicable else Indeterminate)
  {
  }

  // ---------------------------------------------------------------------
  // PermitOverrides runs twice

  /** A PolicySet with a truthy id, an empty target and PermitOverrides over
      one identified Policy with no rules: the Policy is evaluated, and
      recorded, twice before the set itself is recorded. */
  lemma PermitOverridesTracedTwice(env: Env, st: State)
    requires forall a, m :: env.resolve(a, m) == Some((a, []))
    ensures var child := Policy(Num(2), Num(1), Some([]), BuiltIn(DenyOverrides), []);
            var parent := PolicySet(Num(1), Num(1), Some([]), BuiltIn(PermitOverrides), [child], []);
            var r := Combine(env, st, parent);
            r.out == Decided(NotApplicable) &&
            r.st.trace == st.trace + [TraceEntry(child, NotApplicable), TraceEntry(child, NotApplicable),
                                      TraceEntry(parent, NotApplicable)]
  {
    var child := Policy(Num(2), Num(1), Some([]), BuiltIn(DenyOverrides), []);
    var parent := PolicySet(Num(1), Num(1), Some([]), BuiltIn(PermitOverrides), [child], []);
    var g := TargetGate(env, st, PolicySetTargets, parent.id, parent.version, parent.target);
    assert g.Pass?;
    var st1 := g.st;
    assert st1.trace == st.trace;
    PermitOverridesRunOnce(env, st1);
    var r1 := Reduce(env, st1, parent, PermitOverrides);
    PermitOverridesRunOnce(env, r1.st);
    var r2 := Reduce(env, r1.st, parent, PermitOverrides);
    assert Combine(env, st, parent) == Eval(r2.out, Record(parent, r2.out, r2.st));
  }

  /** One reducer call of PermitOverridesTracedTwice's set: its only child
      is NotApplicable and recorded once. */
  lemma PermitOverridesRunOnce(env: Env, st: State)
    requires forall a, m :: env.resolve(a, m) == Some((a, []))
    ensures var child := Policy(Num(2), Num(1), Some([]), BuiltIn(DenyOverrides), []);
            var parent := PolicySet(Num(1), Num(1), Some([]), BuiltIn(PermitOverrides), [child], []);
            var r := Reduce(env, st, parent, PermitOverrides);
            r.out == Decided(NotApplicable) && r.st.trace == st.trace + [TraceEntry(child, NotApplicable)]
  {
    var child := Policy(Num(2), Num(1), Some([]), BuiltIn(DenyOverrides), []);
    var parent := PolicySet(Num(1), Num(1), Some([]), BuiltIn(PermitOverrides), [child], []);
    EmptyPolicyTracedOnce(env, st);
    assert ChildEval(env, st, parent, 0) == Combine(env, st, child);
    RunFromUnfold(env, st, PermitOverrides, parent, 0, Start, []);
  }

  /** The child of PermitOverridesTracedTwice: an identified Policy with an
      empty target and no rules is NotApplicable, and records one entry. */
  lemma EmptyPolicyTracedOnce(env: Env, st: State)
    requires forall a, m :: env.resolve(a, m) == Some((a, []))
    ensures var child := Policy(Num(2), Num(1), Some([]), BuiltIn(DenyOverrides), []);
            var c := Combine(env, st, child);
            c.out == Decided(NotApplicable) && c.st.trace == st.trace + [TraceEntry(child, NotApplicable)]
  {
    var child := Policy(Num(2), Num(1), Some([]), BuiltIn(DenyOverrides), []);
    var gc := TargetGate(env, st, PolicyTargets, child.id, child.version, child.target);
    assert gc.Pass?;
    assert Reduce(env, gc.st, child, DenyOverrides).out == Decided(NotApplicable);
  }

  // ---------------------------------------------------------------------
  // Bootstrap

  /** The walk over the retrieved handlers throws iff one of them is null or
      undefined; every other element is normalized and the walk goes on. */
  lemma {:induction false} RegisterThrowsOnMissingElement(elements: seq<Value>, registry: map<string, Value>)
    ensures Register(elements, registry).thrown <==> exists j :: 0 <= j < |elements| && !IsPresent(elements[j])
  {
    if |elements| > 0 {
      var n := Normalizer.RuleHandlerOf(elements[0]);
      if n.value.Some? {
        RegisterThrowsOnMissingElement(elements[1..], Enter(registry, n.value.value));
        if exists j :: 0 <= j < |elements| && !IsPresent(elements[j]) {
          var j :| 0 <= j < |elements| && !IsPresent(elements[j]);
          assert j > 0;
          assert elements[1..][j - 1] == elements[j];
        }
        if exists j :: 0 <= j < |elements[1..]| && !IsPresent(elements[1..][j]) {
          var j :| 0 <= j < |elements[1..]| && !IsPresent(elements[1..][j]);
          assert elements[j + 1] == elements[1..][j];
        }
      }
    }
  }

  /** A bootstrap never unregisters a handler: a handler map is only ever
      added to, so handlers of an earlier bootstrap stay. */
  lemma {:induction false} RegisterKeepsHandlers(elements: seq<Value>, registry: map<string, Value>)
    ensures registry.Keys <= Register(elements, registry).registry.Keys
  {
    if |elements| > 0 {
      var n := Normalizer.RuleHandlerOf(elements[0]);
      if n.value.Some? {
        RegisterKeepsHandlers(elements[1..], Enter(registry, n.value.value));
      }
    }
  }

  /** Every entry of the handler map is a handler with a present id, stored
      under that id's string form. */
  predicate Keyed(registry: map<string, Value>)
  {
    forall k :: k in registry ==> IsPresent(HandlerId(registry[k])) && ToString(HandlerId(registry[k])) == k
  }

  lemma {:induction false} RegisterKeepsKeyed(elements: seq<Value>, registry: map<string, Value>)
    requires Keyed(registry)
    ensures Keyed(Register(elements, registry).registry)
  {
    if |elements| > 0 {
      var n := Normalizer.RuleHandlerOf(elements[0]);
      if n.value.Some? {
        RegisterKeepsKeyed(elements[1..], Enter(registry, n.value.value));
      }
    }
  }

  /** A null element ends the walk before the elements after it: a handler
      listed after it is not registered. */
  lemma NullElementStopsRegistration(handler: Value, registry: map<string, Value>)
    ensures Register([Null, handler], registry) == Registration(registry, [], true)
  {
  }
}
