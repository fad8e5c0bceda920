# pauth policy engine — a Dafny model

pauth is an XACML-style access-control library for Node.js. This project
models its decision core in Dafny and proves properties of that model:

- **the Policy Decision Point** (`src/points/pdp.ts`). It bootstraps the
  rule-handler registry. It evaluates a request against a synthetic root
  PolicySet: it checks each identified element's Target, combines the
  children with one of six combining algorithms, evaluates Rules (target,
  condition or rule handler, effect), caches the attribute maps per element
  id and version, and records every identified element it decides in the
  request's `policyList`;
- **the normalizer** (`src/classes/bootstrap.ts`). It turns raw Rules,
  Policies, PolicySets, Obligations, Advice, rule handlers and request
  contexts into their normalized form. It collects the errors it finds
  instead of failing, and throws only where the JavaScript itself throws;
- **the Policy Information Point** (`src/points/pip.ts`). It refuses to run
  before it is bootstrapped, fetches attributes either with one call or with
  the nested strategy, merges them into the context and lists what is
  still missing;
- **the Policy Enforcement Point** (`src/pep.ts`). It turns a decision into
  the effect to enforce, according to its bias.

The files:

- `js.dfy` (JavaScript values, truthiness, `String()`, `Number()`);
- `xacml.dfy` (decisions, effects, algorithms, typed Targets and the
  element tree);
- `walker.dfy` (the three-level Target walker);
- `combining.dfy` (the six reducers as one flag machine);
- `pdp.dfy` and `pdp_properties.dfy`;
- `normalizer.dfy` and `normalizer_properties.dfy`;
- `pip.dfy` and `pip_properties.dfy`;
- `pep.dfy`.

Evaluation changes state: caches, the trace and the handler registry.
That part is a class, `Pdp.Engine`, whose methods are proved against
functions on an explicit `State`. The normalizer pushes onto a shared error
list (`Normalizer.ErrorList`) and each of its methods is proved against a
function returning the value together with the errors it appends. The
reducer loops, the Target walker's loops and the Pip's `forEach` loops are
`while` loops with invariants.

Where the code behaves differently from what its documentation and XACML
3.0 describe, the model follows the code:

- A `null` Target is iterated and throws a TypeError. It is not "no
  target". This holds for a rule's target always, and for a Policy's or
  PolicySet's target when the combine step checks it (a truthy id). A
  `null` Condition is no condition: evaluateRule evaluates a condition only
  when it is truthy.
- The AnyOf level of the walker is a conjunction, like the other two levels
  (`Walker.AnyOfIsNotDisjunction`).
- PermitOverrides never sets its `deny` flag. FirstApplicable ignores an
  applicable last child. OnlyOneApplicable answers with its last child and
  compares only neighbours.
- PermitOverrides is tested twice in the algorithm switch, so its children
  are evaluated and recorded twice.
- `Settings.Pip.retrieveNestedAttributes` works the wrong way round. The
  nested strategy throws on any dotted path, because the rest of a path is
  stored as a joined string (with `''` as separator) and the recursion calls
  `forEach` on it.
- The PEP reads a module-level context that is `{}`, so every decision
  throws (`Pep.ShippedContextThrows`).

## Model

| member | source | states |
|---|---|---|
| Walker.EvaluateAllOf | src/points/pdp.ts:508-518 | the loop returns the value of the AllOf: its first expression that is not true, else true |
| Walker.EvaluateAnyOf | src/points/pdp.ts:496-506 | the loop returns the value of the AnyOf, the first of its AllOfs that is not true, else true |
| Walker.EvaluateAnyOfArr | src/points/pdp.ts:484-494 | the loop returns the value of the AnyOf[], the first of its AnyOfs that is not true, else true |
| Walker.EvaluateTarget | src/points/pdp.ts:466-482 | a missing Target or Condition throws; otherwise the walk of its AnyOf[] |
| Walker.AllOfMeaning | src/points/pdp.ts:508-518 | an AllOf is true iff every expression is true; otherwise it takes the value of its first expression that is not |
| Walker.AnyOfMeaning | src/points/pdp.ts:496-506 | an AnyOf is true iff every AllOf in it is true |
| Walker.AnyOfArrMeaning | src/points/pdp.ts:484-494 | an AnyOf[] is true iff every AnyOf in it is true |
| Walker.TargetIsConjunction | src/points/pdp.ts:484-518 | a Target is true iff every expression at every level is true; empty levels are true |
| Walker.WalkerFailureComesFromAnExpression | src/points/pdp.ts:484-518 | a value other than true is one some expression of the Target produced |
| Walker.AnyOfFailure | src/points/pdp.ts:496-506 | an AnyOf that is not true has an AllOf with that value |
| Walker.AnyOfIsNotDisjunction | src/points/pdp.ts:496-506 | an AnyOf holding a true and a false AllOf evaluates to false |
| Combining.DenyOverridesMeaning | src/points/pdp.ts:223-256 | Deny as soon as a child is Deny, evaluating nothing after it; else Indeterminate, Permit, NotApplicable by precedence |
| Combining.PermitOverridesMeaning | src/points/pdp.ts:258-291 | Permit as soon as a child is Permit; else Indeterminate if some child was, else NotApplicable; Deny children count for nothing |
| Combining.DenyUnlessPermitMeaning | src/points/pdp.ts:293-317 | Permit iff some child is Permit, else Deny; nothing after the first Permit is evaluated |
| Combining.PermitUnlessDenyMeaning | src/points/pdp.ts:319-343 | Deny iff some child is Deny, else Permit; nothing after the first Deny is evaluated |
| Combining.FirstApplicableMeaning | src/points/pdp.ts:345-365 | the first applicable child's decision when a later child exists; otherwise NotApplicable |
| Combining.OnlyOneApplicableMeaning | src/points/pdp.ts:367-402 | Indeterminate at the first clash (an Indeterminate child, or two adjacent applicable children); else the last child's decision |
| Combining.FoldIgnoresUnevaluated | src/points/pdp.ts:223-402 | children after the point where a reducer stops change neither its decision nor how many children it evaluates |
| Combining.FirstApplicableIgnoresLastChild | src/points/pdp.ts:345-365 | an applicable last child gives NotApplicable |
| Combining.OnlyOneApplicableLooksAtNeighbours | src/points/pdp.ts:367-402 | two applicable children that are not adjacent are not a clash, and the last child decides |
| Combining.PermitOverridesDropsDeny | src/points/pdp.ts:258-291 | children that all Deny give NotApplicable |
| Pdp.Engine.constructor | src/points/pdp.ts:45-57 | the engine starts not bootstrapped, with an empty registry and empty attribute-map caches |
| Pdp.Engine.SetCache | src/points/pdp.ts:121-124 | writing one cache changes that cache only, and neither the attributes nor the trace |
| Pdp.Engine.RetrieveAttributeMap | src/points/pdp.ts:113-141 | the attribute map and the new state are those of `Lookup`: reuse on a version match, recompile and store otherwise |
| Pdp.Engine.RetrieveAttributes | src/points/pdp.ts:183 | the Pip call through the resolver: the attributes it merges and whether attributes are missing |
| Pdp.Engine.CheckTarget | src/points/pdp.ts:177-193 | the target check goes on or stops exactly as `TargetGate` does |
| Pdp.Engine.EvaluateRule | src/points/pdp.ts:404-464 | the outcome and new state are those of `RuleEval` |
| Pdp.Engine.CombineDecision | src/points/pdp.ts:169-221 | the outcome and new state are those of `Combine` |
| Pdp.Engine.EvaluateChild | src/points/pdp.ts:235-245 | child i is a Rule evaluated by evaluateRule or an element combined by combineDecision |
| Pdp.Engine.DenyOverridesReduce | src/points/pdp.ts:223-256 | the loop's outcome and final state are those of `Reduce` with DenyOverrides |
| Pdp.Engine.PermitOverridesReduce | src/points/pdp.ts:258-291 | the loop's outcome and final state are those of `Reduce` with PermitOverrides |
| Pdp.Engine.DenyUnlessPermitReduce | src/points/pdp.ts:293-317 | the loop's outcome and final state are those of `Reduce` with DenyUnlessPermit |
| Pdp.Engine.PermitUnlessDenyReduce | src/points/pdp.ts:319-343 | the loop's outcome and final state are those of `Reduce` with PermitUnlessDeny |
| Pdp.Engine.FirstApplicableReduce | src/points/pdp.ts:345-365 | the loop's outcome and final state are those of `Reduce` with FirstApplicable |
| Pdp.Engine.OnlyOneApplicableReduce | src/points/pdp.ts:367-402 | the loop's outcome and final state are those of `Reduce` with OnlyOneApplicable |
| Pdp.Engine.Bootstrap | src/points/pdp.ts:88-110 | clears the flag, registers each normalized handler with a present id under its string form, and is bootstrapped iff no error was collected and nothing threw |
| Pdp.Engine.EvaluateDecisionRequest | src/points/pdp.ts:143-166 | refuses before bootstrap, leaving the state as it was; refuses when retrieval failed; otherwise combines the root PolicySet with the configured algorithm and stores the decision |
| PdpProperties.EvaluateRuleKeepsTrace | src/points/pdp.ts:404-464 | evaluateRule never changes `policyList` |
| PdpProperties.CombineExtends | src/points/pdp.ts:214-218 | combineDecision only appends to `policyList`, and only entries for elements with a truthy id |
| PdpProperties.RootNeverTraced | src/points/pdp.ts:154-163 | the synthetic root, whose id is null, is never recorded |
| PdpProperties.CombineRecords | src/points/pdp.ts:195-220 | an identified element that passes its target with a built-in algorithm is recorded last, with the decision it returns |
| PdpProperties.UnknownAlgorithmIndeterminate | src/points/pdp.ts:204-211 | an algorithm outside the built-ins gives Indeterminate and records nothing |
| PdpProperties.ReduceIsFold | src/points/pdp.ts:223-402 | each reducer decides what its algorithm's fold decides on the children's decisions, and evaluates exactly the children the fold consumes |
| PdpProperties.ReducerMeanings | src/points/pdp.ts:223-343 | engine-level meaning of DenyOverrides, PermitOverrides, DenyUnlessPermit and PermitUnlessDeny on the decisions of the children they evaluated |
| PdpProperties.DispatchRanges | src/points/pdp.ts:196-203 | PermitOverrides never yields Deny; DenyUnlessPermit and PermitUnlessDeny always yield Permit or Deny |
| PdpProperties.GateMeaning | src/points/pdp.ts:177-193 | evaluation goes on iff resolution completed, the target is present and the walk gave true; otherwise it stops with Indeterminate, NotApplicable or a throw |
| PdpProperties.MissingAttributesIgnoreExpressions | src/points/pdp.ts:183-187 | missing attributes give Indeterminate whatever the expression compiler and evaluator do |
| PdpProperties.LookupMeaning | src/points/pdp.ts:113-127 | a stored map is reused iff the id's entry has the element's version; otherwise only that entry is rewritten with a fresh compilation |
| PdpProperties.LookupTwiceHits | src/points/pdp.ts:113-127 | a second lookup with the same id and version reuses the entry just written |
| PdpProperties.NewVersionRecompiles | src/points/pdp.ts:113-127 | a changed version recompiles from the current target |
| PdpProperties.IdsWithOneStringFormShareAnEntry | src/points/pdp.ts:115-126 | the ids 1 and "1" share one cache entry |
| PdpProperties.ExpressionMeaning | src/points/pdp.ts:520-544 | an expression is Indeterminate iff it does not compile or its evaluation throws; otherwise true iff its value is truthy |
| PdpProperties.EvaluateRuleOutcomes | src/points/pdp.ts:404-464 | a condition with a handler id, or an unregistered handler, is Indeterminate; a rule decides only its effect, NotApplicable or Indeterminate |
| PdpProperties.ConditionDecides | src/points/pdp.ts:444-460 | a condition that walks to true gives the effect; one that walks to false gives NotApplicable |
| PdpProperties.PermitOverridesTracedTwice | src/points/pdp.ts:198-201 | a PolicySet under PermitOverrides evaluates and records its Policy twice |
| PdpProperties.RegisterThrowsOnMissingElement | src/points/pdp.ts:95-97 | the registration walk throws iff some retrieved element is null or undefined |
| PdpProperties.RegisterKeepsHandlers | src/points/pdp.ts:95-97 | bootstrapping never removes a registered handler |
| PdpProperties.RegisterKeepsKeyed | src/points/pdp.ts:97 | every registry entry is a handler with a present id, stored under that id's string form |
| PdpProperties.NullElementStopsRegistration | src/points/pdp.ts:94-101 | a handler listed after a null element is not registered |
| Normalizer.Decode | src/classes/bootstrap.ts:68-87 | a value decodes to a typed Target iff it is in canonical AnyOf[] form |
| Normalizer.ErrorList.PushAll | src/classes/bootstrap.ts:116 | errors are appended in order, and nothing else changes |
| Normalizer.GetCompiledTarget | src/classes/bootstrap.ts:234-239 | the normalized target and, in order, the errors appended: invalid shape, then failed compilation |
| Normalizer.GetCompiledCondition | src/classes/bootstrap.ts:241-246 | the normalized condition, with its errors appended in order |
| Normalizer.GetRuleHead | src/classes/bootstrap.ts:231-255 | the rule's id, version, effect, target, condition and handler check, with their errors appended in order |
| Normalizer.GetRule | src/classes/bootstrap.ts:231-264 | getRule's value, and its errors appended in order |
| Normalizer.GetPolicyHead | src/classes/bootstrap.ts:266-279 | the policy's id, version, target and algorithm, with their errors appended |
| Normalizer.GetPolicyLists | src/classes/bootstrap.ts:289-292 | the rule ids, rule urls, obligation ids and advice ids, throwing on a truthy non-array |
| Normalizer.GetPolicy | src/classes/bootstrap.ts:266-294 | getPolicy's value, and its errors appended in order |
| Normalizer.GetPolicySetLists | src/classes/bootstrap.ts:317-322 | the six id and url lists of a PolicySet, throwing on a truthy non-array |
| Normalizer.GetPolicySetTail | src/classes/bootstrap.ts:320-322 | the policy urls, obligation ids and advice ids |
| Normalizer.GetPolicySet | src/classes/bootstrap.ts:297-327 | getPolicySet's value, and its errors appended in order |
| Normalizer.GetRuleHandler | src/classes/bootstrap.ts:161-171 | getRuleHandler's value, and its errors appended in order |
| Normalizer.GetObligation | src/classes/bootstrap.ts:330-342 | getObligation's value, and its errors appended in order |
| Normalizer.GetAdvice | src/classes/bootstrap.ts:345-357 | getAdvice's value, and its errors appended in order |
| Normalizer.GetContext | src/classes/bootstrap.ts:212-229 | on success the context's fields are replaced by the normalized ones; on a throw they are unchanged; errors are appended either way |
| NormalizerProperties.NormalizePriority | src/classes/bootstrap.ts:68-87 | the widest shape is tried first: an AnyOf[] is kept, and an AnyOf, an AllOf or a string is wrapped |
| NormalizerProperties.NormalizeIsCanonical | src/classes/bootstrap.ts:85-87 | every accepted Target is canonical, and normalizing it again changes nothing |
| NormalizerProperties.NormalizeAccepts | src/classes/bootstrap.ts:85-87 | a Target normalizes iff it is a string or an array in one of the three nested shapes |
| NormalizerProperties.AllOfRoundTrip | src/classes/bootstrap.ts:72-74 | an encoded AllOf decodes to itself |
| NormalizerProperties.AnyOfRoundTrip | src/classes/bootstrap.ts:76-79 | an encoded AnyOf decodes to itself |
| NormalizerProperties.DecodeEncode | src/classes/bootstrap.ts:81-87 | decoding the value of a typed Target gives it back |
| NormalizerProperties.AnyOfDecodes | src/classes/bootstrap.ts:76-79 | a canonical AnyOf value is the encoding of its decoding |
| NormalizerProperties.EncodeDecode | src/classes/bootstrap.ts:81-87 | a canonical value is the encoding of the Target it decodes to |
| NormalizerProperties.StringTarget | src/classes/bootstrap.ts:68-70 | a lone expression is one AnyOf of one AllOf |
| NormalizerProperties.EmptyArrayMatchesEverything | src/classes/bootstrap.ts:81-87 | `[]` is accepted and matches under every expression oracle |
| NormalizerProperties.GetIdMeaning | src/classes/bootstrap.ts:32-39 | an id is kept iff it is a number, numeric or a string; an error is appended iff the kept id is falsy |
| NormalizerProperties.FalsyIdsAreReported | src/classes/bootstrap.ts:35-39 | 0, "" and a missing id are reported, and `true` is accepted |
| NormalizerProperties.GetEffectMeaning | src/classes/bootstrap.ts:52-59 | only "Permit" and "Deny" are kept; anything else is reported |
| NormalizerProperties.GetCombiningAlgorithmMeaning | src/classes/bootstrap.ts:103-111 | exactly the six built-in names are kept; OnlyOneApplicable is reported outside a PolicySet |
| NormalizerProperties.GetTargetMeaning | src/classes/bootstrap.ts:89-94 | an error is reported exactly for the values the shape parsers reject |
| NormalizerProperties.NormalizeIdsMeaning | src/classes/bootstrap.ts:114-115 | each entry of an id list is normalized in place |
| NormalizerProperties.NormalizeUrlsMeaning | src/classes/bootstrap.ts:121-122 | each entry of a url list is checked in place |
| NormalizerProperties.AllTruthyMeaning | src/classes/bootstrap.ts:116 | `some(id => !id)` is false iff every entry is truthy |
| NormalizerProperties.GetIdsMeaning | src/classes/bootstrap.ts:114-118 | a falsy list is empty and a truthy non-array throws; otherwise one error is appended iff some entry is falsy |
| NormalizerProperties.GetUrlsMeaning | src/classes/bootstrap.ts:121-125 | the same for url lists, with the url check |
| NormalizerProperties.ConditionWithHandlerMeaning | src/classes/bootstrap.ts:248-250 | the error is appended iff the rule has both a condition and a handler id |
| NormalizerProperties.RuleThrowsOnlyOn | src/classes/bootstrap.ts:231-264 | getRule throws only on a missing element or an id list that is a truthy non-array |
| NormalizerProperties.RuleHeadIsNormalized | src/classes/bootstrap.ts:231-255 | the head fields have their declared types; with no error, id, version and effect are valid |
| NormalizerProperties.RuleObjectIsShallowCopy | src/classes/bootstrap.ts:252-263 | the normalized rule keeps every key of the element and copies fields other than the nine rule fields |
| NormalizerProperties.RuleObjectFields | src/classes/bootstrap.ts:252-263 | the nine rule fields hold the values given: id, version, effect, target, condition, handlerId, both id lists, and the element's normalized description |
| NormalizerProperties.RuleOfAssembles | src/classes/bootstrap.ts:231-264 | a getRule that does not throw returns that object, built from the head and the two id lists |
| NormalizerProperties.RuleIsNormalized | src/classes/bootstrap.ts:231-264 | known fields are normalized and others copied; both id lists are arrays; with no error, id, version and effect are valid; a present handlerId is normalized, an ill-typed one silently becomes null, so it is always null, a number or a string |
| NormalizerProperties.PolicyThrowsOnlyOn | src/classes/bootstrap.ts:266-327 | getPolicy and getPolicySet throw only on a missing element or a truthy non-array list |
| NormalizerProperties.OnlyOneApplicableOnlyOnPolicySets | src/classes/bootstrap.ts:106-111 | getPolicySet accepts OnlyOneApplicable silently; getPolicy keeps it and reports it |
| NormalizerProperties.AnonymousSubject | src/classes/bootstrap.ts:194-201 | a subject without an id gets a null id, and nothing is reported |
| NormalizerProperties.ObligationOptionalFields | src/classes/bootstrap.ts:330-357 | an absent version, a falsy effect and a falsy attribute map are left null without an error |
| NormalizerProperties.RuleHandlerErrorKinds | src/classes/bootstrap.ts:161-171 | a version error names the element "RuleHandlers"; every other error names it "RuleHandler" |
| NormalizerProperties.ContextThrowsOnlyOn | src/classes/bootstrap.ts:212-229 | getContext succeeds iff action, resource and subject are all present |
| NormalizerProperties.ContextFlags | src/classes/bootstrap.ts:216-228 | each return flag is true only for a literal `true`, and the three result lists start empty |
| Pip.InformationPoint.constructor | src/points/pip.ts:10 | the Pip starts not bootstrapped |
| Pip.InformationPoint.Bootstrap | src/points/pip.ts:12-27 | bootstrapped iff probing the accessor with an empty context and map does not throw |
| Pip.InformationPoint.RetrieveAttributes | src/points/pip.ts:34-51 | the merged context and missing attributes of `RetrieveAttributesOf` on the current bootstrap flag |
| Pip.SplitAttributeMap | src/points/pip.ts:59-68 | the two loops build exactly the flat and next maps of `SplitAttributes` |
| Pip.RetrieveNestedAttributes | src/points/pip.ts:53-79 | the result is that of `RetrieveNested`: one fetch of the first segments, merged with the recursion on the rest |
| PipProperties.SplitJoinRoundTrip | src/points/pip.ts:64 | joining the segments of a path with the separator gives the path back |
| PipProperties.SegmentsHaveNoSeparator | src/points/pip.ts:64 | no segment holds the separator |
| PipProperties.SplitsIffSeparator | src/points/pip.ts:64-66 | a path has more than one segment iff it holds a dot |
| PipProperties.NoSeparator | src/points/pip.ts:64 | a path without a dot is one segment |
| PipProperties.SplitAtSeparator | src/points/pip.ts:64 | the first dot ends the first segment |
| PipProperties.JoinDropsDots | src/points/pip.ts:64-66 | the rest of "a.b.c" is stored under "a" as "bc", not "b.c" |
| PipProperties.FlatContents | src/points/pip.ts:59-68 | the walk succeeds iff every value is an array of strings; the flat map then has one entry per element, listing the first segment of each path |
| PipProperties.NextKeys | src/points/pip.ts:59-68 | the next map's keys are the first segments of the dotted paths; it is empty iff no path is dotted |
| PipProperties.NextMapThrows | src/points/pip.ts:59-75 | recursing into the next map throws, because its values are strings |
| PipProperties.NestedMeaning | src/points/pip.ts:53-79 | the nested strategy throws on an unwalkable map and on any dotted path; otherwise it makes one fetch of the first segments, and none for an empty map |
| PipProperties.SettingIsInverted | src/points/pip.ts:34-42 | every retrieval throws before bootstrap; with the setting on, the whole map goes to the accessor; off, a dotted path throws |
| Pep.UnderstoodMeaning | src/pep.ts:54-55 | the obligation reduction never yields false, and throws iff the debug flag cannot be read |
| Pep.UnderstandAllMeaning | src/pep.ts:50-58 | understandAllObligations is true when `context.pep.debug` can be read, and throws otherwise |
| Pep.ShippedContextThrows | src/pep.ts:5 | with the module's empty context every decision throws |
| Pep.BiasTable | src/pep.ts:22-43 | under a Deny bias only Permit is permitted; under a Permit bias only Deny is denied; any other bias gives undefined; an unreadable context throws |

## Left out

- Asynchrony: every `await` is a plain call. Promises that reject are
  modelled as throws.
- Debug logging (`Settings.*.debug`, `console.log`) is left out. It has no
  effect on results, except that reading `context.pep.debug` can throw,
  which is modelled.
- Numbers are integers. Floating point, NaN and Infinity are not modelled
  (`Js.IsNumber` treats every integer as finite).
- `===` between JavaScript values is modelled as structural equality.
  Object identity is not modelled.
- Prototype properties (`toString`, `constructor`, …) are not treated as
  present keys of an object.
- Key order of plain objects is not modelled, except for the objects the
  Pip builds itself (`Pip.Entries`).
- String and array elements are taken to have no own properties. The
  normalizer's objects are built from `Normalizer.FieldsOf`, which is empty
  for a non-object. The index properties `Object.assign` copies from a
  string or an array (`0`, `1`, …) are not modelled.
- src/constants.ts is not part of this model. Combining algorithms,
  effects and the PEP bias are taken to be their own names as strings, and
  the HTTP methods are a parameter.
- The custom combining-algorithm registry is never filled in the source. A
  non-built-in algorithm is Indeterminate, and the branch that would call a
  custom handler is not modelled.
- Calls into code outside the core are parameters:
  - the Language compiler and its attribute-map extraction;
  - valid-url;
  - `eval` of compiled expressions;
  - `evaluateHandler`;
  - the user's element accessors (`_retrieveRuleHandlers`,
    `_retrieveAttributes`);
  - the Prp's retrieval of policies;
  - npm's `merge.recursive`;
  - utils.listMissingNestedValues.
- Pip.InformationPoint.RetrieveAttributes: the merge is a value-level
  function returning the merged context. In-place mutation of the caller's
  context object and aliasing are not modelled.
- A rule handler's evaluation, and the filling of obligation and advice
  results, are left out. Their results come from the handler oracle, and
  src/classes/request.ts is not part of this model.
- An object that has a `forEach`, `split`, `map` or `some` property of its
  own is treated like any other object: in the Pip's walk, and in getIds
  and getUrls, it throws.
- NormalizerProperties.RuleObjectIsShallowCopy: states membership of each
  key, not equality of key sets.
- Xacml.Rule: the engine takes the elements the normalizer produced with
  no error. A rule's effect is Permit or Deny, and targets and conditions
  are canonical AnyOf[] values or null. A rule whose effect is null makes
  evaluateRule return that null. A FirstApplicable Policy then passes the
  null on, and an OnlyOneApplicable parent counts it as applicable. The
  model does not capture that, because the Policy Retrieval Point, which
  decides whether such elements reach the engine, is not part of this
  model.
- Pdp.ResolveAttributes, PdpProperties.CombineExtends,
  PdpProperties.RootNeverTraced, PdpProperties.EvaluateRuleKeepsTrace: the
  accessor's result is assumed never to carry the context's own keys
  (`policyList`, `decision`). The merge target is modelled as the
  attributes only (`Pdp.State.attributes`), apart from the trace. In the
  source, `merge.recursive` writes into the whole request context, and the
  compiler and `eval` read it. An accessor that returns a `policyList`
  would overwrite the trace, and the model does not capture that.
