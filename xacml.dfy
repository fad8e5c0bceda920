/**
 * The data model the decision engine works on: decisions, combining
 * algorithms, the canonical Target/Condition shape, and the Rule / Policy /
 * PolicySet tree of already normalized elements, plus the per-request Context.
 */
module Xacml {
  import opened Js

  datatype Decision = Permit | Deny | NotApplicable | Indeterminate

  /** The two decisions a rule may declare as its effect. */
  type Effect = d: Decision | d == Permit || d == Deny witness Permit

  /** What a Target/Condition walk yields: `true`, `false` or `Decision.Indeterminate`. */
  datatype Truth = True | False | Indet

  datatype Algorithm =
    | DenyOverrides
    | PermitOverrides
    | DenyUnlessPermit
    | PermitUnlessDeny
    | FirstApplicable
    | OnlyOneApplicable

  /** An element's `combiningAlgorithm`: one of the built-ins or any other value. */
  datatype AlgorithmRef = BuiltIn(alg: Algorithm) | Other(raw: Value)

  /** Canonical Target/Condition: AnyOf[], each AnyOf an AllOf[], each AllOf an
      expression-string list. */
  type AllOf = seq<string>
  type AnyOf = seq<AllOf>
  type AnyOfArr = seq<AnyOf>

  /** A normalized rule, as the normalizer leaves it when it reports no
      error: the effect is Permit or Deny. `target` and `condition` are null
      (None) when the document had none; `handlerId` is whatever the
      normalizer left there. */
  datatype Rule = Rule(
    id: Value,
    version: Value,
    effect: Effect,
    target: Option<AnyOfArr>,
    condition: Option<AnyOfArr>,
    handlerId: Value)

  /** A Policy (rules) or a PolicySet (policies, then policy sets). The engine
      tells them apart by the node itself, not by the list that holds it. */
  datatype Element =
    | Policy(id: Value, version: Value, target: Option<AnyOfArr>, algorithm: AlgorithmRef,
             rules: seq<Rule>)
    | PolicySet(id: Value, version: Value, target: Option<AnyOfArr>, algorithm: AlgorithmRef,
                policies: seq<Element>, policySets: seq<Element>)

  /** One `{ policy, decision }` record of `context.policyList`. */
  datatype TraceEntry = TraceEntry(policy: Element, decision: Decision)

  /** The decision request. `attributes` is the subject/resource/action/
      environment data that attribute resolution merges into; `policyList` is
      the evaluation trace; `decision` the final answer. */
  class Context {
    var attributes: Value
    var policyList: seq<TraceEntry>
    var decision: Option<Decision>

    constructor(attributes: Value)
      ensures this.attributes == attributes && policyList == [] && decision == None
    {
      this.attributes := attributes;
      policyList := [];
      decision := None;
    }
  }
}
