/**
 * The Policy Enforcement Point of src/pep.ts: it turns the PDP's decision
 * into an effect to enforce, according to the PEP's bias, once it has
 * checked that it understands every obligation.
 *
 * The PEP reads a module-level `context` object; here that object is a
 * parameter. PepBias.Deny and PepBias.Permit are the strings "Deny" and
 * "Permit".
 */
module Pep {
  import opened Js
  import opened Xacml

  const BiasDeny := Str("Deny")
  const BiasPermit := Str("Permit")

  /** `context.pep.debug`: None when it throws, i.e. when the context or
      `context.pep` is null or undefined. */
  function Debug(context: Value): Option<Value>
  {
    match Prop(context, "pep")
    case None => None
    case Some(pep) => Prop(pep, "debug")
  }

  /** understandObligation: every obligation is understood, once the debug
      flag has been read. */
  function UnderstandObligation(context: Value, obligation: Value): Option<bool>
  {
    match Debug(context)
    case None => None
    case Some(_) => Some(true)
  }

  /** `obligations.reduce((v, o) => v && understandObligation(o), v)`: a false
      accumulator skips the call. */
  function Understood(context: Value, obligations: seq<Value>, v: bool): Option<bool>
  {
    if |obligations| == 0 then Some(v)
    else if !v then Understood(context, obligations[1..], false)
    else
      match UnderstandObligation(context, obligations[0])
      case None => None
      case Some(u) => Understood(context, obligations[1..], u)
  }

  /** understandAllObligations: anything but an array counts as no
      obligations. */
  function UnderstandAllObligations(context: Value, obligations: Value): Option<bool>
  {
    var list := if obligations.Arr? then obligations.items else [];
    match Debug(context)
    case None => None
    case Some(_) => Understood(context, list, true)
  }

  /** What evaluateDecision ends with: an effect, `undefined` when the bias
      is neither Deny nor Permit, or a TypeError. */
  datatype Enforcement = Enforce(effect: Effect) | NoBias | Throws

  function EvaluateDecision(context: Value, decision: Decision): Enforcement
  {
    match Prop(context, "obligations")
    case None => Throws
    case Some(o) =>
      match UnderstandAllObligations(context, if Truthy(o) then o else Arr([]))
      case None => Throws
      case Some(understood) =>
        match Prop(context, "pep")
        case None => Throws
        case Some(pep) =>
          match Prop(pep, "bias")
          case None => Throws
          case Some(bias) =>
            if bias == BiasDeny then Enforce(if decision == Permit && understood then Permit else Deny)
            else if bias == BiasPermit then Enforce(if decision == Deny && understood then Deny else Permit)
            else NoBias
  }

  // ---------------------------------------------------------------------
  // Properties

  /** Every obligation is understood: the reduction never yields false, and
      throws exactly when the debug flag cannot be read. */
  lemma {:induction false} UnderstoodMeaning(context: Value, obligations: seq<Value>)
    ensures |obligations| > 0 ==> (Understood(context, obligations, true).Some? <==> Debug(context).Some?)
    ensures Understood(context, obligations, true).Some? ==> Understood(context, obligations, true) == Some(true)
  {
    if |obligations| > 0 && Debug(context).Some? {
      UnderstoodMeaning(context, obligations[1..]);
    }
  }

  lemma UnderstandAllMeaning(context: Value, obligations: Value)
    ensures UnderstandAllObligations(context, obligations)
         == if Debug(context).Some? then Some(true) else None
  {
    UnderstoodMeaning(context, if obligations.Arr? then obligations.items else []);
  }

  /** The PEP as shipped reads an empty context object: `context.pep` is
      undefined, so every decision throws. */
  lemma ShippedContextThrows(decision: Decision)
    ensures EvaluateDecision(Obj(map[]), decision) == Throws
  {
    UnderstandAllMeaning(Obj(map[]), Arr([]));
  }

  /** The context the PEP needs: `context.pep` present. */
  predicate Readable(context: Value)
  {
    Prop(context, "pep").Some? && IsPresent(Prop(context, "pep").value)
  }

  /** With a readable context, a Deny-biased PEP permits exactly the Permit
      decisions, and a Permit-biased PEP denies exactly the Deny decisions;
      Indeterminate and NotApplicable fall to the bias. Any other bias yields
      undefined. An unreadable context throws. */
  lemma BiasTable(context: Value, decision: Decision)
    ensures !Readable(context) ==> EvaluateDecision(context, decision) == Throws
    ensures Readable(context) && Prop(Prop(context, "pep").value, "bias") == Some(BiasDeny) ==>
      EvaluateDecision(context, decision) == Enforce(if decision == Permit then Permit else Deny)
    ensures Readable(context) && Prop(Prop(context, "pep").value, "bias") == Some(BiasPermit) ==>
      EvaluateDecision(context, decision) == Enforce(if decision == Deny then Deny else Permit)
    ensures Readable(context) && Prop(Prop(context, "pep").value, "bias") != Some(BiasDeny)
            && Prop(Prop(context, "pep").value, "bias") != Some(BiasPermit) ==>
      EvaluateDecision(context, decision) == NoBias
  {
    match Prop(context, "obligations")
    case None =>
    case Some(o) =>
      UnderstandAllMeaning(context, if Truthy(o) then o else Arr([]));
  }
}
