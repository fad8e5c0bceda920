/**
 * The six built-in combining algorithms of src/points/pdp.ts as the flag
 * machine their loops run: before each child the loop may return early;
 * each child's decision updates the flags; after the last child a final
 * test picks the result. `Fold` runs that machine over a list of child
 * decisions and `Consumed` says how many children it evaluated. Each
 * algorithm is then characterised by a reference definition.
 */
module Combining {
  import opened Xacml

  /** The loop variables of the reducers: `deny`, `permit`, `indeterminate`
      and the `decision`/`result` variable of FirstApplicable/OnlyOneApplicable. */
  datatype Flags = Flags(deny: bool, permit: bool, indeterminate: bool, result: Decision)

  /** Every reducer starts with its flags false and its result NotApplicable. */
  const Start := Flags(false, false, false, NotApplicable)

  /** The test at the top of each iteration that returns without evaluating the child. */
  predicate Stop(alg: Algorithm, f: Flags)
  {
    match alg
    case DenyOverrides => f.deny
    case PermitOverrides => f.permit
    case DenyUnlessPermit => f.permit
    case PermitUnlessDeny => f.deny
    case FirstApplicable => f.result != NotApplicable
    case OnlyOneApplicable => f.indeterminate
  }

  /** What that early return yields. */
  function Early(alg: Algorithm, f: Flags): Decision
  {
    match alg
    case DenyOverrides => Deny
    case PermitOverrides => Permit
    case DenyUnlessPermit => Permit
    case PermitUnlessDeny => Deny
    case FirstApplicable => f.result
    case OnlyOneApplicable => Indeterminate
  }

  /** The flag updates after a child returned d. PermitOverrides never assigns `deny`. */
  function Step(alg: Algorithm, f: Flags, d: Decision): Flags
  {
    match alg
    case DenyOverrides =>
      f.(deny := d == Deny,
         indeterminate := f.indeterminate || d == Indeterminate,
         permit := f.permit || d == Permit)
    case PermitOverrides =>
      f.(permit := d == Permit,
         indeterminate := f.indeterminate || d == Indeterminate)
    case DenyUnlessPermit => f.(permit := d == Permit)
    case PermitUnlessDeny => f.(deny := d == Deny)
    case FirstApplicable => f.(result := d)
    case OnlyOneApplicable =>
      f.(indeterminate := d == Indeterminate || (d != NotApplicable && f.result != NotApplicable),
         result := d)
  }

  /** The tests after the loop. FirstApplicable's is hard-coded NotApplicable. */
  function Finish(alg: Algorithm, f: Flags): Decision
  {
    match alg
    case DenyOverrides =>
      if f.deny then Deny else if f.indeterminate then Indeterminate
      else if f.permit then Permit else NotApplicable
    case PermitOverrides =>
      if f.permit then Permit else if f.indeterminate then Indeterminate
      else if f.deny then Deny else NotApplicable
    case DenyUnlessPermit => if f.permit then Permit else Deny
    case PermitUnlessDeny => if f.deny then Deny else Permit
    case FirstApplicable => NotApplicable
    case OnlyOneApplicable => if f.indeterminate then Indeterminate else f.result
  }

  function FoldFrom(alg: Algorithm, ds: seq<Decision>, i: nat, f: Flags): Decision
    requires i <= |ds|
    decreases |ds| - i
  {
    if i == |ds| then Finish(alg, f)
    else if Stop(alg, f) then Early(alg, f)
    else FoldFrom(alg, ds, i + 1, Step(alg, f, ds[i]))
  }

  /** The reducer's decision when its children, in order, would decide ds. */
  function Fold(alg: Algorithm, ds: seq<Decision>): Decision
  {
    FoldFrom(alg, ds, 0, Start)
  }

  function ConsumedFrom(alg: Algorithm, ds: seq<Decision>, i: nat, f: Flags): (n: nat)
    requires i <= |ds|
    ensures i <= n <= |ds|
    decreases |ds| - i
  {
    if i == |ds| || Stop(alg, f) then i
    else ConsumedFrom(alg, ds, i + 1, Step(alg, f, ds[i]))
  }

  /** How many of those children the reducer evaluates. */
  function Consumed(alg: Algorithm, ds: seq<Decision>): nat
  {
    ConsumedFrom(alg, ds, 0, Start)
  }

  // ---------------------------------------------------------------------
  // Reference definitions

  /** The index of the first occurrence of d in ds, or |ds|. */
  function IndexOf(ds: seq<Decision>, d: Decision): (k: nat)
    ensures k <= |ds|
    ensures d !in ds[..k]
    ensures k < |ds| <==> d in ds
    ensures k < |ds| ==> ds[k] == d
  {
    if |ds| == 0 then 0
    else if ds[0] == d then 0
    else
      var k := 1 + IndexOf(ds[1..], d);
      assert ds[..k] == [ds[0]] + ds[1..][..k - 1];
      k
  }

  /** The number of children evaluated by a loop that stops after the
      child at index k: k + 1, or all of them when there is no such child. */
  function StopAfter(ds: seq<Decision>, k: nat): nat
  {
    if k < |ds| then k + 1 else |ds|
  }

  function DenyOverridesValue(ds: seq<Decision>): Decision
  {
    if Deny in ds then Deny
    else if Indeterminate in ds then Indeterminate
    else if Permit in ds then Permit
    else NotApplicable
  }

  function PermitOverridesValue(ds: seq<Decision>): Decision
  {
    if Permit in ds then Permit
    else if Indeterminate in ds then Indeterminate
    else NotApplicable
  }

  /** The index of the first child that is not NotApplicable, or |ds|. */
  function FirstApplicableIndex(ds: seq<Decision>): (k: nat)
    ensures k <= |ds|
    ensures forall j :: 0 <= j < k ==> ds[j] == NotApplicable
    ensures k < |ds| ==> ds[k] != NotApplicable
  {
    if |ds| == 0 || ds[0] != NotApplicable then 0
    else 1 + FirstApplicableIndex(ds[1..])
  }

  /** Two children clash at i when child i is Indeterminate, or it and the
      child just before it are both other than NotApplicable. */
  predicate Clash(ds: seq<Decision>, i: nat)
    requires i < |ds|
  {
    ds[i] == Indeterminate || (i > 0 && ds[i - 1] != NotApplicable && ds[i] != NotApplicable)
  }

  function FirstClashFrom(ds: seq<Decision>, i: nat): (k: nat)
    requires i <= |ds|
    ensures i <= k <= |ds|
    ensures forall j :: i <= j < k ==> !Clash(ds, j)
    ensures k < |ds| ==> Clash(ds, k)
    decreases |ds| - i
  {
    if i == |ds| || Clash(ds, i) then i else FirstClashFrom(ds, i + 1)
  }

  /** The index of the first clash, or |ds|. */
  function FirstClash(ds: seq<Decision>): nat
  {
    FirstClashFrom(ds, 0)
  }

  // ---------------------------------------------------------------------
  // The reducers against their reference definitions

  lemma {:induction false} DenyOverridesFrom(ds: seq<Decision>, i: nat, f: Flags)
    requires i <= |ds| && Deny !in ds[..i] && !f.deny
    requires f.indeterminate == (Indeterminate in ds[..i]) && f.permit == (Permit in ds[..i])
    ensures FoldFrom(DenyOverrides, ds, i, f) == DenyOverridesValue(ds)
    ensures ConsumedFrom(DenyOverrides, ds, i, f) == StopAfter(ds, IndexOf(ds, Deny))
    decreases |ds| - i
  {
    if i == |ds| {
      assert ds[..i] == ds;
    } else {
      var g := Step(DenyOverrides, f, ds[i]);
      assert ds[..i + 1] == ds[..i] + [ds[i]];
      if ds[i] == Deny {
        assert IndexOf(ds, Deny) == i;
      } else {
        DenyOverridesFrom(ds, i + 1, g);
      }
    }
  }

  /** DenyOverrides: Deny as soon as a child is Deny, and nothing after it is
      evaluated; otherwise Indeterminate, Permit, NotApplicable in that order
      of precedence. */
  lemma DenyOverridesMeaning(ds: seq<Decision>)
    ensures Fold(DenyOverrides, ds) == DenyOverridesValue(ds)
    ensures Consumed(DenyOverrides, ds) == StopAfter(ds, IndexOf(ds, Deny))
  {
    DenyOverridesFrom(ds, 0, Start);
  }

  lemma {:induction false} PermitOverridesFrom(ds: seq<Decision>, i: nat, f: Flags)
    requires i <= |ds| && Permit !in ds[..i] && !f.permit && !f.deny
    requires f.indeterminate == (Indeterminate in ds[..i])
    ensures FoldFrom(PermitOverrides, ds, i, f) == PermitOverridesValue(ds)
    ensures ConsumedFrom(PermitOverrides, ds, i, f) == StopAfter(ds, IndexOf(ds, Permit))
    decreases |ds| - i
  {
    if i == |ds| {
      assert ds[..i] == ds;
    } else {
      var g := Step(PermitOverrides, f, ds[i]);
      assert ds[..i + 1] == ds[..i] + [ds[i]];
      if ds[i] == Permit {
        assert IndexOf(ds, Permit) == i;
      } else {
        PermitOverridesFrom(ds, i + 1, g);
      }
    }
  }

  /** PermitOverrides: Permit as soon as a child is Permit; otherwise
      Indeterminate if some child was, otherwise NotApplicable. Its `deny`
      flag is never set, so Deny children count for nothing. */
  lemma PermitOverridesMeaning(ds: seq<Decision>)
    ensures Fold(PermitOverrides, ds) == PermitOverridesValue(ds)
    ensures Fold(PermitOverrides, ds) != Deny
    ensures Consumed(PermitOverrides, ds) == StopAfter(ds, IndexOf(ds, Permit))
  {
    PermitOverridesFrom(ds, 0, Start);
  }

  lemma {:induction false} UnlessFrom(alg: Algorithm, ds: seq<Decision>, i: nat, f: Flags, d: Decision)
    requires alg == DenyUnlessPermit || alg == PermitUnlessDeny
    requires d == (if alg == DenyUnlessPermit then Permit else Deny)
    requires i <= |ds| && d !in ds[..i]
    requires alg == DenyUnlessPermit ==> !f.permit
    requires alg == PermitUnlessDeny ==> !f.deny
    ensures FoldFrom(alg, ds, i, f) ==
            (if d in ds then d else if alg == DenyUnlessPermit then Deny else Permit)
    ensures ConsumedFrom(alg, ds, i, f) == StopAfter(ds, IndexOf(ds, d))
    decreases |ds| - i
  {
    if i == |ds| {
      assert ds[..i] == ds;
    } else {
      assert ds[..i + 1] == ds[..i] + [ds[i]];
      if ds[i] == d {
        assert IndexOf(ds, d) == i;
      } else {
        UnlessFrom(alg, ds, i + 1, Step(alg, f, ds[i]), d);
      }
    }
  }

  /** DenyUnlessPermit: Permit iff some child is Permit, otherwise Deny, and
      no child after the first Permit is evaluated. */
  lemma DenyUnlessPermitMeaning(ds: seq<Decision>)
    ensures Fold(DenyUnlessPermit, ds) == (if Permit in ds then Permit else Deny)
    ensures Consumed(DenyUnlessPermit, ds) == StopAfter(ds, IndexOf(ds, Permit))
  {
    UnlessFrom(DenyUnlessPermit, ds, 0, Start, Permit);
  }

  /** PermitUnlessDeny: Deny iff some child is Deny, otherwise Permit, and no
      child after the first Deny is evaluated. */
  lemma PermitUnlessDenyMeaning(ds: seq<Decision>)
    ensures Fold(PermitUnlessDeny, ds) == (if Deny in ds then Deny else Permit)
    ensures Consumed(PermitUnlessDeny, ds) == StopAfter(ds, IndexOf(ds, Deny))
  {
    UnlessFrom(PermitUnlessDeny, ds, 0, Start, Deny);
  }

  lemma {:induction false} FirstApplicableFrom(ds: seq<Decision>, i: nat, f: Flags)
    requires i <= |ds| && i <= FirstApplicableIndex(ds) && f.result == NotApplicable
    ensures var k := FirstApplicableIndex(ds);
            FoldFrom(FirstApplicable, ds, i, f) == (if k + 1 < |ds| then ds[k] else NotApplicable)
    ensures ConsumedFrom(FirstApplicable, ds, i, f) == StopAfter(ds, FirstApplicableIndex(ds))
    decreases |ds| - i
  {
    if i < |ds| {
      var g := Step(FirstApplicable, f, ds[i]);
      if ds[i] == NotApplicable {
        FirstApplicableFrom(ds, i + 1, g);
      } else {
        assert FirstApplicableIndex(ds) == i;
      }
    }
  }

  /** FirstApplicable: the decision of the first child that is not
      NotApplicable, and nothing after it is evaluated; but only when a later
      child exists. When no child, or only the last one, is applicable the
      hard-coded return after the loop gives NotApplicable. */
  lemma FirstApplicableMeaning(ds: seq<Decision>)
    ensures var k := FirstApplicableIndex(ds);
            Fold(FirstApplicable, ds) == (if k + 1 < |ds| then ds[k] else NotApplicable)
    ensures Consumed(FirstApplicable, ds) == StopAfter(ds, FirstApplicableIndex(ds))
  {
    FirstApplicableFrom(ds, 0, Start);
  }

  lemma {:induction false} OnlyOneApplicableFrom(ds: seq<Decision>, i: nat, f: Flags)
    requires i <= FirstClash(ds) && !f.indeterminate
    requires f.result == (if i == 0 then NotApplicable else ds[i - 1])
    ensures var k := FirstClash(ds);
            FoldFrom(OnlyOneApplicable, ds, i, f) ==
            (if k < |ds| then Indeterminate else if |ds| == 0 then NotApplicable else ds[|ds| - 1])
    ensures ConsumedFrom(OnlyOneApplicable, ds, i, f) == StopAfter(ds, FirstClash(ds))
    decreases |ds| - i
  {
    if i < |ds| {
      var g := Step(OnlyOneApplicable, f, ds[i]);
      assert g.indeterminate == Clash(ds, i);
      if Clash(ds, i) {
        assert FirstClash(ds) == i;
      } else {
        OnlyOneApplicableFrom(ds, i + 1, g);
      }
    }
  }

  /** OnlyOneApplicable: Indeterminate at the first child that is
      Indeterminate or that follows an applicable child while being applicable
      itself, and the child after it is not evaluated. Otherwise the decision
      of the LAST child, since `result` is overwritten at every step; no
      children gives NotApplicable. */
  lemma OnlyOneApplicableMeaning(ds: seq<Decision>)
    ensures var k := FirstClash(ds);
            Fold(OnlyOneApplicable, ds) ==
            (if k < |ds| then Indeterminate else if |ds| == 0 then NotApplicable else ds[|ds| - 1])
    ensures Consumed(OnlyOneApplicable, ds) == StopAfter(ds, FirstClash(ds))
  {
    OnlyOneApplicableFrom(ds, 0, Start);
  }

  /** Evaluating stops at the child Consumed points to: whatever the children
      after it would decide changes neither the decision nor the count. */
  lemma {:induction false} FoldIgnoresUnevaluated(alg: Algorithm, ds: seq<Decision>, ds': seq<Decision>, i: nat, f: Flags)
    requires i <= |ds| == |ds'|
    requires ds[..ConsumedFrom(alg, ds, i, f)] == ds'[..ConsumedFrom(alg, ds, i, f)]
    ensures FoldFrom(alg, ds, i, f) == FoldFrom(alg, ds', i, f)
    ensures ConsumedFrom(alg, ds, i, f) == ConsumedFrom(alg, ds', i, f)
    decreases |ds| - i
  {
    if i < |ds| && !Stop(alg, f) {
      var n := ConsumedFrom(alg, ds, i, f);
      assert n > i;
      assert ds[i] == ds[..n][i] == ds'[..n][i] == ds'[i];
      FoldIgnoresUnevaluated(alg, ds, ds', i + 1, Step(alg, f, ds[i]));
    }
  }

  // ---------------------------------------------------------------------
  // Divergences from Appendix C of XACML 3.0, on concrete children

  /** An applicable last child is ignored by FirstApplicable. */
  lemma FirstApplicableIgnoresLastChild()
    ensures Fold(FirstApplicable, [NotApplicable, Permit]) == NotApplicable
    ensures Fold(FirstApplicable, [Deny]) == NotApplicable
    ensures Fold(FirstApplicable, [Deny, Permit]) == Deny
  {
    FirstApplicableMeaning([NotApplicable, Permit]);
    FirstApplicableMeaning([Deny]);
    FirstApplicableMeaning([Deny, Permit]);
  }

  /** OnlyOneApplicable answers with the last child and only notices two
      applicable children when they are adjacent. */
  lemma OnlyOneApplicableLooksAtNeighbours()
    ensures Fold(OnlyOneApplicable, [Permit, NotApplicable]) == NotApplicable
    ensures Fold(OnlyOneApplicable, [Permit, NotApplicable, Deny]) == Deny
    ensures Fold(OnlyOneApplicable, [Permit, Permit]) == Indeterminate
  {
    OnlyOneApplicableMeaning([Permit, NotApplicable]);
    OnlyOneApplicableMeaning([Permit, NotApplicable, Deny]);
    OnlyOneApplicableMeaning([Permit, Permit]);
    assert Clash([Permit, Permit], 1);
  }

  /** All-Deny children give NotApplicable under PermitOverrides. */
  lemma PermitOverridesDropsDeny()
    ensures Fold(PermitOverrides, [Deny, Deny]) == NotApplicable
  {
    PermitOverridesMeaning([Deny, Deny]);
  }
}
