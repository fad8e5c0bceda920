/**
 * The Target/Condition walker of src/points/pdp.ts (evaluateAnyOfArr,
 * evaluateAnyOf, evaluateAllOf). Each level walks its children in order
 * and returns the first child value that is false or Indeterminate, and
 * true when there is none: every level is a short-circuit AND, the level
 * named "AnyOf" included. Expressions are judged by an oracle standing for
 * Language.strToExpression followed by eval.
 */
module Walker {
  import opened Js
  import opened Xacml

  /** The value of one AllOf: its first expression that is not true, else true. */
  function AllOfValue(expr: string -> Truth, allOf: AllOf): Truth
  {
    if |allOf| == 0 then True
    else if expr(allOf[0]) != True then expr(allOf[0])
    else AllOfValue(expr, allOf[1..])
  }

  function AnyOfValue(expr: string -> Truth, anyOf: AnyOf): Truth
  {
    if |anyOf| == 0 then True
    else if AllOfValue(expr, anyOf[0]) != True then AllOfValue(expr, anyOf[0])
    else AnyOfValue(expr, anyOf[1..])
  }

  function AnyOfArrValue(expr: string -> Truth, anyOfArr: AnyOfArr): Truth
  {
    if |anyOfArr| == 0 then True
    else if AnyOfValue(expr, anyOfArr[0]) != True then AnyOfValue(expr, anyOfArr[0])
    else AnyOfArrValue(expr, anyOfArr[1..])
  }

  method EvaluateAllOf(expr: string -> Truth, allOf: AllOf) returns (v: Truth)
    ensures v == AllOfValue(expr, allOf)
  {
    var i := 0;
    while i < |allOf|
      invariant 0 <= i <= |allOf|
      invariant AllOfValue(expr, allOf) == AllOfValue(expr, allOf[i..])
    {
      assert allOf[i..][1..] == allOf[i + 1..];
      var expressionValue := expr(allOf[i]);
      if expressionValue != True {
        return expressionValue;
      }
      i := i + 1;
    }
    return True;
  }

  method EvaluateAnyOf(expr: string -> Truth, anyOf: AnyOf) returns (v: Truth)
    ensures v == AnyOfValue(expr, anyOf)
  {
    var i := 0;
    while i < |anyOf|
      invariant 0 <= i <= |anyOf|
      invariant AnyOfValue(expr, anyOf) == AnyOfValue(expr, anyOf[i..])
    {
      assert anyOf[i..][1..] == anyOf[i + 1..];
      var allOfValue := EvaluateAllOf(expr, anyOf[i]);
      if allOfValue != True {
        return allOfValue;
      }
      i := i + 1;
    }
    return True;
  }

  method EvaluateAnyOfArr(expr: string -> Truth, anyOfArr: AnyOfArr) returns (v: Truth)
    ensures v == AnyOfArrValue(expr, anyOfArr)
  {
    var i := 0;
    while i < |anyOfArr|
      invariant 0 <= i <= |anyOfArr|
      invariant AnyOfArrValue(expr, anyOfArr) == AnyOfArrValue(expr, anyOfArr[i..])
    {
      assert anyOfArr[i..][1..] == anyOfArr[i + 1..];
      var anyOfValue := EvaluateAnyOf(expr, anyOfArr[i]);
      if anyOfValue != True {
        return anyOfValue;
      }
      i := i + 1;
    }
    return True;
  }

  /** evaluateTarget / evaluateCondition: a null Target or Condition is
      iterated all the same, which throws a TypeError (None). evaluateRule
      calls evaluateCondition only for a truthy Condition. */
  function TargetValue(expr: string -> Truth, target: Option<AnyOfArr>): Option<Truth>
  {
    match target
    case None => None
    case Some(t) => Some(AnyOfArrValue(expr, t))
  }

  method EvaluateTarget(expr: string -> Truth, target: Option<AnyOfArr>) returns (v: Option<Truth>)
    ensures v == TargetValue(expr, target)
    ensures v.None? <==> target.None?
  {
    if target.None? {
      return None;
    }
    var value := EvaluateAnyOfArr(expr, target.value);
    return Some(value);
  }

  // ---------------------------------------------------------------------
  // What the walker means

  /** An AllOf is true iff every expression in it is true; otherwise its
      value is that of its first expression that is not. */
  lemma {:induction false} AllOfMeaning(expr: string -> Truth, allOf: AllOf)
    ensures AllOfValue(expr, allOf) == True <==> forall k :: 0 <= k < |allOf| ==> expr(allOf[k]) == True
    ensures AllOfValue(expr, allOf) != True ==>
              exists k :: 0 <= k < |allOf| && AllOfValue(expr, allOf) == expr(allOf[k]) &&
                          forall j :: 0 <= j < k ==> expr(allOf[j]) == True
  {
    if |allOf| > 0 {
      AllOfMeaning(expr, allOf[1..]);
      if expr(allOf[0]) == True && AllOfValue(expr, allOf[1..]) != True {
        var k :| 0 <= k < |allOf[1..]| && AllOfValue(expr, allOf[1..]) == expr(allOf[1..][k]) &&
                 forall j :: 0 <= j < k ==> expr(allOf[1..][j]) == True;
        assert forall j :: 0 <= j < k + 1 ==> expr(allOf[j]) == True by {
          forall j | 0 <= j < k + 1 ensures expr(allOf[j]) == True {
            if j > 0 { assert allOf[j] == allOf[1..][j - 1]; }
          }
        }
        assert AllOfValue(expr, allOf) == expr(allOf[k + 1]);
      }
      if expr(allOf[0]) == True && AllOfValue(expr, allOf[1..]) == True {
        forall k | 0 <= k < |allOf| ensures expr(allOf[k]) == True {
          if k > 0 { assert allOf[k] == allOf[1..][k - 1]; }
        }
      }
    }
  }

  lemma {:induction false} AnyOfMeaning(expr: string -> Truth, anyOf: AnyOf)
    ensures AnyOfValue(expr, anyOf) == True <==>
            forall k :: 0 <= k < |anyOf| ==> AllOfValue(expr, anyOf[k]) == True
  {
    if |anyOf| > 0 {
      AnyOfMeaning(expr, anyOf[1..]);
      if AllOfValue(expr, anyOf[0]) == True && AnyOfValue(expr, anyOf[1..]) == True {
        forall k | 0 <= k < |anyOf| ensures AllOfValue(expr, anyOf[k]) == True {
          if k > 0 { assert anyOf[k] == anyOf[1..][k - 1]; }
        }
      }
      if AnyOfValue(expr, anyOf) == True {
        assert forall k :: 0 <= k < |anyOf[1..]| ==> anyOf[1..][k] == anyOf[k + 1];
      }
    }
  }

  lemma {:induction false} AnyOfArrMeaning(expr: string -> Truth, anyOfArr: AnyOfArr)
    ensures AnyOfArrValue(expr, anyOfArr) == True <==>
            forall k :: 0 <= k < |anyOfArr| ==> AnyOfValue(expr, anyOfArr[k]) == True
  {
    if |anyOfArr| > 0 {
      AnyOfArrMeaning(expr, anyOfArr[1..]);
      if AnyOfValue(expr, anyOfArr[0]) == True && AnyOfArrValue(expr, anyOfArr[1..]) == True {
        forall k | 0 <= k < |anyOfArr| ensures AnyOfValue(expr, anyOfArr[k]) == True {
          if k > 0 { assert anyOfArr[k] == anyOfArr[1..][k - 1]; }
        }
      }
      if AnyOfArrValue(expr, anyOfArr) == True {
        assert forall k :: 0 <= k < |anyOfArr[1..]| ==> anyOfArr[1..][k] == anyOfArr[k + 1];
      }
    }
  }

  /** A whole Target is the conjunction of every expression at every level:
      true iff each expression of each AllOf of each AnyOf is true. The empty
      Target, and any empty AnyOf or AllOf, is therefore true. */
  lemma TargetIsConjunction(expr: string -> Truth, t: AnyOfArr)
    ensures AnyOfArrValue(expr, t) == True <==>
            forall a, b, c :: 0 <= a < |t| && 0 <= b < |t[a]| && 0 <= c < |t[a][b]| ==>
              expr(t[a][b][c]) == True
  {
    AnyOfArrMeaning(expr, t);
    forall a | 0 <= a < |t|
      ensures AnyOfValue(expr, t[a]) == True <==>
              forall b, c :: 0 <= b < |t[a]| && 0 <= c < |t[a][b]| ==> expr(t[a][b][c]) == True
    {
      AnyOfMeaning(expr, t[a]);
      forall b | 0 <= b < |t[a]|
        ensures AllOfValue(expr, t[a][b]) == True <==>
                forall c :: 0 <= c < |t[a][b]| ==> expr(t[a][b][c]) == True
      {
        AllOfMeaning(expr, t[a][b]);
      }
    }
  }

  /** A value other than true is always one an expression produced: the walker
      never invents false or Indeterminate. */
  lemma {:induction false} WalkerFailureComesFromAnExpression(expr: string -> Truth, t: AnyOfArr)
    ensures AnyOfArrValue(expr, t) != True ==>
            exists a, b, c :: 0 <= a < |t| && 0 <= b < |t[a]| && 0 <= c < |t[a][b]| &&
              AnyOfArrValue(expr, t) == expr(t[a][b][c])
  {
    if |t| > 0 {
      if AnyOfValue(expr, t[0]) != True {
        AnyOfFailure(expr, t[0]);
        var b, c :| 0 <= b < |t[0]| && 0 <= c < |t[0][b]| && AnyOfValue(expr, t[0]) == expr(t[0][b][c]);
        assert AnyOfArrValue(expr, t) == expr(t[0][b][c]);
      } else if AnyOfArrValue(expr, t[1..]) != True {
        WalkerFailureComesFromAnExpression(expr, t[1..]);
        var a, b, c :| 0 <= a < |t[1..]| && 0 <= b < |t[1..][a]| && 0 <= c < |t[1..][a][b]| &&
                       AnyOfArrValue(expr, t[1..]) == expr(t[1..][a][b][c]);
        assert t[1..][a] == t[a + 1];
      }
    }
  }

  lemma {:induction false} AnyOfFailure(expr: string -> Truth, anyOf: AnyOf)
    ensures AnyOfValue(expr, anyOf) != True ==>
            exists b, c :: 0 <= b < |anyOf| && 0 <= c < |anyOf[b]| && AnyOfValue(expr, anyOf) == expr(anyOf[b][c])
  {
    if |anyOf| > 0 {
      if AllOfValue(expr, anyOf[0]) != True {
        AllOfMeaning(expr, anyOf[0]);
      } else if AnyOfValue(expr, anyOf[1..]) != True {
        AnyOfFailure(expr, anyOf[1..]);
        var b, c :| 0 <= b < |anyOf[1..]| && 0 <= c < |anyOf[1..][b]| &&
                    AnyOfValue(expr, anyOf[1..]) == expr(anyOf[1..][b][c]);
        assert anyOf[1..][b] == anyOf[b + 1];
      }
    }
  }

  /** The "AnyOf" level is not the disjunction of XACML 3.0 section 7.7: one
      AnyOf holding a true AllOf and a false AllOf evaluates to false. */
  lemma AnyOfIsNotDisjunction(expr: string -> Truth)
    requires expr("a") == True && expr("b") == False
    ensures AnyOfArrValue(expr, [[["a"], ["b"]]]) == False
  {
    assert AllOfValue(expr, ["a"]) == True;
    assert AllOfValue(expr, ["b"]) == False;
    assert AnyOfValue(expr, [["a"], ["b"]]) == False;
  }
}
