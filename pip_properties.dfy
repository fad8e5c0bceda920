/**
 * Properties of the Pip model: what `split` and `join` do to an attribute
 * path, what the two objects built by retrieveNestedAttributes hold, and
 * when the nested strategy throws.
 */
module PipProperties {
  import opened Js
  import opened Pip

  // ---------------------------------------------------------------------
  // Paths

  lemma {:induction false} JoinCons(x: char, p: string, ps: seq<string>, sep: string)
    ensures JoinWith([[x] + p] + ps, sep) == [x] + JoinWith([p] + ps, sep)
  {
    var l := [[x] + p] + ps;
    var r := [p] + ps;
    assert l[1..] == ps && r[1..] == ps;
  }

  /** Joining the segments with the separator gives the path back. */
  lemma {:induction false} SplitJoinRoundTrip(s: string, c: char)
    ensures JoinWith(SplitOn(s, c), [c]) == s
  {
    if |s| > 0 {
      var rest := SplitOn(s[1..], c);
      SplitJoinRoundTrip(s[1..], c);
      if s[0] == c {
        assert ([""] + rest)[1..] == rest;
        assert s == [c] + s[1..];
      } else {
        JoinCons(s[0], rest[0], rest[1..], [c]);
        assert [rest[0]] + rest[1..] == rest;
        assert s == [s[0]] + s[1..];
      }
    }
  }

  /** No segment holds the separator. */
  lemma {:induction false} SegmentsHaveNoSeparator(s: string, c: char)
    ensures forall i :: 0 <= i < |SplitOn(s, c)| ==> c !in SplitOn(s, c)[i]
  {
    if |s| > 0 {
      SegmentsHaveNoSeparator(s[1..], c);
      var rest := SplitOn(s[1..], c);
      if s[0] != c {
        assert forall i :: 1 <= i < |SplitOn(s, c)| ==> SplitOn(s, c)[i] == rest[i];
      } else {
        assert forall i :: 1 <= i < |SplitOn(s, c)| ==> SplitOn(s, c)[i] == rest[i - 1];
      }
    }
  }

  /** A path splits into more than one segment iff it holds the separator. */
  lemma {:induction false} SplitsIffSeparator(s: string, c: char)
    ensures |SplitOn(s, c)| > 1 <==> c in s
  {
    if |s| > 0 {
      SplitsIffSeparator(s[1..], c);
      assert s == [s[0]] + s[1..];
    }
  }

  /** A path without the separator is one segment. */
  lemma {:induction false} NoSeparator(s: string, c: char)
    requires c !in s
    ensures SplitOn(s, c) == [s]
  {
    if |s| > 0 {
      NoSeparator(s[1..], c);
      assert [s[0]] + s[1..] == s;
    }
  }

  /** The first separator ends the first segment. */
  lemma {:induction false} SplitAtSeparator(a: string, b: string, c: char)
    requires c !in a
    ensures SplitOn(a + [c] + b, c) == [a] + SplitOn(b, c)
  {
    var s := a + [c] + b;
    if |a| == 0 {
      assert s[0] == c && s[1..] == b;
    } else {
      SplitAtSeparator(a[1..], b, c);
      assert s[0] == a[0] && s[1..] == a[1..] + [c] + b;
      assert [a[0]] + a[1..] == a;
    }
  }

  /** With an empty separator the dots of the rest of a path are lost:
      the rest of "a.b.c" is stored as "bc", not "b.c". */
  lemma JoinDropsDots()
    ensures SplitOn("a.b.c", '.') == ["a", "b", "c"]
    ensures JoinWith(["b", "c"], "") == "bc"
    ensures SplitAttributes([("subject", Arr([Str("a.b.c")]))])
         == Some(Split([("subject", ["a"])], [("a", "bc")]))
  {
    NoSeparator("c", '.');
    SplitAtSeparator("b", "c", '.');
    assert "b" + ['.'] + "c" == "b.c";
    SplitAtSeparator("a", "b.c", '.');
    assert "a" + ['.'] + "b.c" == "a.b.c";
    assert JoinWith(["c"], "") == "c";
    assert ["b", "c"][1..] == ["c"];
    assert "b" + "" + "c" == "bc";
    var items := [Str("a.b.c")];
    var m := [("subject", Arr(items))];
    assert SplitOn(items[0].s, '.') == ["a", "b", "c"];
    var empty: Entries<seq<string>> := [];
    assert Put(empty, "subject", []) == [("subject", [])];
    assert Get([("subject", [])], "subject", []) + ["a"] == ["a"];
    assert Put([("subject", [])], "subject", ["a"]) == [("subject", ["a"])];
    assert Put([], "a", "bc") == [("a", "bc")];
    assert ["a", "b", "c"][1..] == ["b", "c"];
    assert SplitItems("subject", items, Split([("subject", [])], []))
        == SplitItems("subject", items[1..], Split([("subject", ["a"])], [("a", "bc")]));
    assert SplitItems("subject", items[1..], Split([("subject", ["a"])], [("a", "bc")]))
        == Some(Split([("subject", ["a"])], [("a", "bc")]));
    assert SplitEntries(m[1..], Split([("subject", ["a"])], [("a", "bc")])) == Some(Split([("subject", ["a"])], [("a", "bc")]));
  }

  // ---------------------------------------------------------------------
  // Objects

  lemma {:induction false} GetPut<T>(obj: Entries<T>, k: string, v: T, k2: string, absent: T)
    ensures Get(Put(obj, k, v), k2, absent) == if k2 == k then v else Get(obj, k2, absent)
  {
    if |obj| > 0 {
      if obj[0].0 == k {
        assert ([(k, v)] + obj[1..])[1..] == obj[1..];
      } else {
        GetPut(obj[1..], k, v, k2, absent);
        assert ([obj[0]] + Put(obj[1..], k, v))[1..] == Put(obj[1..], k, v);
      }
    }
  }

  lemma {:induction false} PutPut<T>(obj: Entries<T>, k: string, a: T, b: T)
    ensures Put(Put(obj, k, a), k, b) == Put(obj, k, b)
  {
    if |obj| > 0 && obj[0].0 != k {
      PutPut(obj[1..], k, a, b);
      assert ([obj[0]] + Put(obj[1..], k, a))[1..] == Put(obj[1..], k, a);
    } else if |obj| > 0 {
      assert ([(k, a)] + obj[1..])[1..] == obj[1..];
    }
  }

  lemma {:induction false} KeysPut<T>(obj: Entries<T>, k: string, v: T)
    ensures Keys(Put(obj, k, v)) == Keys(obj) + {k}
  {
    if |obj| > 0 {
      if obj[0].0 == k {
        assert ([(k, v)] + obj[1..])[1..] == obj[1..];
      } else {
        KeysPut(obj[1..], k, v);
        assert ([obj[0]] + Put(obj[1..], k, v))[1..] == Put(obj[1..], k, v);
      }
    }
  }

  // ---------------------------------------------------------------------
  // What the two loops build

  /** The first segment of an attribute path. */
  function Head(attribute: Value): string
  {
    if attribute.Str? then SplitOn(attribute.s, '.')[0] else ""
  }

  predicate Dotted(attribute: Value)
  {
    attribute.Str? && '.' in attribute.s
  }

  function Heads(items: seq<Value>): seq<string>
  {
    if |items| == 0 then [] else [Head(items[0])] + Heads(items[1..])
  }

  function DottedHeads(items: seq<Value>): set<string>
  {
    if |items| == 0 then {}
    else (if Dotted(items[0]) then {Head(items[0])} else {}) + DottedHeads(items[1..])
  }

  function ItemsOf(v: Value): seq<Value>
  {
    if v.Arr? then v.items else []
  }

  predicate AllStrings(items: seq<Value>)
  {
    forall j :: 0 <= j < |items| ==> items[j].Str?
  }

  /** An attribute map retrieveNestedAttributes can walk: arrays of strings. */
  predicate Walkable(attributeMap: Entries<Value>)
  {
    forall i :: 0 <= i < |attributeMap| ==> attributeMap[i].1.Arr? && AllStrings(attributeMap[i].1.items)
  }

  predicate HasDottedPath(attributeMap: Entries<Value>)
  {
    exists i, j :: 0 <= i < |attributeMap| && 0 <= j < |ItemsOf(attributeMap[i].1)| && Dotted(ItemsOf(attributeMap[i].1)[j])
  }

  function FlatOf(attributeMap: Entries<Value>, flat: Entries<seq<string>>): Entries<seq<string>>
  {
    if |attributeMap| == 0 then flat
    else FlatOf(attributeMap[1..], Put(flat, attributeMap[0].0, Heads(ItemsOf(attributeMap[0].1))))
  }

  function AllDottedHeads(attributeMap: Entries<Value>): set<string>
  {
    if |attributeMap| == 0 then {} else DottedHeads(ItemsOf(attributeMap[0].1)) + AllDottedHeads(attributeMap[1..])
  }

  lemma {:induction false} SplitItemsSucceeds(element: string, items: seq<Value>, sp: Split)
    ensures SplitItems(element, items, sp).Some? <==> AllStrings(items)
  {
    if |items| > 0 && items[0].Str? {
      var split := SplitOn(items[0].s, '.');
      var flat := Put(sp.flat, element, Get(sp.flat, element, []) + [split[0]]);
      var next := if |split| > 1 then Put(sp.next, split[0], JoinWith(split[1..], "")) else sp.next;
      SplitItemsSucceeds(element, items[1..], Split(flat, next));
      assert AllStrings(items) <==> AllStrings(items[1..]) by {
        assert forall j :: 1 <= j < |items| ==> items[j] == items[1..][j - 1];
      }
    }
  }

  lemma {:induction false} SplitItemsFlat(element: string, items: seq<Value>, sp: Split)
    requires element in Keys(sp.flat)
    ensures SplitItems(element, items, sp).Some? ==>
      SplitItems(element, items, sp).value.flat == Put(sp.flat, element, Get(sp.flat, element, []) + Heads(items))
  {
    if |items| == 0 {
      PutPutSame(sp.flat, element);
    } else if items[0].Str? {
      var split := SplitOn(items[0].s, '.');
      var first := Get(sp.flat, element, []) + [split[0]];
      var flat := Put(sp.flat, element, first);
      var next := if |split| > 1 then Put(sp.next, split[0], JoinWith(split[1..], "")) else sp.next;
      KeysPut(sp.flat, element, first);
      SplitItemsFlat(element, items[1..], Split(flat, next));
      GetPut(sp.flat, element, first, element, []);
      PutPut(sp.flat, element, first, first + Heads(items[1..]));
      assert Heads(items) == [split[0]] + Heads(items[1..]);
      assert first + Heads(items[1..]) == Get(sp.flat, element, []) + Heads(items);
    }
  }

  lemma {:induction false} SplitItemsNext(element: string, items: seq<Value>, sp: Split)
    ensures SplitItems(element, items, sp).Some? ==>
      Keys(SplitItems(element, items, sp).value.next) == Keys(sp.next) + DottedHeads(items)
  {
    if |items| > 0 && items[0].Str? {
      var split := SplitOn(items[0].s, '.');
      var flat := Put(sp.flat, element, Get(sp.flat, element, []) + [split[0]]);
      var next := if |split| > 1 then Put(sp.next, split[0], JoinWith(split[1..], "")) else sp.next;
      SplitItemsNext(element, items[1..], Split(flat, next));
      SplitsIffSeparator(items[0].s, '.');
      if |split| > 1 {
        KeysPut(sp.next, split[0], JoinWith(split[1..], ""));
      }
    }
  }

  /** Writing a property with its own value changes nothing. */
  lemma {:induction false} PutPutSame(obj: Entries<seq<string>>, k: string)
    requires k in Keys(obj)
    ensures Put(obj, k, Get(obj, k, []) + []) == obj
  {
    if |obj| > 0 {
      if obj[0].0 == k {
        assert obj[0].1 + [] == obj[0].1;
        assert [(k, obj[0].1)] + obj[1..] == obj;
      } else {
        PutPutSame(obj[1..], k);
        assert obj == [obj[0]] + obj[1..];
      }
    }
  }

  lemma {:induction false} SplitEntriesEffect(attributeMap: Entries<Value>, sp: Split)
    ensures SplitEntries(attributeMap, sp).Some? <==> Walkable(attributeMap)
    ensures SplitEntries(attributeMap, sp).Some? ==> SplitEntries(attributeMap, sp).value.flat == FlatOf(attributeMap, sp.flat)
    ensures SplitEntries(attributeMap, sp).Some? ==>
      Keys(SplitEntries(attributeMap, sp).value.next) == Keys(sp.next) + AllDottedHeads(attributeMap)
  {
    if |attributeMap| > 0 {
      var element := attributeMap[0].0;
      var flat := Put(sp.flat, element, []);
      assert Walkable(attributeMap) <==> (attributeMap[0].1.Arr? && AllStrings(attributeMap[0].1.items) && Walkable(attributeMap[1..])) by {
        assert forall i :: 1 <= i < |attributeMap| ==> attributeMap[i] == attributeMap[1..][i - 1];
      }
      if attributeMap[0].1.Arr? {
        var items := attributeMap[0].1.items;
        KeysPut(sp.flat, element, []);
        SplitItemsSucceeds(element, items, Split(flat, sp.next));
        SplitItemsFlat(element, items, Split(flat, sp.next));
        SplitItemsNext(element, items, Split(flat, sp.next));
        match SplitItems(element, items, Split(flat, sp.next))
        case None =>
        case Some(sp') =>
          SplitEntriesEffect(attributeMap[1..], sp');
          GetPut(sp.flat, element, [], element, []);
          PutPut(sp.flat, element, [], Heads(items));
          assert [] + Heads(items) == Heads(items);
      }
    }
  }

  lemma {:induction false} FlatOfElsewhere(attributeMap: Entries<Value>, flat: Entries<seq<string>>, k: string)
    requires forall i :: 0 <= i < |attributeMap| ==> attributeMap[i].0 != k
    ensures Get(FlatOf(attributeMap, flat), k, []) == Get(flat, k, [])
  {
    if |attributeMap| > 0 {
      var next := Put(flat, attributeMap[0].0, Heads(ItemsOf(attributeMap[0].1)));
      FlatOfElsewhere(attributeMap[1..], next, k);
      GetPut(flat, attributeMap[0].0, Heads(ItemsOf(attributeMap[0].1)), k, []);
    }
  }

  lemma {:induction false} FlatOfAt(attributeMap: Entries<Value>, flat: Entries<seq<string>>, i: nat)
    requires UniqueKeys(attributeMap) && i < |attributeMap|
    ensures Get(FlatOf(attributeMap, flat), attributeMap[i].0, []) == Heads(ItemsOf(attributeMap[i].1))
  {
    var next := Put(flat, attributeMap[0].0, Heads(ItemsOf(attributeMap[0].1)));
    if i == 0 {
      FlatOfElsewhere(attributeMap[1..], next, attributeMap[0].0);
      GetPut(flat, attributeMap[0].0, Heads(ItemsOf(attributeMap[0].1)), attributeMap[0].0, []);
    } else {
      FlatOfAt(attributeMap[1..], next, i - 1);
    }
  }

  lemma {:induction false} FlatOfKeys(attributeMap: Entries<Value>, flat: Entries<seq<string>>)
    ensures Keys(FlatOf(attributeMap, flat)) == Keys(flat) + Keys(attributeMap)
  {
    if |attributeMap| > 0 {
      var next := Put(flat, attributeMap[0].0, Heads(ItemsOf(attributeMap[0].1)));
      FlatOfKeys(attributeMap[1..], next);
      KeysPut(flat, attributeMap[0].0, Heads(ItemsOf(attributeMap[0].1)));
    }
  }

  /** The walk succeeds iff every value is an array of strings; then the
      flat map has one property per element of the attribute map, holding
      the first segment of each of its paths. */
  lemma FlatContents(attributeMap: Entries<Value>)
    ensures SplitAttributes(attributeMap).Some? <==> Walkable(attributeMap)
    ensures SplitAttributes(attributeMap).Some? ==> Keys(SplitAttributes(attributeMap).value.flat) == Keys(attributeMap)
    ensures SplitAttributes(attributeMap).Some? && UniqueKeys(attributeMap) ==>
      forall i :: 0 <= i < |attributeMap| ==>
        Get(SplitAttributes(attributeMap).value.flat, attributeMap[i].0, []) == Heads(attributeMap[i].1.items)
  {
    SplitEntriesEffect(attributeMap, Split([], []));
    FlatOfKeys(attributeMap, []);
    if SplitAttributes(attributeMap).Some? && UniqueKeys(attributeMap) {
      forall i | 0 <= i < |attributeMap|
        ensures Get(SplitAttributes(attributeMap).value.flat, attributeMap[i].0, []) == Heads(attributeMap[i].1.items)
      {
        FlatOfAt(attributeMap, [], i);
      }
    }
  }

  lemma {:induction false} DottedHeadsMeaning(items: seq<Value>)
    ensures DottedHeads(items) == {} <==> forall j :: 0 <= j < |items| ==> !Dotted(items[j])
  {
    if |items| > 0 {
      DottedHeadsMeaning(items[1..]);
      assert forall j :: 1 <= j < |items| ==> items[j] == items[1..][j - 1];
    }
  }

  lemma {:induction false} AllDottedHeadsMeaning(attributeMap: Entries<Value>)
    ensures AllDottedHeads(attributeMap) == {} <==> !HasDottedPath(attributeMap)
  {
    if |attributeMap| > 0 {
      AllDottedHeadsMeaning(attributeMap[1..]);
      DottedHeadsMeaning(ItemsOf(attributeMap[0].1));
      if HasDottedPath(attributeMap) {
        var i, j :| 0 <= i < |attributeMap| && 0 <= j < |ItemsOf(attributeMap[i].1)| && Dotted(ItemsOf(attributeMap[i].1)[j]);
        if i > 0 {
          assert attributeMap[1..][i - 1] == attributeMap[i];
          assert HasDottedPath(attributeMap[1..]);
        }
      }
      if HasDottedPath(attributeMap[1..]) {
        var i, j :| 0 <= i < |attributeMap[1..]| && 0 <= j < |ItemsOf(attributeMap[1..][i].1)| && Dotted(ItemsOf(attributeMap[1..][i].1)[j]);
        assert attributeMap[1..][i] == attributeMap[i + 1];
      }
      if !FirstHasNoDottedPath(attributeMap) {
        var j :| 0 <= j < |ItemsOf(attributeMap[0].1)| && Dotted(ItemsOf(attributeMap[0].1)[j]);
        assert HasDottedPath(attributeMap) by {
          assert 0 < |attributeMap| && 0 <= j < |ItemsOf(attributeMap[0].1)| && Dotted(ItemsOf(attributeMap[0].1)[j]);
        }
      }
    }
  }

  predicate FirstHasNoDottedPath(attributeMap: Entries<Value>)
    requires |attributeMap| > 0
  {
    forall j :: 0 <= j < |ItemsOf(attributeMap[0].1)| ==> !Dotted(ItemsOf(attributeMap[0].1)[j])
  }

  /** The next map has a property for each first segment of a dotted path,
      and none when no path is dotted. */
  lemma NextKeys(attributeMap: Entries<Value>)
    requires SplitAttributes(attributeMap).Some?
    ensures Keys(SplitAttributes(attributeMap).value.next) == AllDottedHeads(attributeMap)
    ensures |SplitAttributes(attributeMap).value.next| > 0 <==> HasDottedPath(attributeMap)
  {
    SplitEntriesEffect(attributeMap, Split([], []));
    AllDottedHeadsMeaning(attributeMap);
    var next := SplitAttributes(attributeMap).value.next;
    if |next| > 0 {
      assert next[0].0 in Keys(next);
    }
  }

  // ---------------------------------------------------------------------
  // The nested strategy

  /** Recursing into the next map always throws: its values are strings,
      which have no `forEach`. */
  lemma NextMapThrows(next: Entries<string>)
    requires |next| > 0
    ensures SplitAttributes(NextObject(next)) == None
  {
    assert NextObject(next)[0].1 == Str(next[0].1);
  }

  /** retrieveNestedAttributes throws on a map it cannot walk and on any
      dotted path; otherwise it makes one fetch of the first segments
      (none for an empty map) and merges that into a fresh object. */
  lemma NestedMeaning(context: Value, attributeMap: Entries<Value>,
                      fetch: (Value, Value) -> Option<Value>, merge: (Value, Value) -> Value)
    ensures !Walkable(attributeMap) ==> RetrieveNested(context, attributeMap, fetch, merge) == None
    ensures HasDottedPath(attributeMap) ==> RetrieveNested(context, attributeMap, fetch, merge) == None
    ensures SplitAttributes(attributeMap).Some? && !HasDottedPath(attributeMap) && |attributeMap| > 0 ==>
      RetrieveNested(context, attributeMap, fetch, merge)
        == (match fetch(context, ObjectOf(FlatObject(SplitAttributes(attributeMap).value.flat)))
            case None => None
            case Some(a) => Some(merge(merge(Obj(map[]), a), Obj(map[]))))
    ensures |attributeMap| == 0 ==>
      RetrieveNested(context, attributeMap, fetch, merge) == Some(merge(merge(Obj(map[]), Obj(map[])), Obj(map[])))
  {
    FlatContents(attributeMap);
    match SplitAttributes(attributeMap)
    case None =>
    case Some(sp) =>
      NextKeys(attributeMap);
      if |sp.next| > 0 {
        NextMapThrows(sp.next);
      }
      if |attributeMap| > 0 {
        assert attributeMap[0].0 in Keys(attributeMap);
        assert |sp.flat| > 0;
      } else {
        assert sp.flat == [];
      }
  }

  /** The setting reads the wrong way round: on, the whole map goes to the
      accessor in one call, dotted paths included; off, a dotted path makes
      the retrieval throw. Without bootstrapping every retrieval throws. */
  lemma SettingIsInverted(context: Value, attributeMap: Entries<Value>,
                          fetch: (Value, Value) -> Option<Value>, merge: (Value, Value) -> Value,
                          listMissing: (Value, Value) -> seq<string>)
    ensures RetrieveAttributesOf(false, true, context, attributeMap, fetch, merge, listMissing) == None
    ensures RetrieveAttributesOf(false, false, context, attributeMap, fetch, merge, listMissing) == None
    ensures fetch(context, ObjectOf(attributeMap)).Some? ==>
      RetrieveAttributesOf(true, true, context, attributeMap, fetch, merge, listMissing)
        == Some((merge(context, fetch(context, ObjectOf(attributeMap)).value),
                 listMissing(merge(context, fetch(context, ObjectOf(attributeMap)).value), ObjectOf(attributeMap))))
    ensures HasDottedPath(attributeMap) ==>
      RetrieveAttributesOf(true, false, context, attributeMap, fetch, merge, listMissing) == None
  {
    NestedMeaning(context, attributeMap, fetch, merge);
  }
}
