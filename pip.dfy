/**
 * The Policy Information Point of src/points/pip.ts: it fetches the
 * attributes an attribute map names through the user's accessor, merges
 * them into the request context, and lists the attributes still missing.
 *
 * The accessor (`_retrieveAttributes`), npm's `merge.recursive` and
 * utils.listMissingNestedValues are parameters. Objects the Pip builds
 * itself are their properties in insertion order (`Entries`), because the
 * nested strategy's result depends on that order.
 */
module Pip {
  import opened Js

  /** A plain object as its own properties in insertion order. */
  type Entries<T> = seq<(string, T)>

  /** `obj[key]`, or `absent` when there is no such property. */
  function Get<T>(obj: Entries<T>, key: string, absent: T): T
  {
    if |obj| == 0 then absent else if obj[0].0 == key then obj[0].1 else Get(obj[1..], key, absent)
  }

  /** `obj[key] = v`: an existing property keeps its place, a new one goes last. */
  function Put<T>(obj: Entries<T>, key: string, v: T): Entries<T>
  {
    if |obj| == 0 then [(key, v)]
    else if obj[0].0 == key then [(key, v)] + obj[1..]
    else [obj[0]] + Put(obj[1..], key, v)
  }

  function Keys<T>(obj: Entries<T>): set<string>
  {
    if |obj| == 0 then {} else {obj[0].0} + Keys(obj[1..])
  }

  predicate UniqueKeys<T>(obj: Entries<T>)
  {
    forall i, j :: 0 <= i < j < |obj| ==> obj[i].0 != obj[j].0
  }

  /** The JavaScript value of an object built here. */
  function ObjectOf(obj: Entries<Value>): Value
  {
    Obj(MapOf(obj))
  }

  function MapOf(obj: Entries<Value>): map<string, Value>
  {
    if |obj| == 0 then map[] else MapOf(obj[..|obj| - 1])[obj[|obj| - 1].0 := obj[|obj| - 1].1]
  }

  /** `s.split(c)` for a one-character separator: never empty. */
  function SplitOn(s: string, c: char): (parts: seq<string>)
    ensures |parts| >= 1
  {
    if |s| == 0 then [""]
    else
      var rest := SplitOn(s[1..], c);
      if s[0] == c then [""] + rest else [[s[0]] + rest[0]] + rest[1..]
  }

  /** `parts.join(sep)` */
  function JoinWith(parts: seq<string>, sep: string): string
  {
    if |parts| == 0 then ""
    else if |parts| == 1 then parts[0]
    else parts[0] + sep + JoinWith(parts[1..], sep)
  }

  // ---------------------------------------------------------------------
  // The nested strategy

  /** The two objects retrieveNestedAttributes builds from an attribute map:
      for each element the first segment of each attribute path, and for
      each first segment of a dotted path the rest of that path. */
  datatype Split = Split(flat: Entries<seq<string>>, next: Entries<string>)

  /** The inner forEach over `attributeMap[element]`: an attribute that is
      not a string has no `split` and throws (None). */
  function SplitItems(element: string, items: seq<Value>, sp: Split): Option<Split>
  {
    if |items| == 0 then Some(sp)
    else if !items[0].Str? then None
    else
      var split := SplitOn(items[0].s, '.');
      var flat := Put(sp.flat, element, Get(sp.flat, element, []) + [split[0]]);
      var next := if |split| > 1 then Put(sp.next, split[0], JoinWith(split[1..], "")) else sp.next;
      SplitItems(element, items[1..], Split(flat, next))
  }

  /** The outer forEach over Object.keys(attributeMap): a value that is not
      an array has no `forEach` and throws (None). */
  function SplitEntries(attributeMap: Entries<Value>, sp: Split): (r: Option<Split>)
    ensures r.Some? ==> forall i :: 0 <= i < |attributeMap| ==> attributeMap[i].1.Arr?
  {
    if |attributeMap| == 0 then Some(sp)
    else
      var element := attributeMap[0].0;
      var flat := Put(sp.flat, element, []);
      if !attributeMap[0].1.Arr? then None
      else
        match SplitItems(element, attributeMap[0].1.items, Split(flat, sp.next))
        case None => None
        case Some(sp') =>
          var r := SplitEntries(attributeMap[1..], sp');
          assert r.Some? ==> forall i :: 1 <= i < |attributeMap| ==> attributeMap[i].1 == attributeMap[1..][i - 1].1;
          r
  }

  function SplitAttributes(attributeMap: Entries<Value>): Option<Split>
  {
    SplitEntries(attributeMap, Split([], []))
  }

  function FlatObject(flat: Entries<seq<string>>): Entries<Value>
  {
    seq(|flat|, i requires 0 <= i < |flat| =>
      (flat[i].0, Arr(seq(|flat[i].1|, j requires 0 <= j < |flat[i].1| => Str(flat[i].1[j])))))
  }

  /** The next attribute map: its values are strings, not arrays. */
  function NextObject(next: Entries<string>): Entries<Value>
  {
    seq(|next|, i requires 0 <= i < |next| => (next[i].0, Str(next[i].1)))
  }

  predicate AllArrays(attributeMap: Entries<Value>)
  {
    forall i :: 0 <= i < |attributeMap| ==> attributeMap[i].1.Arr?
  }

  /** retrieveNestedAttributes: one fetch of the first segments, merged with
      the recursive retrieval of the rest into a fresh object. None when
      anything throws or the accessor rejects. */
  function RetrieveNested(context: Value, attributeMap: Entries<Value>,
                          fetch: (Value, Value) -> Option<Value>, merge: (Value, Value) -> Value): Option<Value>
    decreases if AllArrays(attributeMap) then 1 else 0
  {
    match SplitAttributes(attributeMap)
    case None => None
    case Some(sp) =>
      var flatPart := if |sp.flat| == 0 then Some(Obj(map[])) else fetch(context, ObjectOf(FlatObject(sp.flat)));
      if flatPart.None? then None
      else
        var nextPart :=
          if |sp.next| == 0 then Some(Obj(map[]))
          else
            assert NextObject(sp.next)[0].1.Str?;
            RetrieveNested(context, NextObject(sp.next), fetch, merge);
        if nextPart.None? then None
        else Some(merge(merge(Obj(map[]), flatPart.value), nextPart.value))
  }

  /** retrieveAttributes: throws unless bootstrapped; with the setting
      `retrieveNestedAttributes` on, one fetch of the whole map, otherwise the
      nested strategy; the result is merged into the context and the
      attributes still missing are listed. */
  function RetrieveAttributesOf(bootstrapped: bool, retrieveNestedSetting: bool, context: Value,
                                attributeMap: Entries<Value>,
                                fetch: (Value, Value) -> Option<Value>, merge: (Value, Value) -> Value,
                                listMissing: (Value, Value) -> seq<string>): Option<(Value, seq<string>)>
  {
    if !bootstrapped then None
    else
      var attributes :=
        if retrieveNestedSetting then fetch(context, ObjectOf(attributeMap))
        else RetrieveNested(context, attributeMap, fetch, merge);
      match attributes
      case None => None
      case Some(a) =>
        var merged := merge(context, a);
        Some((merged, listMissing(merged, ObjectOf(attributeMap))))
  }

  // ---------------------------------------------------------------------
  // The Pip as it runs

  class InformationPoint {
    var bootstrapped: bool

    constructor()
      ensures !bootstrapped
    {
      bootstrapped := false;
    }

    /** bootstrap: probes the accessor with an empty context and map; it is
        bootstrapped iff that call does not throw. */
    method Bootstrap(fetch: (Value, Value) -> Option<Value>) returns (ok: bool)
      modifies this
      ensures ok == bootstrapped && (ok <==> fetch(Obj(map[]), Obj(map[])).Some?)
    {
      bootstrapped := false;
      var probe := fetch(Obj(map[]), Obj(map[]));
      if probe.None? {
        return false;
      }
      bootstrapped := true;
      return true;
    }

    method RetrieveAttributes(context: Value, attributeMap: Entries<Value>, retrieveNestedSetting: bool,
                              fetch: (Value, Value) -> Option<Value>, merge: (Value, Value) -> Value,
                              listMissing: (Value, Value) -> seq<string>)
      returns (r: Option<(Value, seq<string>)>)
      ensures r == RetrieveAttributesOf(bootstrapped, retrieveNestedSetting, context, attributeMap,
                                        fetch, merge, listMissing)
    {
      if !bootstrapped {
        return None;
      }
      var attributes: Option<Value>;
      if retrieveNestedSetting {
        attributes := fetch(context, ObjectOf(attributeMap));
      } else {
        attributes := RetrieveNestedAttributes(context, attributeMap, fetch, merge);
      }
      if attributes.None? {
        return None;
      }
      var merged := merge(context, attributes.value);
      var missingAttributes := listMissing(merged, ObjectOf(attributeMap));
      return Some((merged, missingAttributes));
    }
  }

  /** The two forEach loops of retrieveNestedAttributes. */
  method SplitAttributeMap(attributeMap: Entries<Value>) returns (r: Option<Split>)
    ensures r == SplitAttributes(attributeMap)
  {
    var flat: Entries<seq<string>> := [];
    var next: Entries<string> := [];
    var i := 0;
    while i < |attributeMap|
      invariant 0 <= i <= |attributeMap|
      invariant SplitAttributes(attributeMap) == SplitEntries(attributeMap[i..], Split(flat, next))
    {
      assert attributeMap[i..][1..] == attributeMap[i + 1..];
      var element := attributeMap[i].0;
      flat := Put(flat, element, []);
      if !attributeMap[i].1.Arr? {
        return None;
      }
      var attributes := attributeMap[i].1.items;
      ghost var start := Split(flat, next);
      var j := 0;
      while j < |attributes|
        invariant 0 <= j <= |attributes|
        invariant SplitItems(element, attributes, start) == SplitItems(element, attributes[j..], Split(flat, next))
      {
        assert attributes[j..][1..] == attributes[j + 1..];
        var attribute := attributes[j];
        if !attribute.Str? {
          return None;
        }
        var split := SplitOn(attribute.s, '.');
        flat := Put(flat, element, Get(flat, element, []) + [split[0]]);
        if |split| > 1 {
          next := Put(next, split[0], JoinWith(split[1..], ""));
        }
        j := j + 1;
      }
      i := i + 1;
    }
    return Some(Split(flat, next));
  }

  method RetrieveNestedAttributes(context: Value, attributeMap: Entries<Value>,
                                  fetch: (Value, Value) -> Option<Value>, merge: (Value, Value) -> Value)
    returns (attributes: Option<Value>)
    ensures attributes == RetrieveNested(context, attributeMap, fetch, merge)
    decreases if AllArrays(attributeMap) then 1 else 0
  {
    var split := SplitAttributeMap(attributeMap);
    if split.None? {
      return None;
    }
    var flat := split.value.flat;
    var next := split.value.next;
    var flatPart: Option<Value> := Some(Obj(map[]));
    if |flat| != 0 {
      flatPart := fetch(context, ObjectOf(FlatObject(flat)));
    }
    if flatPart.None? {
      return None;
    }
    var nextPart: Option<Value> := Some(Obj(map[]));
    if |next| != 0 {
      assert NextObject(next)[0].1.Str?;
      nextPart := RetrieveNestedAttributes(context, NextObject(next), fetch, merge);
    }
    if nextPart.None? {
      return None;
    }
    return Some(merge(merge(Obj(map[]), flatPart.value), nextPart.value));
  }
}
