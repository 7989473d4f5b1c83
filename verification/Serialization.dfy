/**
 * JSON-safe payload conversion: `to_json_safe` turns Python values into plain JSON,
 * `from_json_safe` restores them under the guidance of a type annotation.
 */
module Serialization {
  import opened Wrappers
  import opened Text

  // ----- Data -----

  datatype Json =
    | JNull
    | JBool(b: bool)
    | JInt(i: int)
    | JFloat(x: real)
    | JStr(s: string)
    | JArr(items: seq<Json>)
    | JObj(fields: seq<JField>)

  datatype JField = JField(key: string, value: Json)

  datatype Key = KStr(s: string) | KInt(i: int) | KBool(b: bool) | KNone

  /** A Python dict keeps its entries in insertion order; a dataclass keeps its declared field order. */
  datatype PyValue =
    | PNone
    | PBool(b: bool)
    | PInt(i: int)
    | PFloat(x: real)
    | PStr(s: string)
    | PList(items: seq<PyValue>)
    | PTuple(items: seq<PyValue>)
    | PDict(entries: seq<Entry>)
    | PData(cls: string, attrs: seq<Attr>)

  datatype Entry = Entry(key: Key, value: PyValue)
  datatype Attr = Attr(name: string, value: PyValue)

  datatype Scalar = SBool | SInt | SFloat | SStr
  datatype KeyAnnotation = KeyAny | KeyStr | KeyInt | KeyBool

  datatype Annotation =
    | AAny
    | ANone
    | AScalar(scalar: Scalar)
    | AList(item: Annotation)
    | ADict(keys: KeyAnnotation, values: Annotation)
    | ATuple(parts: seq<Annotation>)
    | ATupleOf(item: Annotation)
    | AUnion(members: seq<Annotation>)
    | AData(cls: string)

  datatype FieldDecl = FieldDecl(name: string, ann: Annotation, default: Option<PyValue>)

  /** The dataclasses in scope, with their constructor fields in order. */
  type Classes = map<string, seq<FieldDecl>>

  datatype Error = BadKey(text: string) | BadFields(cls: string)

  type Restored = Result<PyValue, Error>

  // ----- to_json_safe -----

  function KeyText(k: Key): string {
    match k
    case KStr(s) => s
    case KInt(i) => IntText(i)
    case KBool(b) => if b then "True" else "False"
    case KNone => "None"
  }

  /** `d[key] = value` on a JSON object: a present key keeps its place, a new one goes last. */
  function PutField(fields: seq<JField>, key: string, value: Json): seq<JField> {
    if fields == [] then [JField(key, value)]
    else if fields[0].key == key then [JField(key, value)] + fields[1..]
    else [fields[0]] + PutField(fields[1..], key, value)
  }

  function ToJsonSafe(v: PyValue): Json
    decreases v, 1
  {
    match v
    case PNone => JNull
    case PBool(b) => JBool(b)
    case PInt(i) => JInt(i)
    case PFloat(x) => JFloat(x)
    case PStr(s) => JStr(s)
    case PList(items) => JArr(ItemsToJson(items))
    case PTuple(items) => JArr(ItemsToJson(items))
    case PDict(entries) => JObj(EntriesToJson(entries))
    case PData(_, attrs) => JObj(AttrsToJson(attrs))
  }

  function ItemsToJson(items: seq<PyValue>): (r: seq<Json>)
    ensures |r| == |items|
    decreases items, 0
  {
    if items == [] then [] else [ToJsonSafe(items[0])] + ItemsToJson(items[1..])
  }

  function EntriesToJson(entries: seq<Entry>): seq<JField>
    decreases entries, 0
  {
    if entries == [] then []
    else
      var last := entries[|entries| - 1];
      assert last.value < last;
      PutField(EntriesToJson(entries[..|entries| - 1]), KeyText(last.key), ToJsonSafe(last.value))
  }

  function AttrsToJson(attrs: seq<Attr>): seq<JField>
    decreases attrs, 0
  {
    if attrs == [] then []
    else
      var last := attrs[|attrs| - 1];
      PutField(AttrsToJson(attrs[..|attrs| - 1]), last.name, ToJsonSafe(last.value))
  }

  // ----- Comparing stored payloads -----

  /** Python compares bools, ints and floats by value. */
  function NumberOf(j: Json): Option<real> {
    match j
    case JBool(b) => Some(if b then 1.0 else 0.0)
    case JInt(i) => Some(i as real)
    case JFloat(x) => Some(x)
    case _ => None
  }

  /** `==` on decoded payloads: lists item by item, dicts key by key in any order. */
  predicate SameJson(a: Json, b: Json)
    decreases a
  {
    match a
    case JNull => b.JNull?
    case JStr(s) => b == JStr(s)
    case JArr(items) =>
      b.JArr? && |items| == |b.items| && forall i :: 0 <= i < |items| ==> SameJson(items[i], b.items[i])
    case JObj(fields) =>
      b.JObj? && |fields| == |b.fields| && forall i :: 0 <= i < |fields| ==> SameField(fields[i], b.fields)
    case _ => NumberOf(b) == NumberOf(a)
  }

  predicate SameField(f: JField, fields: seq<JField>)
    decreases f
  {
    exists k :: 0 <= k < |fields| && fields[k].key == f.key && SameJson(f.value, fields[k].value)
  }

  lemma {:induction false} SameJsonReflexive(a: Json)
    ensures SameJson(a, a)
    decreases a
  {
    match a
    case JArr(items) =>
      forall i | 0 <= i < |items|
        ensures SameJson(items[i], items[i])
      {
        SameJsonReflexive(items[i]);
      }
    case JObj(fields) =>
      forall i | 0 <= i < |fields|
        ensures SameField(fields[i], fields)
      {
        var f := fields[i];
        assert f.value < f;
        SameJsonReflexive(f.value);
      }
    case _ =>
  }

  // ----- from_json_safe -----

  /** A decoded JSON value as the Python value the driver hands over, before any restoration. */
  function Raw(j: Json): PyValue
    decreases j, 1
  {
    match j
    case JNull => PNone
    case JBool(b) => PBool(b)
    case JInt(i) => PInt(i)
    case JFloat(x) => PFloat(x)
    case JStr(s) => PStr(s)
    case JArr(items) => PList(RawItems(items))
    case JObj(fields) => PDict(RawFields(fields))
  }

  function RawItems(items: seq<Json>): (r: seq<PyValue>)
    ensures |r| == |items|
    decreases items, 0
  {
    if items == [] then [] else [Raw(items[0])] + RawItems(items[1..])
  }

  function RawFields(fields: seq<JField>): (r: seq<Entry>)
    ensures |r| == |fields|
    decreases fields, 0
  {
    if fields == [] then [] else [Entry(KStr(fields[0].key), Raw(fields[0].value))] + RawFields(fields[1..])
  }

  /** `d[key] = value` on a restored dict. */
  function PutEntry(entries: seq<Entry>, key: Key, value: PyValue): seq<Entry> {
    if entries == [] then [Entry(key, value)]
    else if entries[0].key == key then [Entry(key, value)] + entries[1..]
    else [entries[0]] + PutEntry(entries[1..], key, value)
  }

  /** Python's `bool(text)` is true of every non-empty text, "False" included. */
  function RestoreKey(text: string, ann: KeyAnnotation): Result<Key, Error> {
    match ann
    case KeyAny => Ok(KStr(text))
    case KeyStr => Ok(KStr(text))
    case KeyInt =>
      (match ParseInt(text)
       case Some(i) => Ok(KInt(i))
       case None => Err(BadKey(text)))
    case KeyBool => Ok(KBool(text != ""))
  }

  /** `isinstance`, as `_value_matches_annotation` applies it; a Python bool is an int. */
  predicate MatchesAnnotation(v: PyValue, ann: Annotation) {
    match ann
    case AAny => true
    case ANone => v.PNone?
    case AScalar(SBool) => v.PBool?
    case AScalar(SInt) => v.PInt? || v.PBool?
    case AScalar(SFloat) => v.PFloat?
    case AScalar(SStr) => v.PStr?
    case AList(_) => v.PList?
    case ADict(_, _) => v.PDict?
    case ATuple(_) => v.PTuple?
    case ATupleOf(_) => v.PTuple?
    case AUnion(_) => true
    case AData(cls) => v.PData? && v.cls == cls
  }

  function FromJsonSafe(cs: Classes, j: Json, ann: Annotation): Restored
    decreases j, 1, ann, 1
  {
    match ann
    case AAny => Ok(Raw(j))
    case ANone => Ok(Raw(j))
    case AScalar(_) => Ok(Raw(j))
    case AUnion(members) =>
      if j.JNull? && ANone in members then Ok(PNone)
      else RestoreMembers(cs, j, members, None)
    case AData(cls) =>
      if j.JObj? && cls in cs then
        (match RestoreFields(cs, j.fields, cs[cls])
         case Err(e) => Err(e)
         case Ok(attrs) => Construct(cls, cs[cls], attrs))
      else Ok(Raw(j))
    case AList(item) =>
      if !j.JArr? then Ok(Raw(j))
      else
        (match RestoreItems(cs, j.items, item)
         case Err(e) => Err(e)
         case Ok(vs) => Ok(PList(vs)))
    case ADict(keys, values) =>
      if !j.JObj? then Ok(Raw(j))
      else
        (match RestoreDict(cs, j.fields, keys, values)
         case Err(e) => Err(e)
         case Ok(es) => Ok(PDict(es)))
    case ATuple(parts) =>
      if !j.JArr? then Ok(Raw(j))
      else if parts == [] then Ok(PTuple(RawItems(j.items)))
      else
        (match RestoreParts(cs, j.items, parts)
         case Err(e) => Err(e)
         case Ok(vs) => Ok(PTuple(vs)))
    case ATupleOf(item) =>
      if !j.JArr? then Ok(Raw(j))
      else
        (match RestoreItems(cs, j.items, item)
         case Err(e) => Err(e)
         case Ok(vs) => Ok(PTuple(vs)))
  }

  /** The search of `_restore_union` over the remaining members, with the last error seen so far. */
  function RestoreMembers(cs: Classes, j: Json, members: seq<Annotation>, lastError: Option<Error>): Restored
    decreases j, 1, members, 0
  {
    if members == [] then
      (match lastError
       case Some(e) => Err(e)
       case None => Ok(Raw(j)))
    else if members[0] == ANone then RestoreMembers(cs, j, members[1..], lastError)
    else
      match FromJsonSafe(cs, j, members[0])
      case Err(e) => RestoreMembers(cs, j, members[1..], Some(e))
      case Ok(v) =>
        if MatchesAnnotation(v, members[0]) then Ok(v)
        else RestoreMembers(cs, j, members[1..], lastError)
  }

  function RestoreItems(cs: Classes, items: seq<Json>, ann: Annotation): (r: Result<seq<PyValue>, Error>)
    decreases items, 0, ann, 0
  {
    if items == [] then Ok([])
    else
      match FromJsonSafe(cs, items[0], ann)
      case Err(e) => Err(e)
      case Ok(v) =>
        match RestoreItems(cs, items[1..], ann)
        case Err(e) => Err(e)
        case Ok(vs) => Ok([v] + vs)
  }

  /** Fixed tuples: an item past the annotated parts is restored at `Any`. */
  function RestoreParts(cs: Classes, items: seq<Json>, parts: seq<Annotation>): (r: Result<seq<PyValue>, Error>)
    decreases items, 0, parts, 0
  {
    if items == [] then Ok([])
    else
      match FromJsonSafe(cs, items[0], if parts == [] then AAny else parts[0])
      case Err(e) => Err(e)
      case Ok(v) =>
        match RestoreParts(cs, items[1..], if parts == [] then [] else parts[1..])
        case Err(e) => Err(e)
        case Ok(vs) => Ok([v] + vs)
  }

  function RestoreDict(cs: Classes, fields: seq<JField>, keys: KeyAnnotation, values: Annotation)
    : (r: Result<seq<Entry>, Error>)
    decreases fields, 0, values, 0
  {
    if fields == [] then Ok([])
    else
      var last := fields[|fields| - 1];
      match RestoreDict(cs, fields[..|fields| - 1], keys, values)
      case Err(e) => Err(e)
      case Ok(es) =>
        match RestoreKey(last.key, keys)
        case Err(e) => Err(e)
        case Ok(k) =>
          match FromJsonSafe(cs, last.value, values)
          case Err(e) => Err(e)
          case Ok(v) => Ok(PutEntry(es, k, v))
  }

  /** `get_type_hints(cls).get(name)`: an undeclared field has no annotation. */
  function FieldAnnotation(decls: seq<FieldDecl>, name: string): Annotation {
    if decls == [] then AAny
    else if decls[0].name == name then decls[0].ann
    else FieldAnnotation(decls[1..], name)
  }

  function RestoreFields(cs: Classes, fields: seq<JField>, decls: seq<FieldDecl>)
    : (r: Result<seq<Attr>, Error>)
    decreases fields, 0, 0, 0
  {
    if fields == [] then Ok([])
    else
      match FromJsonSafe(cs, fields[0].value, FieldAnnotation(decls, fields[0].key))
      case Err(e) => Err(e)
      case Ok(v) =>
        match RestoreFields(cs, fields[1..], decls)
        case Err(e) => Err(e)
        case Ok(rest) => Ok([Attr(fields[0].key, v)] + rest)
  }

  predicate Declares(decls: seq<FieldDecl>, name: string) {
    exists d :: d in decls && d.name == name
  }

  function FindAttr(attrs: seq<Attr>, name: string): Option<PyValue> {
    if attrs == [] then None
    else if attrs[0].name == name then Some(attrs[0].value)
    else FindAttr(attrs[1..], name)
  }

  /** `cls(**attrs)`: an undeclared or a missing required field is a TypeError. */
  function Construct(cls: string, decls: seq<FieldDecl>, attrs: seq<Attr>): Restored {
    if exists a :: a in attrs && !Declares(decls, a.name) then Err(BadFields(cls))
    else
      match BindFields(cls, decls, attrs)
      case Err(e) => Err(e)
      case Ok(bound) => Ok(PData(cls, bound))
  }

  function BindFields(cls: string, decls: seq<FieldDecl>, attrs: seq<Attr>): Result<seq<Attr>, Error> {
    if decls == [] then Ok([])
    else
      var given := FindAttr(attrs, decls[0].name);
      var bound := if given.Some? then given else decls[0].default;
      match bound
      case None => Err(BadFields(cls))
      case Some(v) =>
        match BindFields(cls, decls[1..], attrs)
        case Err(e) => Err(e)
        case Ok(rest) => Ok([Attr(decls[0].name, v)] + rest)
  }

  // ----- The member search as the loop it is -----

  /** The member restores the value, and what it makes of it is an instance of it. */
  predicate Takes(cs: Classes, j: Json, member: Annotation) {
    && member != ANone
    && FromJsonSafe(cs, j, member).Ok? && MatchesAnnotation(FromJsonSafe(cs, j, member).value, member)
  }

  predicate Raises(cs: Classes, j: Json, member: Annotation) {
    member != ANone && FromJsonSafe(cs, j, member).Err?
  }

  ghost predicate NoneTakes(cs: Classes, j: Json, members: seq<Annotation>, from: nat) {
    forall i :: from <= i < |members| ==> !Takes(cs, j, members[i])
  }

  ghost predicate NoneRaises(cs: Classes, j: Json, members: seq<Annotation>, from: nat) {
    forall i :: from <= i < |members| ==> !Raises(cs, j, members[i])
  }

  ghost predicate FirstTaking(cs: Classes, j: Json, members: seq<Annotation>, from: nat, k: int) {
    from <= k < |members| && Takes(cs, j, members[k]) && forall i :: from <= i < k ==> !Takes(cs, j, members[i])
  }

  ghost predicate LastRaising(cs: Classes, j: Json, members: seq<Annotation>, from: nat, k: int) {
    from <= k < |members| && Raises(cs, j, members[k]) && NoneRaises(cs, j, members, k + 1)
  }

  /**
   * The first member from `from` on that takes the value decides; if none does, the last that raises; and
   * if none does that either, `otherwise`.
   */
  ghost predicate Searched(
    cs: Classes, j: Json, members: seq<Annotation>, from: nat, otherwise: Restored, r: Restored) {
    && (forall k :: FirstTaking(cs, j, members, from, k) ==> r == FromJsonSafe(cs, j, members[k]))
    && (NoneTakes(cs, j, members, from) ==>
          && (forall k :: LastRaising(cs, j, members, from, k) ==> r == FromJsonSafe(cs, j, members[k]))
          && (NoneRaises(cs, j, members, from) ==> r == otherwise))
  }

  /** What the search has left when its members are used up. */
  function SearchedInVain(j: Json, lastError: Option<Error>): Restored {
    if lastError.Some? then Err(lastError.value) else Ok(Raw(j))
  }

  lemma {:induction false} MembersAreSearched(
    cs: Classes, j: Json, members: seq<Annotation>, from: nat, lastError: Option<Error>)
    requires from <= |members|
    ensures Searched(cs, j, members, from, SearchedInVain(j, lastError), RestoreMembers(cs, j, members[from..], lastError))
    decreases |members| - from
  {
    hide FromJsonSafe, MatchesAnnotation;
    if from < |members| {
      var m, rest := members[from], members[from..];
      assert rest[0] == m && rest[1..] == members[from + 1..];
      var next := if m != ANone && FromJsonSafe(cs, j, m).Err? then Some(FromJsonSafe(cs, j, m).error) else lastError;
      MembersAreSearched(cs, j, members, from + 1, next);
      if !Takes(cs, j, m) {
        SearchedOneMore(cs, j, members, from, lastError, next, RestoreMembers(cs, j, members[from + 1..], next));
      }
    }
  }

  lemma SearchedOneMore(
    cs: Classes, j: Json, members: seq<Annotation>, from: nat, lastError: Option<Error>, next: Option<Error>, r: Restored)
    requires from < |members| && !Takes(cs, j, members[from])
    requires next == if Raises(cs, j, members[from]) then Some(FromJsonSafe(cs, j, members[from]).error) else lastError
    requires Searched(cs, j, members, from + 1, SearchedInVain(j, next), r)
    ensures Searched(cs, j, members, from, SearchedInVain(j, lastError), r)
  {
    hide FromJsonSafe, MatchesAnnotation, Takes, Raw;
    forall k | FirstTaking(cs, j, members, from, k)
      ensures r == FromJsonSafe(cs, j, members[k])
    {
      assert k != from && FirstTaking(cs, j, members, from + 1, k);
    }
    if NoneTakes(cs, j, members, from) {
      assert NoneTakes(cs, j, members, from + 1);
      forall k | LastRaising(cs, j, members, from, k)
        ensures r == FromJsonSafe(cs, j, members[k])
      {
        if k > from {
          assert LastRaising(cs, j, members, from + 1, k);
        }
      }
    }
  }

  /** `_restore_union`: the first member that restores and matches; else the last error; else the raw value. */
  method RestoreUnion(cs: Classes, j: Json, members: seq<Annotation>) returns (r: Restored)
    ensures r == FromJsonSafe(cs, j, AUnion(members))
    ensures if j.JNull? && ANone in members then r == Ok(PNone) else Searched(cs, j, members, 0, Ok(Raw(j)), r)
  {
    if j.JNull? && ANone in members {
      return Ok(PNone);
    }
    MembersAreSearched(cs, j, members, 0, None);
    assert members[0..] == members;
    var lastError: Option<Error> := None;
    for k := 0 to |members|
      invariant RestoreMembers(cs, j, members, None) == RestoreMembers(cs, j, members[k..], lastError)
    {
      if members[k] != ANone {
        var restored := FromJsonSafe(cs, j, members[k]);
        match restored {
          case Err(e) => lastError := Some(e);
          case Ok(v) =>
            if MatchesAnnotation(v, members[k]) {
              return restored;
            }
        }
      }
      assert members[k..][1..] == members[k + 1..];
    }
    match lastError {
      case Some(e) => r := Err(e);
      case None => r := Ok(Raw(j));
    }
  }
}
