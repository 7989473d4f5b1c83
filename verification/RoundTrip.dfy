/**
 * When does a stored payload come back as the value that was stored? The replay of an activity
 * result returns `from_json_safe(to_json_safe(v), T)`; a forward run returned `v` itself.
 */
module RoundTrip {
  import opened Wrappers
  import opened Text
  import opened Serialization

  // ----- Typing -----

  ghost predicate DistinctKeys(entries: seq<Entry>) {
    forall i, j :: 0 <= i < j < |entries| ==> entries[i].key != entries[j].key
  }

  /** Values JSON can represent as they are: scalars, lists and string-keyed dicts of such values. */
  ghost predicate Plain(v: PyValue)
    decreases v
  {
    match v
    case PList(items) => forall i :: 0 <= i < |items| ==> Plain(items[i])
    case PDict(entries) =>
      forall i :: 0 <= i < |entries| ==>
        var e := entries[i];
        assert e.value < e;
        e.key.KStr? && Plain(e.value)
    case PTuple(_) => false
    case PData(_, _) => false
    case _ => true
  }

  /** Every dict inside `v` has pairwise distinct keys, as a Python dict always does. */
  ghost predicate ProperDicts(v: PyValue)
    decreases v
  {
    match v
    case PList(items) => forall i :: 0 <= i < |items| ==> ProperDicts(items[i])
    case PTuple(items) => forall i :: 0 <= i < |items| ==> ProperDicts(items[i])
    case PDict(entries) =>
      && DistinctKeys(entries)
      && forall i :: 0 <= i < |entries| ==>
        var e := entries[i];
        assert e.value < e;
        ProperDicts(e.value)
    case PData(_, attrs) =>
      forall i :: 0 <= i < |attrs| ==>
        var a := attrs[i];
        assert a.value < a;
        ProperDicts(a.value)
    case _ => true
  }

  predicate KeyHasType(k: Key, ann: KeyAnnotation) {
    match ann
    case KeyAny => k.KStr?
    case KeyStr => k.KStr?
    case KeyInt => k.KInt?
    case KeyBool => k == KBool(true)
  }

  predicate ScalarHasType(v: PyValue, s: Scalar) {
    match s
    case SBool => v.PBool?
    case SInt => v.PInt? || v.PBool?
    case SFloat => v.PFloat? || v.PInt? || v.PBool?
    case SStr => v.PStr?
  }

  /** `v` is a value of the annotated type. A bool-keyed dict may only have the key True. */
  ghost predicate WellTyped(cs: Classes, v: PyValue, ann: Annotation)
    decreases v, ann
  {
    match ann
    case AAny => Plain(v) && ProperDicts(v)
    case ANone => v.PNone?
    case AScalar(s) => ScalarHasType(v, s)
    case AList(item) => v.PList? && forall i :: 0 <= i < |v.items| ==> WellTyped(cs, v.items[i], item)
    case ATupleOf(item) => v.PTuple? && forall i :: 0 <= i < |v.items| ==> WellTyped(cs, v.items[i], item)
    case ATuple(parts) =>
      && v.PTuple? && |v.items| == |parts|
      && forall i :: 0 <= i < |parts| ==> WellTyped(cs, v.items[i], parts[i])
    case ADict(keys, values) =>
      && v.PDict? && DistinctKeys(v.entries)
      && forall i :: 0 <= i < |v.entries| ==>
        var e := v.entries[i];
        assert e.value < e;
        KeyHasType(e.key, keys) && WellTyped(cs, e.value, values)
    case AUnion(members) => exists k :: 0 <= k < |members| && WellTyped(cs, v, members[k])
    case AData(cls) =>
      && v.PData? && v.cls == cls && cls in cs && |v.attrs| == |cs[cls]|
      && forall i :: 0 <= i < |v.attrs| ==>
        var a := v.attrs[i];
        assert a.value < a;
        a.name == cs[cls][i].name && WellTyped(cs, a.value, cs[cls][i].ann)
  }

  // ----- Separable unions -----

  datatype Kind = NullKind | ScalarKind(s: Scalar) | ArrayKind | ObjectKind

  /** The JSON shape the values of a non-union annotation are written as. */
  function KindOf(ann: Annotation): Option<Kind> {
    match ann
    case AAny => None
    case AUnion(_) => None
    case ANone => Some(NullKind)
    case AScalar(s) => Some(ScalarKind(s))
    case AList(_) => Some(ArrayKind)
    case ATuple(_) => Some(ArrayKind)
    case ATupleOf(_) => Some(ArrayKind)
    case ADict(_, _) => Some(ObjectKind)
    case AData(_) => Some(ObjectKind)
  }

  /** The constructor of `decls` rejects the fields of `others`: one is undeclared or a required one is absent. */
  ghost predicate RejectsFieldsOf(decls: seq<FieldDecl>, others: seq<FieldDecl>) {
    || (exists o :: o in others && !Declares(decls, o.name))
    || (exists d :: d in decls && d.default.None? && !Declares(others, d.name))
  }

  /** Trying `first` on a value of `second` cannot succeed with the wrong type. */
  ghost predicate Separated(cs: Classes, first: Annotation, second: Annotation) {
    if first.AData? && second.AData? then
      first.cls in cs && second.cls in cs && RejectsFieldsOf(cs[first.cls], cs[second.cls])
    else KindOf(first) != KindOf(second)
  }

  ghost predicate Faithful(cs: Classes, ann: Annotation)
    decreases ann
  {
    match ann
    case AList(item) => Faithful(cs, item)
    case ATupleOf(item) => Faithful(cs, item)
    case ATuple(parts) => forall i :: 0 <= i < |parts| ==> Faithful(cs, parts[i])
    case ADict(_, values) => Faithful(cs, values)
    case AUnion(members) =>
      && (forall k :: 0 <= k < |members| ==> Faithful(cs, members[k]) && KindOf(members[k]).Some?)
      && forall j, k :: 0 <= j < k < |members| ==> Separated(cs, members[j], members[k])
    case AData(cls) => cls in cs
    case _ => true
  }

  ghost predicate DistinctNames(decls: seq<FieldDecl>) {
    forall i, j :: 0 <= i < j < |decls| ==> decls[i].name != decls[j].name
  }

  ghost predicate FaithfulClasses(cs: Classes) {
    forall cls :: cls in cs ==>
      && DistinctNames(cs[cls])
      && forall i :: 0 <= i < |cs[cls]| ==> Faithful(cs, cs[cls][i].ann)
  }

  // ----- Building JSON objects with distinct keys -----

  lemma {:induction false} PutFreshField(fields: seq<JField>, key: string, value: Json)
    requires forall i :: 0 <= i < |fields| ==> fields[i].key != key
    ensures PutField(fields, key, value) == fields + [JField(key, value)]
  {
    if fields != [] {
      PutFreshField(fields[1..], key, value);
      assert fields == [fields[0]] + fields[1..];
    }
  }

  lemma {:induction false} PutFreshEntry(entries: seq<Entry>, key: Key, value: PyValue)
    requires forall i :: 0 <= i < |entries| ==> entries[i].key != key
    ensures PutEntry(entries, key, value) == entries + [Entry(key, value)]
  {
    if entries != [] {
      PutFreshEntry(entries[1..], key, value);
      assert entries == [entries[0]] + entries[1..];
    }
  }

  ghost predicate DistinctTexts(entries: seq<Entry>) {
    forall i, j :: 0 <= i < j < |entries| ==> KeyText(entries[i].key) != KeyText(entries[j].key)
  }

  lemma {:induction false} EntriesToJsonAt(entries: seq<Entry>)
    requires DistinctTexts(entries)
    ensures |EntriesToJson(entries)| == |entries|
    ensures forall i :: 0 <= i < |entries| ==>
      EntriesToJson(entries)[i] == JField(KeyText(entries[i].key), ToJsonSafe(entries[i].value))
  {
    if entries != [] {
      var init, last := entries[..|entries| - 1], entries[|entries| - 1];
      EntriesToJsonAt(init);
      PutFreshField(EntriesToJson(init), KeyText(last.key), ToJsonSafe(last.value));
    }
  }

  lemma {:induction false} AttrsToJsonAt(attrs: seq<Attr>)
    requires forall i, j :: 0 <= i < j < |attrs| ==> attrs[i].name != attrs[j].name
    ensures |AttrsToJson(attrs)| == |attrs|
    ensures forall i :: 0 <= i < |attrs| ==>
      AttrsToJson(attrs)[i] == JField(attrs[i].name, ToJsonSafe(attrs[i].value))
  {
    if attrs != [] {
      var init, last := attrs[..|attrs| - 1], attrs[|attrs| - 1];
      AttrsToJsonAt(init);
      PutFreshField(AttrsToJson(init), last.name, ToJsonSafe(last.value));
    }
  }

  lemma {:induction false} ItemsToJsonAt(items: seq<PyValue>)
    ensures forall i :: 0 <= i < |items| ==> ItemsToJson(items)[i] == ToJsonSafe(items[i])
  {
    if items != [] {
      ItemsToJsonAt(items[1..]);
    }
  }

  lemma {:induction false} RawItemsAt(items: seq<Json>)
    ensures forall i :: 0 <= i < |items| ==> RawItems(items)[i] == Raw(items[i])
  {
    if items != [] {
      RawItemsAt(items[1..]);
    }
  }

  lemma {:induction false} RawFieldsAt(fields: seq<JField>)
    ensures forall i :: 0 <= i < |fields| ==>
      RawFields(fields)[i] == Entry(KStr(fields[i].key), Raw(fields[i].value))
  {
    if fields != [] {
      RawFieldsAt(fields[1..]);
    }
  }

  lemma TypedKeyRestores(k: Key, ann: KeyAnnotation)
    requires KeyHasType(k, ann)
    ensures RestoreKey(KeyText(k), ann) == Ok(k)
  {
    if ann == KeyInt {
      ParseIntText(k.i);
    }
  }

  lemma TypedKeysHaveDistinctTexts(entries: seq<Entry>, ann: KeyAnnotation)
    requires DistinctKeys(entries)
    requires forall i :: 0 <= i < |entries| ==> KeyHasType(entries[i].key, ann)
    ensures DistinctTexts(entries)
  {
    forall i, j | 0 <= i < j < |entries|
      ensures KeyText(entries[i].key) != KeyText(entries[j].key)
    {
      TypedKeyRestores(entries[i].key, ann);
      TypedKeyRestores(entries[j].key, ann);
    }
  }

  // ----- Restoring containers whose parts restore -----

  ghost predicate Restores(cs: Classes, v: PyValue, ann: Annotation) {
    FromJsonSafe(cs, ToJsonSafe(v), ann) == Ok(v)
  }

  lemma {:induction false} ItemsRestore(cs: Classes, items: seq<PyValue>, ann: Annotation)
    requires forall i :: 0 <= i < |items| ==> Restores(cs, items[i], ann)
    ensures RestoreItems(cs, ItemsToJson(items), ann) == Ok(items)
  {
    if items != [] {
      assert Restores(cs, items[0], ann);
      ItemsRestore(cs, items[1..], ann);
      assert items == [items[0]] + items[1..];
      assert ItemsToJson(items)[1..] == ItemsToJson(items[1..]);
    }
  }

  lemma {:induction false} PartsRestore(cs: Classes, items: seq<PyValue>, parts: seq<Annotation>)
    requires |items| == |parts|
    requires forall i :: 0 <= i < |items| ==> Restores(cs, items[i], parts[i])
    ensures RestoreParts(cs, ItemsToJson(items), parts) == Ok(items)
  {
    if items != [] {
      assert Restores(cs, items[0], parts[0]);
      PartsRestore(cs, items[1..], parts[1..]);
      assert items == [items[0]] + items[1..];
      assert ItemsToJson(items)[1..] == ItemsToJson(items[1..]);
    }
  }

  lemma {:induction false} DictRestores(cs: Classes, entries: seq<Entry>, keys: KeyAnnotation, values: Annotation)
    requires DistinctKeys(entries)
    requires forall i :: 0 <= i < |entries| ==> KeyHasType(entries[i].key, keys)
    requires forall i :: 0 <= i < |entries| ==> Restores(cs, entries[i].value, values)
    ensures RestoreDict(cs, EntriesToJson(entries), keys, values) == Ok(entries)
  {
    hide FromJsonSafe, ToJsonSafe, PutEntry, PutField, KeyText, RestoreKey;
    if entries != [] {
      var init, last := entries[..|entries| - 1], entries[|entries| - 1];
      DictRestores(cs, init, keys, values);
      TypedKeysHaveDistinctTexts(entries, keys);
      EntriesToJsonAt(entries);
      EntriesToJsonAt(init);
      var fields := EntriesToJson(entries);
      assert fields[..|fields| - 1] == EntriesToJson(init);
      TypedKeyRestores(last.key, keys);
      assert Restores(cs, last.value, values);
      PutFreshEntry(init, last.key, last.value);
      assert init + [last] == entries;
    }
  }

  lemma {:induction false} FieldAnnotationAt(decls: seq<FieldDecl>, i: nat)
    requires i < |decls| && DistinctNames(decls)
    ensures FieldAnnotation(decls, decls[i].name) == decls[i].ann
  {
    if i > 0 {
      FieldAnnotationAt(decls[1..], i - 1);
    }
  }

  lemma {:induction false} FieldsRestore(cs: Classes, attrs: seq<Attr>, fields: seq<JField>, decls: seq<FieldDecl>)
    requires |fields| == |attrs|
    requires forall i :: 0 <= i < |attrs| ==>
      && fields[i] == JField(attrs[i].name, ToJsonSafe(attrs[i].value))
      && Restores(cs, attrs[i].value, FieldAnnotation(decls, attrs[i].name))
    ensures RestoreFields(cs, fields, decls) == Ok(attrs)
  {
    if attrs != [] {
      assert Restores(cs, attrs[0].value, FieldAnnotation(decls, attrs[0].name));
      FieldsRestore(cs, attrs[1..], fields[1..], decls);
      assert attrs == [attrs[0]] + attrs[1..];
    }
  }

  lemma {:induction false} FindAttrAt(attrs: seq<Attr>, i: nat)
    requires i < |attrs|
    requires forall j, k :: 0 <= j < k < |attrs| ==> attrs[j].name != attrs[k].name
    ensures FindAttr(attrs, attrs[i].name) == Some(attrs[i].value)
  {
    if i > 0 {
      FindAttrAt(attrs[1..], i - 1);
    }
  }

  lemma {:induction false} BindAll(cls: string, decls: seq<FieldDecl>, attrs: seq<Attr>, n: nat)
    requires |decls| == |attrs| && n <= |decls|
    requires forall i :: 0 <= i < |attrs| ==> attrs[i].name == decls[i].name
    requires DistinctNames(decls)
    ensures BindFields(cls, decls[n..], attrs) == Ok(attrs[n..])
    decreases |decls| - n
  {
    if n < |decls| {
      BindAll(cls, decls, attrs, n + 1);
      FindAttrAt(attrs, n);
      assert decls[n..][1..] == decls[n + 1..];
      assert attrs[n..] == [attrs[n]] + attrs[n + 1..];
    }
  }

  lemma DataRestores(cs: Classes, cls: string, attrs: seq<Attr>)
    requires FaithfulClasses(cs) && cls in cs && |attrs| == |cs[cls]|
    requires forall i :: 0 <= i < |attrs| ==>
      attrs[i].name == cs[cls][i].name && Restores(cs, attrs[i].value, cs[cls][i].ann)
    ensures Restores(cs, PData(cls, attrs), AData(cls))
  {
    var decls := cs[cls];
    assert DistinctNames(decls);
    hide FromJsonSafe, ToJsonSafe, FaithfulClasses, FieldAnnotation, RestoreFields, AttrsToJson, BindFields;
    AttrsToJsonAt(attrs);
    forall i | 0 <= i < |attrs|
      ensures FieldAnnotation(decls, attrs[i].name) == decls[i].ann
    {
      FieldAnnotationAt(decls, i);
    }
    FieldsRestore(cs, attrs, AttrsToJson(attrs), decls);
    forall a | a in attrs
      ensures Declares(decls, a.name)
    {
      var i :| 0 <= i < |attrs| && attrs[i] == a;
      assert decls[i] in decls;
    }
    BindAll(cls, decls, attrs, 0);
    assert decls[0..] == decls && attrs[0..] == attrs;
    Constructed(cs, cls, AttrsToJson(attrs), attrs);
    DataToJson(cls, attrs);
  }

  lemma DataToJson(cls: string, attrs: seq<Attr>)
    ensures ToJsonSafe(PData(cls, attrs)) == JObj(AttrsToJson(attrs))
  {
  }

  lemma Constructed(cs: Classes, cls: string, fields: seq<JField>, attrs: seq<Attr>)
    requires cls in cs && RestoreFields(cs, fields, cs[cls]) == Ok(attrs)
    requires Construct(cls, cs[cls], attrs) == Ok(PData(cls, attrs))
    ensures FromJsonSafe(cs, JObj(fields), AData(cls)) == Ok(PData(cls, attrs))
  {
    hide RestoreFields, Construct;
  }

  // ----- Values restored without an annotation -----

  lemma {:induction false} PlainIsRaw(v: PyValue)
    requires Plain(v) && ProperDicts(v)
    ensures Raw(ToJsonSafe(v)) == v
    decreases v
  {
    match v
    case PList(items) =>
      forall i | 0 <= i < |items|
        ensures Raw(ToJsonSafe(items[i])) == items[i]
      {
        PlainIsRaw(items[i]);
      }
      ItemsToJsonAt(items);
      RawItemsAt(ItemsToJson(items));
      assert RawItems(ItemsToJson(items)) == items;
    case PDict(entries) =>
      forall i | 0 <= i < |entries|
        ensures Raw(ToJsonSafe(entries[i].value)) == entries[i].value
      {
        var e := entries[i];
        assert e.value < e;
        PlainIsRaw(e.value);
      }
      TypedKeysHaveDistinctTexts(entries, KeyStr);
      EntriesToJsonAt(entries);
      RawFieldsAt(EntriesToJson(entries));
      assert RawFields(EntriesToJson(entries)) == entries;
    case _ =>
  }

  /** `Any`, or no annotation at all, gives back exactly the values JSON holds as they are. */
  lemma {:induction false} AnyRestoresExactlyPlain(cs: Classes, v: PyValue)
    requires ProperDicts(v)
    ensures Restores(cs, v, AAny) <==> Plain(v)
    decreases v
  {
    if Plain(v) {
      PlainIsRaw(v);
    } else if Restores(cs, v, AAny) {
      match v
      case PList(items) =>
        ItemsToJsonAt(items);
        RawItemsAt(ItemsToJson(items));
        forall i | 0 <= i < |items|
          ensures Plain(items[i])
        {
          assert items[i] == Raw(ToJsonSafe(items[i]));
          AnyRestoresExactlyPlain(cs, items[i]);
        }
      case PDict(entries) =>
        RawFieldsAt(EntriesToJson(entries));
        assert RawFields(EntriesToJson(entries)) == entries;
        assert forall i :: 0 <= i < |entries| ==> entries[i].key.KStr?;
        TypedKeysHaveDistinctTexts(entries, KeyStr);
        EntriesToJsonAt(entries);
        forall i | 0 <= i < |entries|
          ensures Plain(entries[i].value)
        {
          var e := entries[i];
          assert e.value < e;
          assert e.value == Raw(ToJsonSafe(e.value));
          AnyRestoresExactlyPlain(cs, e.value);
        }
      case _ =>
    }
  }

  // ----- Unions -----

  predicate ScalarJson(j: Json) {
    !j.JArr? && !j.JObj?
  }

  /** A scalar is handed back unchanged at every annotation. */
  lemma {:induction false} ScalarsAreNeverRestored(cs: Classes, j: Json, ann: Annotation)
    requires ScalarJson(j)
    ensures FromJsonSafe(cs, j, ann) == Ok(Raw(j))
    decreases ann, 1
  {
    if ann.AUnion? && !(j.JNull? && ANone in ann.members) {
      ScalarMembers(cs, j, ann.members);
    }
  }

  lemma {:induction false} ScalarMembers(cs: Classes, j: Json, members: seq<Annotation>)
    requires ScalarJson(j)
    ensures RestoreMembers(cs, j, members, None) == Ok(Raw(j))
    decreases members, 0
  {
    if members != [] {
      ScalarsAreNeverRestored(cs, j, members[0]);
      ScalarMembers(cs, j, members[1..]);
    }
  }

  /** A later member's value makes an earlier, separated member raise or mismatch. */
  lemma EarlierMemberFails(cs: Classes, v: PyValue, first: Annotation, second: Annotation)
    requires FaithfulClasses(cs) && WellTyped(cs, v, second) && Separated(cs, first, second)
    requires KindOf(first).Some? && KindOf(second).Some? && first != ANone
    requires !ScalarJson(ToJsonSafe(v))
    ensures var r := FromJsonSafe(cs, ToJsonSafe(v), first); r.Ok? ==> !MatchesAnnotation(r.value, first)
  {
    if first.AData? && second.AData? {
      OtherClassRejects(cs, v, first.cls, second.cls);
    }
  }

  lemma OtherClassRejects(cs: Classes, v: PyValue, first: string, second: string)
    requires FaithfulClasses(cs) && first in cs && second in cs
    requires WellTyped(cs, v, AData(second)) && RejectsFieldsOf(cs[first], cs[second])
    ensures FromJsonSafe(cs, ToJsonSafe(v), AData(first)).Err?
  {
    assert DistinctNames(cs[second]);
    AttrsToJsonAt(v.attrs);
    ForeignFieldsRejected(cs, first, AttrsToJson(v.attrs), cs[second]);
  }

  lemma ForeignFieldsRejected(cs: Classes, cls: string, fields: seq<JField>, others: seq<FieldDecl>)
    requires cls in cs && |fields| == |others| && RejectsFieldsOf(cs[cls], others)
    requires forall i :: 0 <= i < |fields| ==> fields[i].key == others[i].name
    ensures FromJsonSafe(cs, JObj(fields), AData(cls)).Err?
  {
    var restored := RestoreFields(cs, fields, cs[cls]);
    if restored.Ok? {
      RestoredNames(cs, fields, cs[cls]);
      ForeignAttrsRejected(cls, cs[cls], restored.value, others);
    }
  }

  lemma ForeignAttrsRejected(cls: string, decls: seq<FieldDecl>, attrs: seq<Attr>, others: seq<FieldDecl>)
    requires |attrs| == |others| && RejectsFieldsOf(decls, others)
    requires forall i :: 0 <= i < |attrs| ==> attrs[i].name == others[i].name
    ensures Construct(cls, decls, attrs).Err?
  {
    if o :| o in others && !Declares(decls, o.name) {
      var i :| 0 <= i < |others| && others[i] == o;
      assert attrs[i] in attrs && !Declares(decls, attrs[i].name);
    } else {
      var d :| d in decls && d.default.None? && !Declares(others, d.name);
      assert forall i :: 0 <= i < |attrs| ==> others[i] in others;
      MissingFieldFails(cls, decls, attrs, d);
    }
  }

  lemma {:induction false} RestoredNames(cs: Classes, fields: seq<JField>, decls: seq<FieldDecl>)
    requires RestoreFields(cs, fields, decls).Ok?
    ensures var attrs := RestoreFields(cs, fields, decls).value;
      |attrs| == |fields| && forall i :: 0 <= i < |fields| ==> attrs[i].name == fields[i].key
  {
    if fields != [] {
      RestoredNames(cs, fields[1..], decls);
    }
  }

  lemma {:induction false} AbsentAttr(attrs: seq<Attr>, name: string)
    requires forall i :: 0 <= i < |attrs| ==> attrs[i].name != name
    ensures FindAttr(attrs, name) == None
  {
    if attrs != [] {
      AbsentAttr(attrs[1..], name);
    }
  }

  lemma {:induction false} MissingFieldFails(cls: string, decls: seq<FieldDecl>, attrs: seq<Attr>, d: FieldDecl)
    requires d in decls && d.default.None?
    requires forall i :: 0 <= i < |attrs| ==> attrs[i].name != d.name
    ensures BindFields(cls, decls, attrs).Err?
  {
    if decls[0] == d {
      AbsentAttr(attrs, d.name);
    } else {
      MissingFieldFails(cls, decls[1..], attrs, d);
    }
  }

  lemma {:induction false} SearchReachesMember(
    cs: Classes, v: PyValue, members: seq<Annotation>, k: nat, from: nat, lastError: Option<Error>)
    requires FaithfulClasses(cs) && Faithful(cs, AUnion(members))
    requires from <= k < |members| && WellTyped(cs, v, members[k]) && Restores(cs, v, members[k])
    requires !ScalarJson(ToJsonSafe(v))
    ensures RestoreMembers(cs, ToJsonSafe(v), members[from..], lastError) == Ok(v)
    decreases k - from
  {
    var rest := members[from..];
    assert rest[0] == members[from] && rest[1..] == members[from + 1..];
    if from < k {
      var m := members[from];
      var next := if m == ANone then lastError
                  else match FromJsonSafe(cs, ToJsonSafe(v), m) case Err(e) => Some(e) case Ok(_) => lastError;
      SearchReachesMember(cs, v, members, k, from + 1, next);
      if m != ANone {
        EarlierMemberFails(cs, v, m, members[k]);
      }
    }
  }

  // ----- The round trip -----

  /**
   * Every well-typed value comes back unchanged, at any nesting of lists, fixed and variadic tuples,
   * dicts, dataclasses and unions whose members are separated in declaration order.
   */
  lemma {:induction false} TypedRoundTrip(cs: Classes, v: PyValue, ann: Annotation)
    requires FaithfulClasses(cs) && Faithful(cs, ann) && WellTyped(cs, v, ann)
    ensures FromJsonSafe(cs, ToJsonSafe(v), ann) == Ok(v)
    decreases v, ann
  {
    match ann
    case AAny => PlainIsRaw(v);
    case ANone =>
    case AScalar(_) =>
    case AList(item) =>
      forall i | 0 <= i < |v.items|
        ensures Restores(cs, v.items[i], item)
      {
        TypedRoundTrip(cs, v.items[i], item);
      }
      ItemsRestore(cs, v.items, item);
    case ATupleOf(item) =>
      forall i | 0 <= i < |v.items|
        ensures Restores(cs, v.items[i], item)
      {
        TypedRoundTrip(cs, v.items[i], item);
      }
      ItemsRestore(cs, v.items, item);
    case ATuple(parts) =>
      forall i | 0 <= i < |v.items|
        ensures Restores(cs, v.items[i], parts[i])
      {
        TypedRoundTrip(cs, v.items[i], parts[i]);
      }
      PartsRestore(cs, v.items, parts);
    case ADict(keys, values) =>
      forall i | 0 <= i < |v.entries|
        ensures Restores(cs, v.entries[i].value, values)
      {
        var e := v.entries[i];
        assert e.value < e;
        TypedRoundTrip(cs, e.value, values);
      }
      DictRestores(cs, v.entries, keys, values);
    case AData(cls) =>
      forall i | 0 <= i < |v.attrs|
        ensures Restores(cs, v.attrs[i].value, cs[cls][i].ann)
      {
        var a := v.attrs[i];
        assert a.value < a;
        TypedRoundTrip(cs, a.value, cs[cls][i].ann);
      }
      DataRestores(cs, cls, v.attrs);
    case AUnion(members) =>
      var k :| 0 <= k < |members| && WellTyped(cs, v, members[k]);
      TypedRoundTrip(cs, v, members[k]);
      if ScalarJson(ToJsonSafe(v)) {
        ScalarsAreNeverRestored(cs, ToJsonSafe(v), ann);
      } else {
        SearchReachesMember(cs, v, members, k, 0, None);
        assert members[0..] == members;
      }
  }

  // ----- Where it fails -----

  lemma {:induction false} RestoredBoolKeys(cs: Classes, fields: seq<JField>, values: Annotation)
    requires forall i :: 0 <= i < |fields| ==> fields[i].key != ""
    requires RestoreDict(cs, fields, KeyBool, values).Ok?
    ensures forall e :: e in RestoreDict(cs, fields, KeyBool, values).value ==> e.key == KBool(true)
  {
    if fields != [] {
      var last := fields[|fields| - 1];
      RestoredBoolKeys(cs, fields[..|fields| - 1], values);
      var es := RestoreDict(cs, fields[..|fields| - 1], KeyBool, values).value;
      PutKeepsKeys(es, KBool(true), FromJsonSafe(cs, last.value, values).value);
    }
  }

  lemma {:induction false} PutKeepsKeys(entries: seq<Entry>, key: Key, value: PyValue)
    requires forall e :: e in entries ==> e.key == key
    ensures forall e :: e in PutEntry(entries, key, value) ==> e.key == key
  {
  }

  lemma {:induction false} BoolTextsAreNotEmpty(entries: seq<Entry>)
    requires forall i :: 0 <= i < |entries| ==> entries[i].key.KBool?
    ensures forall f :: f in EntriesToJson(entries) ==> f.key != ""
  {
    if entries != [] {
      var init, last := entries[..|entries| - 1], entries[|entries| - 1];
      BoolTextsAreNotEmpty(init);
      PutFieldKeys(EntriesToJson(init), KeyText(last.key), ToJsonSafe(last.value));
    }
  }

  lemma {:induction false} PutFieldKeys(fields: seq<JField>, key: string, value: Json)
    requires key != "" && forall f :: f in fields ==> f.key != ""
    ensures forall f :: f in PutField(fields, key, value) ==> f.key != ""
  {
    if fields != [] && fields[0].key != key {
      PutFieldKeys(fields[1..], key, value);
    }
  }

  /** `bool('False')` is True: a bool-keyed dict survives exactly when False is not one of its keys. */
  lemma BoolKeyedDictRestoresExactlyWithoutFalse(cs: Classes, entries: seq<Entry>, values: Annotation)
    requires DistinctKeys(entries)
    requires forall i :: 0 <= i < |entries| ==> entries[i].key.KBool? && Restores(cs, entries[i].value, values)
    ensures Restores(cs, PDict(entries), ADict(KeyBool, values)) <==>
      forall i :: 0 <= i < |entries| ==> entries[i].key != KBool(false)
  {
    if forall i :: 0 <= i < |entries| ==> entries[i].key != KBool(false) {
      forall i | 0 <= i < |entries|
        ensures KeyHasType(entries[i].key, KeyBool)
      {
        assert entries[i].key != KBool(false);
      }
      DictRestores(cs, entries, KeyBool, values);
    } else {
      var i :| 0 <= i < |entries| && entries[i].key == KBool(false);
      BoolTextsAreNotEmpty(entries);
      var fields := EntriesToJson(entries);
      if RestoreDict(cs, fields, KeyBool, values).Ok? {
        RestoredBoolKeys(cs, fields, values);
        assert entries[i] in entries;
      }
    }
  }

  // ----- Lists and tuples in one union -----

  predicate IsArray(ann: Annotation) {
    ann.AList? || ann.ATuple? || ann.ATupleOf?
  }

  /** What a list or tuple annotation makes of items that restore. */
  function ArrayOf(ann: Annotation, items: seq<PyValue>): PyValue {
    if ann.AList? then PList(items) else PTuple(items)
  }

  ghost predicate ItemsRestoreAt(cs: Classes, items: seq<PyValue>, ann: Annotation) {
    match ann
    case AList(item) => forall i :: 0 <= i < |items| ==> Restores(cs, items[i], item)
    case ATupleOf(item) => forall i :: 0 <= i < |items| ==> Restores(cs, items[i], item)
    case ATuple(parts) =>
      if parts == [] then forall i :: 0 <= i < |items| ==> Restores(cs, items[i], AAny)
      else |items| == |parts| && forall i :: 0 <= i < |parts| ==> Restores(cs, items[i], parts[i])
    case _ => false
  }

  lemma ArrayRestores(cs: Classes, items: seq<PyValue>, ann: Annotation)
    requires IsArray(ann) && ItemsRestoreAt(cs, items, ann)
    ensures FromJsonSafe(cs, JArr(ItemsToJson(items)), ann) == Ok(ArrayOf(ann, items))
  {
    match ann
    case AList(item) => ItemsRestore(cs, items, item);
    case ATupleOf(item) => ItemsRestore(cs, items, item);
    case ATuple(parts) =>
      if parts == [] {
        ItemsToJsonAt(items);
        RawItemsAt(ItemsToJson(items));
        forall i | 0 <= i < |items|
          ensures RawItems(ItemsToJson(items))[i] == items[i]
        {
          assert Restores(cs, items[i], AAny);
        }
        assert RawItems(ItemsToJson(items)) == items;
      } else {
        PartsRestore(cs, items, parts);
      }
  }

  /** An array that meets a member of another kind stays a raw list, which that member does not match. */
  lemma OtherKindMismatches(cs: Classes, items: seq<Json>, ann: Annotation)
    requires !IsArray(ann) && KindOf(ann).Some? && ann != ANone
    ensures FromJsonSafe(cs, JArr(items), ann) == Ok(Raw(JArr(items))) && !MatchesAnnotation(Raw(JArr(items)), ann)
  {
  }

  lemma {:induction false} SearchStopsAtArray(
    cs: Classes, items: seq<PyValue>, members: seq<Annotation>, k: nat, from: nat)
    requires from <= k < |members| && IsArray(members[k]) && ItemsRestoreAt(cs, items, members[k])
    requires forall j :: 0 <= j < k ==> !IsArray(members[j]) && KindOf(members[j]).Some?
    ensures RestoreMembers(cs, JArr(ItemsToJson(items)), members[from..], None) == Ok(ArrayOf(members[k], items))
    decreases k - from
  {
    var rest := members[from..];
    assert rest[0] == members[from] && rest[1..] == members[from + 1..];
    if from < k {
      if members[from] != ANone {
        OtherKindMismatches(cs, ItemsToJson(items), members[from]);
      }
      SearchStopsAtArray(cs, items, members, k, from + 1);
    } else {
      ArrayRestores(cs, items, members[k]);
    }
  }

  /**
   * Among the list and tuple members of a union only the first in declaration order counts: if the items
   * restore there, a list or tuple comes back as it was if and only if that member has its constructor.
   */
  lemma UnionRestoresExactlyTheFirstArray(cs: Classes, v: PyValue, members: seq<Annotation>, k: nat)
    requires v.PList? || v.PTuple?
    requires k < |members| && IsArray(members[k]) && ItemsRestoreAt(cs, v.items, members[k])
    requires forall j :: 0 <= j < k ==> !IsArray(members[j]) && KindOf(members[j]).Some?
    ensures Restores(cs, v, AUnion(members)) <==> (v.PList? <==> members[k].AList?)
  {
    SearchStopsAtArray(cs, v.items, members, k, 0);
    assert members[0..] == members;
    assert ToJsonSafe(v) == JArr(ItemsToJson(v.items));
  }

  /** So a tuple stored under `list[int] | tuple[int, ...]` comes back as a list. */
  lemma ListBeforeTupleLosesTheTuple(cs: Classes, n: int)
    ensures
      var ann := AUnion([AList(AScalar(SInt)), ATupleOf(AScalar(SInt))]);
      var v := PTuple([PInt(n)]);
      WellTyped(cs, v, ann) && FromJsonSafe(cs, ToJsonSafe(v), ann) == Ok(PList([PInt(n)]))
  {
    var members := [AList(AScalar(SInt)), ATupleOf(AScalar(SInt))];
    var v := PTuple([PInt(n)]);
    assert WellTyped(cs, v, members[1]);
    var items := [PInt(n)];
    assert ItemsToJson(items) == [JInt(n)];
    assert Restores(cs, items[0], AScalar(SInt));
    ItemsRestore(cs, items, AScalar(SInt));
    assert FromJsonSafe(cs, ToJsonSafe(v), members[0]) == Ok(PList(items));
  }
}
