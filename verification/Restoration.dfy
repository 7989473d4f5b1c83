/**
 * The codec on all inputs, well typed or not: what a stored object holds when key texts collide, and
 * what restoration makes of any JSON value at any annotation, position by position.
 */
module Restoration {
  import opened Wrappers
  import opened Text
  import opened Serialization
  import opened RoundTrip

  // ----- What is stored -----

  /** `str` of the keys a Python dict can have here. */
  lemma KeyTexts(i: int, s: string)
    ensures KeyText(KBool(true)) == "True" && KeyText(KBool(false)) == "False" && KeyText(KNone) == "None"
    ensures KeyText(KStr(s)) == s && KeyText(KInt(i)) == IntText(i)
  {
  }

  ghost predicate DistinctFields(fields: seq<JField>) {
    forall i, j :: 0 <= i < j < |fields| ==> fields[i].key != fields[j].key
  }

  /** Assignment to a key leaves the keys in place, or adds the key at the end. */
  lemma {:induction false} PutFieldKeys(fields: seq<JField>, key: string, value: Json)
    requires DistinctFields(fields)
    ensures var put := PutField(fields, key, value);
      && |fields| <= |put| <= |fields| + 1
      && (forall i :: 0 <= i < |fields| ==> put[i].key == fields[i].key)
      && (|put| > |fields| ==> put[|fields|].key == key && forall f :: f in fields ==> f.key != key)
  {
    if fields != [] && fields[0].key != key {
      PutFieldKeys(fields[1..], key, value);
      assert fields == [fields[0]] + fields[1..];
    }
  }

  /** The key then has this value, and the other fields are those there were. */
  lemma {:induction false} PutFieldHas(fields: seq<JField>, key: string, value: Json)
    requires DistinctFields(fields)
    ensures forall f :: f in PutField(fields, key, value) <==> f == JField(key, value) || (f in fields && f.key != key)
  {
    if fields != [] {
      assert fields == [fields[0]] + fields[1..];
      if fields[0].key != key {
        PutFieldHas(fields[1..], key, value);
      } else {
        assert forall i :: 0 <= i < |fields[1..]| ==> fields[1..][i].key != key;
      }
    }
  }

  lemma PutFieldAt(fields: seq<JField>, key: string, value: Json)
    requires DistinctFields(fields)
    ensures var put := PutField(fields, key, value);
      && DistinctFields(put)
      && forall f :: f in put <==> f == JField(key, value) || (f in fields && f.key != key)
  {
    hide PutField;
    PutFieldKeys(fields, key, value);
    PutFieldHas(fields, key, value);
  }

  /** The last entry with this text has this value. */
  ghost predicate LastEntry(entries: seq<Entry>, f: JField) {
    exists i: nat :: LastOfText(entries, i, f.key) && f.value == ToJsonSafe(entries[i].value)
  }

  ghost predicate LastOfText(entries: seq<Entry>, i: nat, key: string) {
    && i < |entries| && KeyText(entries[i].key) == key
    && forall j :: i < j < |entries| ==> KeyText(entries[j].key) != key
  }

  lemma LastEntryNext(entries: seq<Entry>, f: JField)
    requires entries != []
    ensures var last := entries[|entries| - 1];
      LastEntry(entries, f) <==>
        if f.key == KeyText(last.key) then f.value == ToJsonSafe(last.value)
        else LastEntry(entries[..|entries| - 1], f)
  {
    hide ToJsonSafe, KeyText;
    var n := |entries| - 1;
    var init := entries[..n];
    if f.key == KeyText(entries[n].key) {
      assert LastOfText(entries, n, f.key);
      assert forall i: nat :: LastOfText(entries, i, f.key) ==> i == n;
    } else {
      assert forall i: nat :: LastOfText(entries, i, f.key) <==> LastOfText(init, i, f.key);
    }
  }

  /**
   * Where texts collide, as those of 1 and "1" do, one field is stored, and it has the value of the last
   * entry; nothing else is stored.
   */
  lemma {:induction false} LastEntryIsStored(entries: seq<Entry>)
    ensures DistinctFields(EntriesToJson(entries))
    ensures forall f :: f in EntriesToJson(entries) <==> LastEntry(entries, f)
  {
    hide ToJsonSafe, KeyText, PutField, LastEntry;
    if entries == [] {
      assert forall f :: !LastEntry(entries, f) by {
        NoLastEntry();
      }
    } else {
      var init, last := entries[..|entries| - 1], entries[|entries| - 1];
      LastEntryIsStored(init);
      PutFieldAt(EntriesToJson(init), KeyText(last.key), ToJsonSafe(last.value));
      forall f
        ensures f in EntriesToJson(entries) <==> LastEntry(entries, f)
      {
        LastEntryNext(entries, f);
      }
    }
  }

  lemma NoLastEntry()
    ensures forall f :: !LastEntry([], f)
  {
  }

  // ----- Restoring position by position -----

  ghost predicate FirstRaising(cs: Classes, items: seq<Json>, at: nat -> Annotation, i: nat, e: Error) {
    && i < |items| && FromJsonSafe(cs, items[i], at(i)) == Err(e)
    && forall k: nat :: k < i ==> FromJsonSafe(cs, items[k], at(k)).Ok?
  }

  /** The results are those of the items, each at its own annotation; or the first that raises decides. */
  ghost predicate Pointwise(cs: Classes, items: seq<Json>, at: nat -> Annotation, r: Result<seq<PyValue>, Error>) {
    && (r.Ok? ==> |r.value| == |items|)
    && (r.Ok? ==> forall i: nat :: i < |items| ==> FromJsonSafe(cs, items[i], at(i)) == Ok(r.value[i]))
    && (r.Err? ==> exists i: nat :: FirstRaising(cs, items, at, i, r.error))
  }

  lemma PointwiseNext(cs: Classes, items: seq<Json>, at: nat -> Annotation, later: nat -> Annotation,
                      tail: Result<seq<PyValue>, Error>)
    requires items != [] && Pointwise(cs, items[1..], later, tail) && forall i: nat :: later(i) == at(i + 1)
    ensures var first := FromJsonSafe(cs, items[0], at(0));
      Pointwise(cs, items, at,
        if first.Err? then Err(first.error) else if tail.Err? then tail else Ok([first.value] + tail.value))
  {
    hide FromJsonSafe;
    var first := FromJsonSafe(cs, items[0], at(0));
    if first.Err? {
      assert FirstRaising(cs, items, at, 0, first.error);
    } else if tail.Err? {
      var i: nat :| FirstRaising(cs, items[1..], later, i, tail.error);
      forall k: nat | k < i + 1
        ensures FromJsonSafe(cs, items[k], at(k)).Ok?
      {
        if k > 0 {
          assert FromJsonSafe(cs, items[1..][k - 1], later(k - 1)).Ok?;
        }
      }
      assert FirstRaising(cs, items, at, i + 1, tail.error);
    } else {
      forall i: nat | i < |items|
        ensures FromJsonSafe(cs, items[i], at(i)) == Ok(([first.value] + tail.value)[i])
      {
        if i > 0 {
          assert FromJsonSafe(cs, items[1..][i - 1], later(i - 1)) == Ok(tail.value[i - 1]);
        }
      }
    }
  }

  function Always(ann: Annotation): nat -> Annotation {
    (i: nat) => ann
  }

  /** Raises or not, a list restores item by item. */
  lemma {:induction false} ListItems(cs: Classes, items: seq<Json>, ann: Annotation)
    ensures Pointwise(cs, items, Always(ann), RestoreItems(cs, items, ann))
  {
    hide FromJsonSafe;
    if items != [] {
      ListItems(cs, items[1..], ann);
      PointwiseNext(cs, items, Always(ann), Always(ann), RestoreItems(cs, items[1..], ann));
    }
  }

  /** The annotation of each item of a fixed tuple: its own, or none past the last. */
  function PartAt(parts: seq<Annotation>): nat -> Annotation {
    (i: nat) => if i < |parts| then parts[i] else AAny
  }

  lemma {:induction false} TupleItems(cs: Classes, items: seq<Json>, parts: seq<Annotation>)
    ensures Pointwise(cs, items, PartAt(parts), RestoreParts(cs, items, parts))
  {
    hide FromJsonSafe;
    if items != [] {
      var later := if parts == [] then [] else parts[1..];
      TupleItems(cs, items[1..], later);
      assert forall i: nat :: PartAt(later)(i) == PartAt(parts)(i + 1);
      PointwiseNext(cs, items, PartAt(parts), PartAt(later), RestoreParts(cs, items[1..], later));
    }
  }

  function ItemAt(ann: Annotation): nat -> Annotation
    requires IsArray(ann)
  {
    match ann
    case AList(item) => Always(item)
    case ATupleOf(item) => Always(item)
    case ATuple(parts) => PartAt(parts)
  }

  /**
   * A list restores item by item; a fixed tuple at its parts, with surplus items as they are; each keeps
   * its length, and the first item that raises makes the whole raise.
   */
  lemma ArraysRestorePointwise(cs: Classes, items: seq<Json>, ann: Annotation)
    requires IsArray(ann)
    ensures var r := FromJsonSafe(cs, JArr(items), ann);
      && (r.Ok? ==> if ann.AList? then r.value.PList? else r.value.PTuple?)
      && Pointwise(cs, items, ItemAt(ann), if r.Ok? then Ok(r.value.items) else Err(r.error))
    ensures var r := FromJsonSafe(cs, JArr(items), ann);
      r.Ok? && ann.ATuple? ==> SurplusIsRaw(items, |ann.parts|, r.value.items)
  {
    match ann
    case AList(item) => ListItems(cs, items, item);
    case ATupleOf(item) => ListItems(cs, items, item);
    case ATuple(parts) =>
      if parts == [] {
        RawItemsAt(items);
      } else {
        TupleItems(cs, items, parts);
      }
      Surplus(cs, items, parts);
  }

  predicate SurplusIsRaw(items: seq<Json>, n: nat, vs: seq<PyValue>) {
    |vs| == |items| && forall i :: n <= i < |items| ==> vs[i] == Raw(items[i])
  }

  lemma Surplus(cs: Classes, items: seq<Json>, parts: seq<Annotation>)
    ensures var r := FromJsonSafe(cs, JArr(items), ATuple(parts)); r.Ok? ==> SurplusIsRaw(items, |parts|, r.value.items)
  {
    if parts == [] {
      RawItemsAt(items);
    } else {
      TupleItems(cs, items, parts);
      var r := RestoreParts(cs, items, parts);
      forall i: nat | r.Ok? && |parts| <= i < |items|
        ensures r.value[i] == Raw(items[i])
      {
        assert FromJsonSafe(cs, items[i], PartAt(parts)(i)) == Ok(r.value[i]);
      }
    }
  }

  // ----- Restored dicts -----

  /** Assignment to a key leaves the keys in place, or adds the key at the end. */
  lemma {:induction false} PutEntryKeys(entries: seq<Entry>, key: Key, value: PyValue)
    requires DistinctKeys(entries)
    ensures var put := PutEntry(entries, key, value);
      && |entries| <= |put| <= |entries| + 1
      && (forall i :: 0 <= i < |entries| ==> put[i].key == entries[i].key)
      && (|put| > |entries| ==> put[|entries|].key == key && forall e :: e in entries ==> e.key != key)
  {
    if entries != [] && entries[0].key != key {
      PutEntryKeys(entries[1..], key, value);
      assert entries == [entries[0]] + entries[1..];
    }
  }

  /** The key then has this value, and the other entries are those there were. */
  lemma {:induction false} PutEntryHas(entries: seq<Entry>, key: Key, value: PyValue)
    requires DistinctKeys(entries)
    ensures forall e :: e in PutEntry(entries, key, value) <==> e == Entry(key, value) || (e in entries && e.key != key)
  {
    if entries != [] {
      assert entries == [entries[0]] + entries[1..];
      if entries[0].key != key {
        PutEntryHas(entries[1..], key, value);
      } else {
        assert forall i :: 0 <= i < |entries[1..]| ==> entries[1..][i].key != key;
      }
    }
  }

  lemma PutEntryAt(entries: seq<Entry>, key: Key, value: PyValue)
    requires DistinctKeys(entries)
    ensures var put := PutEntry(entries, key, value);
      && DistinctKeys(put)
      && forall e :: e in put <==> e == Entry(key, value) || (e in entries && e.key != key)
  {
    hide PutEntry;
    PutEntryKeys(entries, key, value);
    PutEntryHas(entries, key, value);
  }

  /** The field is restored, key and value. */
  predicate FieldRestores(cs: Classes, f: JField, keys: KeyAnnotation, values: Annotation) {
    RestoreKey(f.key, keys).Ok? && FromJsonSafe(cs, f.value, values).Ok?
  }

  /** The last field whose key restores to this one has this value. */
  ghost predicate LastField(cs: Classes, fields: seq<JField>, keys: KeyAnnotation, values: Annotation, e: Entry) {
    exists i: nat :: LastOfKey(fields, keys, i, e.key) && FromJsonSafe(cs, fields[i].value, values) == Ok(e.value)
  }

  ghost predicate LastOfKey(fields: seq<JField>, keys: KeyAnnotation, i: nat, key: Key) {
    && i < |fields| && RestoreKey(fields[i].key, keys) == Ok(key)
    && forall j :: i < j < |fields| ==> RestoreKey(fields[j].key, keys) != Ok(key)
  }

  lemma LastFieldNext(cs: Classes, init: seq<JField>, last: JField, keys: KeyAnnotation, values: Annotation, e: Entry)
    ensures LastField(cs, init + [last], keys, values, e) <==>
      if Ok(e.key) == RestoreKey(last.key, keys) then FromJsonSafe(cs, last.value, values) == Ok(e.value)
      else LastField(cs, init, keys, values, e)
  {
    hide FromJsonSafe, RestoreKey;
    var n, fields := |init|, init + [last];
    forall i: nat
      ensures LastOfKey(init, keys, i, e.key) ==> i < n && init[i] == fields[i]
      ensures LastOfKey(fields, keys, i, e.key) ==> i <= n
    {
    }
    LastOfKeyNext(init, last, keys, e.key);
    hide LastOfKey;
    if Ok(e.key) == RestoreKey(last.key, keys) {
      assert LastOfKey(fields, keys, n, e.key);
    }
  }

  lemma LastOfKeyNext(init: seq<JField>, last: JField, keys: KeyAnnotation, key: Key)
    ensures forall i: nat :: LastOfKey(init + [last], keys, i, key) <==>
      if Ok(key) == RestoreKey(last.key, keys) then i == |init| else LastOfKey(init, keys, i, key)
  {
    hide RestoreKey;
    var fields := init + [last];
    assert fields[|init|] == last;
    forall i: nat
      ensures LastOfKey(fields, keys, i, key) && i != |init| ==> Ok(key) != RestoreKey(last.key, keys)
      ensures LastOfKey(fields, keys, i, key) && i != |init| ==> LastOfKey(init, keys, i, key)
      ensures LastOfKey(init, keys, i, key) && Ok(key) != RestoreKey(last.key, keys) ==> LastOfKey(fields, keys, i, key)
    {
      assert forall j :: 0 <= j < |init| ==> fields[j] == init[j];
    }
  }

  /** What restoring a field raises: for its key, or else for its value. */
  ghost predicate FieldRaises(cs: Classes, f: JField, keys: KeyAnnotation, values: Annotation, e: Error) {
    if RestoreKey(f.key, keys).Err? then e == BadKey(f.key) else FromJsonSafe(cs, f.value, values) == Err(e)
  }

  ghost predicate FirstField(cs: Classes, fields: seq<JField>, keys: KeyAnnotation, values: Annotation, i: nat, e: Error) {
    && i < |fields| && FieldRaises(cs, fields[i], keys, values, e)
    && forall k :: 0 <= k < i ==> FieldRestores(cs, fields[k], keys, values)
  }

  lemma BadKeys(text: string, keys: KeyAnnotation)
    ensures RestoreKey(text, keys).Err? <==> keys.KeyInt? && ParseInt(text).None?
    ensures RestoreKey(text, keys).Err? ==> RestoreKey(text, keys).error == BadKey(text)
  {
  }

  /**
   * A dict restores exactly if every key and every value does, and then holds, under each restored key, the
   * value of the last field with that key: "False" and "True" fall together as bools, for one.
   */
  lemma {:induction false} DictHoldsLastFields(cs: Classes, fields: seq<JField>, keys: KeyAnnotation, values: Annotation)
    ensures var r := RestoreDict(cs, fields, keys, values);
      && (r.Ok? <==> forall f :: f in fields ==> FieldRestores(cs, f, keys, values))
      && (r.Ok? ==> DistinctKeys(r.value) && forall e :: e in r.value <==> LastField(cs, fields, keys, values, e))
      && (r.Err? ==> exists i: nat :: FirstField(cs, fields, keys, values, i, r.error))
  {
    hide FromJsonSafe, RestoreKey, PutEntry, LastField, DistinctKeys, FieldRestores, FirstField;
    if fields == [] {
      NoLastField(cs, keys, values);
    } else {
      var init, last := fields[..|fields| - 1], fields[|fields| - 1];
      assert fields == init + [last];
      DictHoldsLastFields(cs, init, keys, values);
      var before := RestoreDict(cs, init, keys, values);
      DictNext(cs, fields, keys, values);
      if before.Err? {
        FirstFieldLater(cs, init, last, keys, values, before.error);
      } else if FieldRestores(cs, last, keys, values) {
        DictWithLast(cs, fields, keys, values, before.value);
      }
    }
  }

  /** One more field: an earlier error stands, else the field is assigned or raises. */
  lemma DictNext(cs: Classes, fields: seq<JField>, keys: KeyAnnotation, values: Annotation)
    requires fields != []
    ensures var init, last := fields[..|fields| - 1], fields[|fields| - 1];
      var before, r := RestoreDict(cs, init, keys, values), RestoreDict(cs, fields, keys, values);
      if before.Err? then r == before
      else if FieldRestores(cs, last, keys, values) then
        r == Ok(PutEntry(before.value, RestoreKey(last.key, keys).value, FromJsonSafe(cs, last.value, values).value))
      else
        r.Err? && ((forall f :: f in init ==> FieldRestores(cs, f, keys, values)) ==>
          FirstField(cs, fields, keys, values, |init|, r.error))
  {
    hide FromJsonSafe, RestoreKey, PutEntry;
    BadKeys(fields[|fields| - 1].key, keys);
  }

  lemma FirstFieldLater(cs: Classes, fields: seq<JField>, last: JField, keys: KeyAnnotation, values: Annotation, e: Error)
    requires exists i: nat :: FirstField(cs, fields, keys, values, i, e)
    ensures exists i: nat :: FirstField(cs, fields + [last], keys, values, i, e)
  {
    hide FieldRaises, FieldRestores;
    var i: nat :| FirstField(cs, fields, keys, values, i, e);
    assert FirstField(cs, fields + [last], keys, values, i, e);
  }

  lemma DictWithLast(cs: Classes, fields: seq<JField>, keys: KeyAnnotation, values: Annotation, before: seq<Entry>)
    requires fields != [] && FieldRestores(cs, fields[|fields| - 1], keys, values) && DistinctKeys(before)
    requires forall e :: e in before <==> LastField(cs, fields[..|fields| - 1], keys, values, e)
    ensures var last := fields[|fields| - 1];
      var put := PutEntry(before, RestoreKey(last.key, keys).value, FromJsonSafe(cs, last.value, values).value);
      DistinctKeys(put) && forall e :: e in put <==> LastField(cs, fields, keys, values, e)
  {
    hide FromJsonSafe, RestoreKey, PutEntry, LastField, DistinctKeys;
    var last := fields[|fields| - 1];
    assert fields == fields[..|fields| - 1] + [last];
    PutEntryAt(before, RestoreKey(last.key, keys).value, FromJsonSafe(cs, last.value, values).value);
    forall e
      ensures
        e in PutEntry(before, RestoreKey(last.key, keys).value, FromJsonSafe(cs, last.value, values).value)
        <==> LastField(cs, fields, keys, values, e)
    {
      LastFieldNext(cs, fields[..|fields| - 1], last, keys, values, e);
    }
  }

  lemma NoLastField(cs: Classes, keys: KeyAnnotation, values: Annotation)
    ensures DistinctKeys([]) && forall e :: !LastField(cs, [], keys, values, e)
  {
  }

  // ----- Dataclasses -----

  /** The field of this name that was given, the first if several were. */
  ghost predicate Given(attrs: seq<Attr>, name: string, v: PyValue) {
    exists i :: 0 <= i < |attrs| && attrs[i] == Attr(name, v) && forall k :: 0 <= k < i ==> attrs[k].name != name
  }

  predicate IsGiven(attrs: seq<Attr>, name: string) {
    exists i :: 0 <= i < |attrs| && attrs[i].name == name
  }

  lemma {:induction false} FindAttrIsExact(attrs: seq<Attr>, name: string)
    ensures FindAttr(attrs, name).Some? <==> IsGiven(attrs, name)
    ensures FindAttr(attrs, name).Some? ==> Given(attrs, name, FindAttr(attrs, name).value)
  {
    if attrs != [] && attrs[0].name != name {
      FindAttrIsExact(attrs[1..], name);
      if i :| 0 <= i < |attrs[1..]| && attrs[1..][i].name == name {
        assert attrs[i + 1].name == name;
      }
      if i :| 0 <= i < |attrs| && attrs[i].name == name {
        assert attrs[1..][i - 1].name == name;
      }
      if FindAttr(attrs[1..], name).Some? {
        var v := FindAttr(attrs[1..], name).value;
        var i :| 0 <= i < |attrs[1..]| && attrs[1..][i] == Attr(name, v) && forall k :: 0 <= k < i ==> attrs[1..][k].name != name;
        assert attrs[i + 1] == Attr(name, v);
        assert forall k :: 1 <= k < i + 1 ==> attrs[k] == attrs[1..][k - 1];
      }
    }
  }

  /** The annotation of the first declaration of this name, or none. */
  ghost predicate DeclaredAs(decls: seq<FieldDecl>, name: string, ann: Annotation) {
    if Declares(decls, name) then
      exists i ::
        0 <= i < |decls| && decls[i].name == name && decls[i].ann == ann && forall k :: 0 <= k < i ==> decls[k].name != name
    else ann == AAny
  }

  lemma {:induction false} FieldAnnotationIsDeclared(decls: seq<FieldDecl>, name: string)
    ensures DeclaredAs(decls, name, FieldAnnotation(decls, name))
  {
    if decls != [] && decls[0].name != name {
      FieldAnnotationIsDeclared(decls[1..], name);
      assert Declares(decls, name) <==> Declares(decls[1..], name);
      if Declares(decls[1..], name) {
        var ann := FieldAnnotation(decls[1..], name);
        var i :| 0 <= i < |decls[1..]| && decls[1..][i].name == name && decls[1..][i].ann == ann
          && forall k :: 0 <= k < i ==> decls[1..][k].name != name;
        assert decls[i + 1] == decls[1..][i] && forall k :: 1 <= k < i + 1 ==> decls[k] == decls[1..][k - 1];
      }
    } else if decls != [] {
      assert decls[0] in decls;
    }
  }

  function ValuesOf(fields: seq<JField>): (vs: seq<Json>)
    ensures |vs| == |fields| && forall i :: 0 <= i < |fields| ==> vs[i] == fields[i].value
  {
    if fields == [] then [] else [fields[0].value] + ValuesOf(fields[1..])
  }

  function DeclaredAt(decls: seq<FieldDecl>, fields: seq<JField>): nat -> Annotation {
    (i: nat) => if i < |fields| then FieldAnnotation(decls, fields[i].key) else AAny
  }

  /** The values of the given fields, by position, without their names. */
  function Unnamed(r: Result<seq<Attr>, Error>): Result<seq<PyValue>, Error> {
    if r.Err? then Err(r.error) else Ok(seq(|r.value|, i requires 0 <= i < |r.value| => r.value[i].value))
  }

  /** The fields of an object restore one by one, each at the annotation declared for its name. */
  lemma {:induction false} FieldsRestorePointwise(cs: Classes, fields: seq<JField>, decls: seq<FieldDecl>)
    ensures var r := RestoreFields(cs, fields, decls);
      && Pointwise(cs, ValuesOf(fields), DeclaredAt(decls, fields), Unnamed(r))
      && (r.Ok? ==> |r.value| == |fields| && forall i :: 0 <= i < |fields| ==> r.value[i].name == fields[i].key)
  {
    hide FromJsonSafe, Pointwise, RestoreFields, DeclaredAt;
    if fields == [] {
      NothingToRestore(cs, decls);
    } else {
      FieldsRestorePointwise(cs, fields[1..], decls);
      assert ValuesOf(fields)[1..] == ValuesOf(fields[1..]);
      DeclaredLater(decls, fields);
      FieldsNext(cs, fields, decls);
      PointwiseNext(cs, ValuesOf(fields), DeclaredAt(decls, fields), DeclaredAt(decls, fields[1..]),
                    Unnamed(RestoreFields(cs, fields[1..], decls)));
    }
  }

  lemma DeclaredLater(decls: seq<FieldDecl>, fields: seq<JField>)
    requires fields != []
    ensures forall i: nat :: DeclaredAt(decls, fields[1..])(i) == DeclaredAt(decls, fields)(i + 1)
  {
    hide FieldAnnotation;
  }

  lemma FieldsNext(cs: Classes, fields: seq<JField>, decls: seq<FieldDecl>)
    requires fields != []
    ensures var all, tail := RestoreFields(cs, fields, decls), RestoreFields(cs, fields[1..], decls);
      var first := FromJsonSafe(cs, ValuesOf(fields)[0], DeclaredAt(decls, fields)(0));
      && Unnamed(all) ==
         (if first.Err? then Err(first.error)
          else if tail.Err? then Unnamed(tail)
          else Ok([first.value] + Unnamed(tail).value))
      && (all.Ok? ==> tail.Ok? && |all.value| == |tail.value| + 1)
      && (all.Ok? ==> all.value[0].name == fields[0].key && all.value[1..] == tail.value)
  {
    hide FromJsonSafe, FieldAnnotation;
    var all, tail := RestoreFields(cs, fields, decls), RestoreFields(cs, fields[1..], decls);
    if all.Ok? {
      assert all.value == [all.value[0]] + tail.value;
      assert Unnamed(all).value == [all.value[0].value] + Unnamed(tail).value;
    }
  }

  lemma NothingToRestore(cs: Classes, decls: seq<FieldDecl>)
    ensures Pointwise(cs, ValuesOf([]), DeclaredAt(decls, []), Unnamed(RestoreFields(cs, [], decls)))
    ensures RestoreFields(cs, [], decls) == Ok([])
  {
    hide FromJsonSafe;
  }

  /** The value a declared field is bound to: the one given, or the declared default. */
  ghost predicate BoundTo(attrs: seq<Attr>, decl: FieldDecl, v: PyValue) {
    if IsGiven(attrs, decl.name) then Given(attrs, decl.name, v) else decl.default == Some(v)
  }

  predicate CanBind(attrs: seq<Attr>, decl: FieldDecl) {
    IsGiven(attrs, decl.name) || decl.default.Some?
  }

  lemma {:induction false} BindsGivenOrDefault(cls: string, decls: seq<FieldDecl>, attrs: seq<Attr>)
    ensures var r := BindFields(cls, decls, attrs);
      && (r.Ok? <==> forall i :: 0 <= i < |decls| ==> CanBind(attrs, decls[i]))
      && (r.Err? ==> r.error == BadFields(cls))
      && (r.Ok? ==> |r.value| == |decls|)
      && (r.Ok? ==> forall i :: 0 <= i < |decls| ==>
            r.value[i].name == decls[i].name && BoundTo(attrs, decls[i], r.value[i].value))
  {
    hide FindAttr, Given;
    if decls != [] {
      FindAttrIsExact(attrs, decls[0].name);
      BindsGivenOrDefault(cls, decls[1..], attrs);
      assert decls == [decls[0]] + decls[1..];
    }
  }

  /**
   * `cls(**fields)` succeeds exactly if every field given is declared and every declared one is given or has
   * a default; then each declared field, in order, has the value given or else its default.
   */
  lemma ConstructsExactly(cls: string, decls: seq<FieldDecl>, attrs: seq<Attr>)
    ensures var r := Construct(cls, decls, attrs);
      && (r.Ok? <==> (forall a :: a in attrs ==> Declares(decls, a.name)) &&
                     forall i :: 0 <= i < |decls| ==> CanBind(attrs, decls[i]))
      && (r.Err? ==> r.error == BadFields(cls))
      && (r.Ok? ==> r.value.PData? && r.value.cls == cls && |r.value.attrs| == |decls|)
      && (r.Ok? ==> forall i :: 0 <= i < |decls| ==>
            r.value.attrs[i].name == decls[i].name && BoundTo(attrs, decls[i], r.value.attrs[i].value))
  {
    hide CanBind, BoundTo;
    BindsGivenOrDefault(cls, decls, attrs);
  }

  // ----- Unions, and values of another shape -----

  /** Null is kept where the union has None; otherwise the search over the members decides. */
  lemma UnionsAreSearched(cs: Classes, j: Json, members: seq<Annotation>)
    ensures var r := FromJsonSafe(cs, j, AUnion(members));
      if j.JNull? && ANone in members then r == Ok(PNone) else Searched(cs, j, members, 0, Ok(Raw(j)), r)
  {
    MembersAreSearched(cs, j, members, 0, None);
    assert members[0..] == members;
  }

  /** A value whose shape the annotation does not have is handed back as it is. */
  lemma OtherShapesAreLeftAlone(cs: Classes, j: Json, ann: Annotation)
    requires !ann.AUnion? && !ScalarJson(j)
    requires j.JArr? ==> !IsArray(ann)
    requires j.JObj? ==> !ann.ADict? && (ann.AData? ==> ann.cls !in cs)
    ensures FromJsonSafe(cs, j, ann) == Ok(Raw(j))
  {
  }
}
