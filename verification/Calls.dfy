/**
 * What an activity call records of its arguments, and when two calls count as the same: the divergence
 * check compares stored payloads, which is comparing the arguments.
 */
module Calls {
  import opened Wrappers
  import opened Serialization
  import opened RoundTrip
  import opened Workflows

  // ----- Payloads compared -----

  /** Nothing in it is compared by value across types, or in any order. */
  predicate Rigid(j: Json)
    decreases j
  {
    match j
    case JNull => true
    case JInt(_) => true
    case JStr(_) => true
    case JArr(items) => forall i :: 0 <= i < |items| ==> Rigid(items[i])
    case _ => false
  }

  lemma {:induction false} RigidIsCompared(a: Json, b: Json)
    requires Rigid(a) && Rigid(b)
    ensures SameJson(a, b) <==> a == b
    decreases a
  {
    if a.JArr? && b.JArr? && |a.items| == |b.items| {
      forall i | 0 <= i < |a.items|
        ensures SameJson(a.items[i], b.items[i]) <==> a.items[i] == b.items[i]
      {
        RigidIsCompared(a.items[i], b.items[i]);
      }
    } else if a == b {
      SameJsonReflexive(a);
    }
  }

  /** Numbers and bools are compared by value, and nothing else is the same as one. */
  lemma NumbersAreCompared(i: int, x: real, b: bool, j: Json)
    ensures SameJson(JInt(i), j) <==> j == JInt(i) || j == JFloat(i as real) || (j.JBool? && i == if j.b then 1 else 0)
    ensures SameJson(JFloat(x), j) <==>
      j == JFloat(x) || (j.JInt? && j.i as real == x) || (j.JBool? && x == if j.b then 1.0 else 0.0)
    ensures SameJson(JBool(b), j) <==> SameJson(JInt(if b then 1 else 0), j)
  {
  }

  /** Objects are the same with the same fields in any order. */
  lemma ObjectsAreCompared(f: seq<JField>, g: seq<JField>)
    requires forall i, k :: 0 <= i < k < |f| ==> f[i].key != f[k].key
    requires forall i, k :: 0 <= i < k < |g| ==> g[i].key != g[k].key
    requires (forall i :: 0 <= i < |f| ==> Rigid(f[i].value)) && forall i :: 0 <= i < |g| ==> Rigid(g[i].value)
    ensures SameJson(JObj(f), JObj(g)) <==> |f| == |g| && forall x :: x in f ==> x in g
  {
    forall i, k | 0 <= i < |f| && 0 <= k < |g|
      ensures SameJson(f[i].value, g[k].value) <==> f[i].value == g[k].value
    {
      RigidIsCompared(f[i].value, g[k].value);
    }
    if SameJson(JObj(f), JObj(g)) {
      forall x | x in f
        ensures x in g
      {
        var i :| 0 <= i < |f| && f[i] == x;
        assert SameField(f[i], g);
      }
    } else if |f| == |g| && forall x :: x in f ==> x in g {
      forall i | 0 <= i < |f|
        ensures SameField(f[i], g)
      {
        assert f[i] in g;
      }
    }
  }

  // ----- Calls compared -----

  /** Keyword arguments have pairwise distinct names, as those of any Python call do. */
  ghost predicate IsCall(call: Arguments) {
    DistinctKeys(call.kwargs) && forall i :: 0 <= i < |call.kwargs| ==> call.kwargs[i].key.KStr?
  }

  ghost predicate SameValue(v: PyValue, u: PyValue) {
    SameJson(ToJsonSafe(v), ToJsonSafe(u))
  }

  ghost predicate HasKeyword(kwargs: seq<Entry>, e: Entry) {
    exists k :: 0 <= k < |kwargs| && kwargs[k].key == e.key && SameValue(e.value, kwargs[k].value)
  }

  /** The same positional arguments in order, and the same keyword arguments in any. */
  ghost predicate SameCall(a: Arguments, b: Arguments) {
    && |a.args| == |b.args| && (forall i :: 0 <= i < |a.args| ==> SameValue(a.args[i], b.args[i]))
    && |a.kwargs| == |b.kwargs| && (forall i :: 0 <= i < |a.kwargs| ==> HasKeyword(b.kwargs, a.kwargs[i]))
  }

  /** Two calls have the same payload exactly if they pass the same arguments. */
  lemma ComparedByArguments(a: Arguments, b: Arguments)
    requires IsCall(a) && IsCall(b)
    ensures SameJson(SerializeArguments(a), SerializeArguments(b)) <==> SameCall(a, b)
  {
    var f, g := JArr(ItemsToJson(a.args)), JArr(ItemsToJson(b.args));
    var h, k := JObj(EntriesToJson(a.kwargs)), JObj(EntriesToJson(b.kwargs));
    TypedKeysHaveDistinctTexts(a.kwargs, KeyStr);
    TypedKeysHaveDistinctTexts(b.kwargs, KeyStr);
    ItemsToJsonAt(a.args);
    ItemsToJsonAt(b.args);
    EntriesToJsonAt(a.kwargs);
    EntriesToJsonAt(b.kwargs);
    assert SameJson(f, g) <==> |a.args| == |b.args| && forall i :: 0 <= i < |a.args| ==> SameValue(a.args[i], b.args[i]);
    assert SameJson(h, k) <==>
      |a.kwargs| == |b.kwargs| && forall i :: 0 <= i < |a.kwargs| ==> HasKeyword(b.kwargs, a.kwargs[i]) by {
      KeywordsCompared(a.kwargs, b.kwargs);
    }
    PayloadsCompared(f, h, g, k);
  }

  lemma KeywordsCompared(a: seq<Entry>, b: seq<Entry>)
    requires |EntriesToJson(a)| == |a| && |EntriesToJson(b)| == |b|
    requires forall i :: 0 <= i < |a| ==> a[i].key.KStr? && EntriesToJson(a)[i] == JField(a[i].key.s, ToJsonSafe(a[i].value))
    requires forall i :: 0 <= i < |b| ==> b[i].key.KStr? && EntriesToJson(b)[i] == JField(b[i].key.s, ToJsonSafe(b[i].value))
    ensures SameJson(JObj(EntriesToJson(a)), JObj(EntriesToJson(b))) <==>
      |a| == |b| && forall i :: 0 <= i < |a| ==> HasKeyword(b, a[i])
  {
    hide ToJsonSafe;
    var f, g := EntriesToJson(a), EntriesToJson(b);
    hide EntriesToJson;
    forall i | 0 <= i < |a|
      ensures SameField(f[i], g) <==> HasKeyword(b, a[i])
    {
      if k :| 0 <= k < |g| && g[k].key == f[i].key && SameJson(f[i].value, g[k].value) {
        assert b[k].key == a[i].key;
      }
      if k :| 0 <= k < |b| && b[k].key == a[i].key && SameValue(a[i].value, b[k].value) {
        assert g[k].key == f[i].key;
      }
    }
  }

  lemma PayloadsCompared(f: Json, h: Json, g: Json, k: Json)
    ensures SameJson(JObj([JField("args", f), JField("kwargs", h)]), JObj([JField("args", g), JField("kwargs", k)]))
      <==> SameJson(f, g) && SameJson(h, k)
  {
    var a, b := [JField("args", f), JField("kwargs", h)], [JField("args", g), JField("kwargs", k)];
    assert SameField(a[0], b) <==> SameJson(f, g) by {
      assert b[0].key == a[0].key && b[1].key != a[0].key;
    }
    assert SameField(a[1], b) <==> SameJson(h, k) by {
      assert b[1].key == a[1].key && b[0].key != a[1].key;
    }
  }

  /** What is recorded of plain arguments is the arguments themselves. */
  lemma PlainCallsAreRecorded(call: Arguments)
    requires IsCall(call) && Plain(PList(call.args)) && Plain(PDict(call.kwargs))
    requires ProperDicts(PList(call.args)) && ProperDicts(PDict(call.kwargs))
    ensures Raw(SerializeArguments(call)) ==
      PDict([Entry(KStr("args"), PList(call.args)), Entry(KStr("kwargs"), PDict(call.kwargs))])
  {
    PlainIsRaw(PList(call.args));
    PlainIsRaw(PDict(call.kwargs));
    var fields := [JField("args", ToJsonSafe(PList(call.args))), JField("kwargs", ToJsonSafe(PDict(call.kwargs)))];
    assert SerializeArguments(call) == JObj(fields);
    RawFieldsAt(fields);
  }

  /** A call that passes another number under the same keyword is another call. */
  lemma ChangedAmountIsAnotherCall(name: string, n: int, m: int)
    ensures var a, b := Arguments([], [Entry(KStr(name), PInt(n))]), Arguments([], [Entry(KStr(name), PInt(m))]);
      SameJson(SerializeArguments(a), SerializeArguments(b)) <==> n == m
  {
    var a, b := Arguments([], [Entry(KStr(name), PInt(n))]), Arguments([], [Entry(KStr(name), PInt(m))]);
    ComparedByArguments(a, b);
    NumbersAreCompared(n, 0.0, false, JInt(m));
    assert HasKeyword(b.kwargs, a.kwargs[0]) <==> SameValue(PInt(n), PInt(m)) by {
      assert b.kwargs[0].key == a.kwargs[0].key;
    }
  }
}
