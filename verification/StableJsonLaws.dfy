/** stableJson is a canonical form: texts agree exactly when values agree up to key order. */
module StableJsonLaws {
  import opened StableJson
  import opened JsonReading

  // ----- equality up to key order at every depth -----

  ghost predicate HasKey(fields: seq<Field>, key: string) {
    exists i :: 0 <= i < |fields| && fields[i].key == key
  }

  /** The values agree up to the order of keys and up to the ignored keys, at every depth. */
  ghost predicate Same(a: Json, b: Json, ignored: set<string>)
    decreases a
  {
    match a
    case Arr(items) =>
      b.Arr? && |items| == |b.items| && forall i :: 0 <= i < |items| ==> Same(items[i], b.items[i], ignored)
    case Obj(fields) =>
      && b.Obj?
      && (forall i :: 0 <= i < |fields| && fields[i].key !in ignored ==>
            exists j :: 0 <= j < |b.fields| && b.fields[j].key == fields[i].key
              && Same(fields[i].value, b.fields[j].value, ignored))
      && (forall j :: 0 <= j < |b.fields| && b.fields[j].key !in ignored ==> HasKey(fields, b.fields[j].key))
    case _ => a == b
  }

  /** No object in the value has a "__proto__" key. */
  predicate LacksProto(v: Json) {
    match v
    case Arr(items) => forall i :: 0 <= i < |items| ==> LacksProto(items[i])
    case Obj(fields) => forall i :: 0 <= i < |fields| ==> fields[i].key != PROTO && LacksProto(fields[i].value)
    case _ => true
  }

  // ----- the key order is total -----

  lemma RankIsInjective(c: char, d: char)
    ensures Rank(c) == Rank(d) <==> c == d
  {
  }

  lemma {:induction false} KeyLessIsTotal(a: string, b: string)
    ensures a == b || KeyLess(a, b) || KeyLess(b, a)
    ensures !(KeyLess(a, b) && KeyLess(b, a)) && !KeyLess(a, a)
    decreases |a|
  {
    if a != "" {
      KeyLessIsTotal(a[1..], a[1..]);
      if b != "" {
        RankIsInjective(a[0], b[0]);
        if a[0] == b[0] {
          KeyLessIsTotal(a[1..], b[1..]);
          assert a == [a[0]] + a[1..] && b == [b[0]] + b[1..];
        }
      }
    }
  }

  lemma {:induction false} KeyLessIsTransitive(a: string, b: string, c: string)
    requires KeyLess(a, b) && KeyLess(b, c)
    ensures KeyLess(a, c)
    decreases |a|
  {
    if a != "" && a[0] == b[0] == c[0] { KeyLessIsTransitive(a[1..], b[1..], c[1..]); }
  }

  // ----- sorting -----

  /** In ascending key order, each key once. */
  ghost predicate Ascending(s: seq<Field>) {
    forall i, j :: 0 <= i < j < |s| ==> KeyLess(s[i].key, s[j].key)
  }

  lemma {:induction false} InsertMembers(sorted: seq<Field>, f: Field, g: Field)
    ensures g in InsertByKey(sorted, f) <==> g == f || g in sorted
  {
    var n := |sorted| - 1;
    if n >= 0 && KeyLess(f.key, sorted[n].key) {
      InsertMembers(sorted[..n], f, g);
      assert sorted == sorted[..n] + [sorted[n]];
    }
  }

  ghost predicate AllBelow(s: seq<Field>, key: string) { forall f :: f in s ==> KeyLess(f.key, key) }

  lemma AscendingAppend(s: seq<Field>, f: Field)
    requires Ascending(s) && AllBelow(s, f.key)
    ensures Ascending(s + [f])
  {
  }

  lemma AscendingInit(s: seq<Field>)
    requires s != [] && Ascending(s)
    ensures Ascending(s[..|s| - 1]) && AllBelow(s[..|s| - 1], s[|s| - 1].key)
  {
  }

  lemma {:induction false} InsertAscending(sorted: seq<Field>, f: Field)
    requires Ascending(sorted) && forall g :: g in sorted ==> g.key != f.key
    ensures Ascending(InsertByKey(sorted, f))
  {
    var n := |sorted| - 1;
    if n < 0 {
    } else if KeyLess(f.key, sorted[n].key) {
      AscendingInit(sorted);
      InsertAscending(sorted[..n], f);
      forall g | g in InsertByKey(sorted[..n], f) ensures KeyLess(g.key, sorted[n].key) {
        InsertMembers(sorted[..n], f, g);
      }
      AscendingAppend(InsertByKey(sorted[..n], f), sorted[n]);
    } else {
      KeyLessIsTotal(f.key, sorted[n].key);
      forall g | g in sorted ensures KeyLess(g.key, f.key) {
        BelowLast(sorted, g, f.key);
      }
      AscendingAppend(sorted, f);
    }
  }

  lemma BelowLast(s: seq<Field>, g: Field, key: string)
    requires Ascending(s) && g in s && KeyLess(s[|s| - 1].key, key)
    ensures KeyLess(g.key, key)
  {
    var i :| 0 <= i < |s| && s[i] == g;
    if i < |s| - 1 { KeyLessIsTransitive(g.key, s[|s| - 1].key, key); }
  }

  lemma {:induction false} SortMembers(fields: seq<Field>, g: Field)
    ensures g in SortByKey(fields) <==> g in fields
  {
    var n := |fields| - 1;
    if n >= 0 {
      SortMembers(fields[..n], g);
      InsertMembers(SortByKey(fields[..n]), fields[n], g);
      assert fields == fields[..n] + [fields[n]];
    }
  }

  lemma {:induction false} SortAscending(fields: seq<Field>)
    requires DistinctKeys(fields)
    ensures Ascending(SortByKey(fields))
  {
    var n := |fields| - 1;
    if n >= 0 {
      SortAscending(fields[..n]);
      forall g | g in SortByKey(fields[..n]) ensures g.key != fields[n].key {
        SortMembers(fields[..n], g);
      }
      InsertAscending(SortByKey(fields[..n]), fields[n]);
    }
  }

  // ----- rebuilding -----

  function WithoutProto(s: seq<Field>): seq<Field> {
    if s == [] then []
    else if s[|s| - 1].key == PROTO then WithoutProto(s[..|s| - 1])
    else WithoutProto(s[..|s| - 1]) + [s[|s| - 1]]
  }

  lemma {:induction false} WithoutProtoMembers(s: seq<Field>, g: Field)
    ensures g in WithoutProto(s) <==> g in s && g.key != PROTO
  {
    if s != [] {
      WithoutProtoMembers(s[..|s| - 1], g);
      assert s == s[..|s| - 1] + [s[|s| - 1]];
    }
  }

  lemma {:induction false} WithoutProtoAscending(s: seq<Field>)
    requires Ascending(s)
    ensures Ascending(WithoutProto(s))
  {
    if s != [] {
      var n := |s| - 1;
      AscendingInit(s);
      WithoutProtoAscending(s[..n]);
      forall g | g in WithoutProto(s[..n]) ensures KeyLess(g.key, s[n].key) { WithoutProtoMembers(s[..n], g); }
      if s[n].key != PROTO { AscendingAppend(WithoutProto(s[..n]), s[n]); }
    }
  }

  lemma {:induction false} RebuildWithoutProto(s: seq<Field>)
    ensures Rebuild(s) == Rebuild(WithoutProto(s))
  {
    if s != [] {
      var n := |s| - 1;
      RebuildWithoutProto(s[..n]);
      if s[n].key != PROTO {
        assert (WithoutProto(s[..n]) + [s[n]])[..|WithoutProto(s[..n])|] == WithoutProto(s[..n]);
      }
    }
  }

  lemma SameEmptiness(s: seq<Field>, t: seq<Field>)
    requires forall f :: f in s <==> f in t
    ensures s == [] <==> t == []
  {
    if s != [] { assert s[0] in t; }
    if t != [] { assert t[0] in s; }
  }

  lemma {:induction false} AscendingIsUnique(s: seq<Field>, t: seq<Field>)
    requires Ascending(s) && Ascending(t) && forall f :: f in s <==> f in t
    ensures s == t
  {
    SameEmptiness(s, t);
    if s != [] {
      var m, n := |s| - 1, |t| - 1;
      SameLast(s, t);
      assert s == s[..m] + [s[m]] && t == t[..n] + [t[n]];
      AscendingInit(s);
      AscendingInit(t);
      forall f ensures f in s[..m] <==> f in t[..n] { LastOnlyOnce(s, f); LastOnlyOnce(t, f); }
      AscendingIsUnique(s[..m], t[..n]);
    }
  }

  lemma LastOnlyOnce(s: seq<Field>, f: Field)
    requires s != [] && Ascending(s)
    ensures f in s[..|s| - 1] <==> f in s && f != s[|s| - 1]
  {
    KeyLessIsTotal(f.key, f.key);
    AscendingInit(s);
    assert s == s[..|s| - 1] + [s[|s| - 1]];
  }

  lemma SameLast(s: seq<Field>, t: seq<Field>)
    requires s != [] && t != [] && Ascending(s) && Ascending(t) && forall f :: f in s <==> f in t
    ensures s[|s| - 1] == t[|t| - 1]
  {
    var f, g := s[|s| - 1], t[|t| - 1];
    assert f in t && g in s;
    LastOnlyOnce(s, g);
    LastOnlyOnce(t, f);
    AscendingInit(s);
    AscendingInit(t);
    KeyLessIsTotal(f.key, g.key);
  }

  /** What sorting and rebuilding yields depends only on which fields there are, "__proto__" aside. */
  lemma RebuildIsCanonical(f: seq<Field>, g: seq<Field>)
    requires DistinctKeys(f) && DistinctKeys(g)
    requires forall x: Field :: x.key != PROTO ==> (x in f <==> x in g)
    ensures Rebuild(SortByKey(f)) == Rebuild(SortByKey(g))
  {
    var s, t := SortByKey(f), SortByKey(g);
    SortAscending(f);
    SortAscending(g);
    WithoutProtoAscending(s);
    WithoutProtoAscending(t);
    forall x ensures x in WithoutProto(s) <==> x in WithoutProto(t) {
      WithoutProtoMembers(s, x);
      WithoutProtoMembers(t, x);
      SortMembers(f, x);
      SortMembers(g, x);
    }
    AscendingIsUnique(WithoutProto(s), WithoutProto(t));
    RebuildWithoutProto(s);
    RebuildWithoutProto(t);
  }

  lemma {:induction false} PutMembers(acc: seq<Field>, f: Field, g: Field)
    ensures g in PutField(acc, f) <==> g == f || g in acc
  {
    var n := |acc| - 1;
    if n >= 0 && EnumeratesBefore(f.key, acc[n].key) {
      PutMembers(acc[..n], f, g);
      assert acc == acc[..n] + [acc[n]];
    }
  }

  lemma {:induction false} RebuildMembers(s: seq<Field>, g: Field)
    ensures g in Rebuild(s) <==> g in s && g.key != PROTO
  {
    if s != [] {
      var n := |s| - 1;
      RebuildMembers(s[..n], g);
      PutMembers(Rebuild(s[..n]), s[n], g);
      assert s == s[..n] + [s[n]];
    }
  }

  lemma {:induction false} PutDistinct(acc: seq<Field>, f: Field)
    requires DistinctKeys(acc) && forall g :: g in acc ==> g.key != f.key
    ensures DistinctKeys(PutField(acc, f))
  {
    var n := |acc| - 1;
    if n >= 0 && EnumeratesBefore(f.key, acc[n].key) {
      PutDistinct(acc[..n], f);
      forall g | g in PutField(acc[..n], f) ensures g.key != acc[n].key { PutMembers(acc[..n], f, g); }
    }
  }

  lemma {:induction false} RebuildDistinct(s: seq<Field>)
    requires DistinctKeys(s)
    ensures DistinctKeys(Rebuild(s))
  {
    if s != [] {
      var n := |s| - 1;
      RebuildDistinct(s[..n]);
      forall g | g in Rebuild(s[..n]) ensures g.key != s[n].key { RebuildMembers(s[..n], g); }
      PutDistinct(Rebuild(s[..n]), s[n]);
    }
  }

  lemma AscendingIsDistinct(s: seq<Field>)
    requires Ascending(s)
    ensures DistinctKeys(s)
  {
    forall i, j | 0 <= i < j < |s| ensures s[i].key != s[j].key { KeyLessIsTotal(s[i].key, s[i].key); }
  }

  /** The fields of a canonical object: the fields of the source without "__proto__", with canonical values. */
  lemma StableObjectFields(fields: seq<Field>, g: Field)
    ensures g in Rebuild(SortByKey(StableFields(fields))) <==> g in StableFields(fields) && g.key != PROTO
    ensures DistinctKeys(fields) ==> DistinctKeys(Rebuild(SortByKey(StableFields(fields))))
  {
    var f := StableFields(fields);
    SortMembers(f, g);
    RebuildMembers(SortByKey(f), g);
    if DistinctKeys(fields) {
      SortAscending(f);
      AscendingIsDistinct(SortByKey(f));
      RebuildDistinct(SortByKey(f));
    }
  }

  // ----- the canonical value -----

  ghost predicate Agree(a: Json, b: Json) { StableValue(a) == StableValue(b) <==> Same(a, b, {PROTO}) }

  /** Equal canonical fields: every field of one object has its match in the other. */
  lemma EqualFieldsAreSame(a: seq<Field>, b: seq<Field>)
    requires DistinctKeys(a) && DistinctKeys(b)
    requires forall i, j :: 0 <= i < |a| && 0 <= j < |b| ==> Agree(a[i].value, b[j].value)
    requires StableValue(Obj(a)) == StableValue(Obj(b))
    ensures Same(Obj(a), Obj(b), {PROTO})
  {
    var f, g := StableFields(a), StableFields(b);
    forall x: Field | x.key != PROTO ensures x in f <==> x in g {
      StableObjectFields(a, x);
      StableObjectFields(b, x);
    }
    forall i | 0 <= i < |a| && a[i].key !in {PROTO}
      ensures exists j :: 0 <= j < |b| && b[j].key == a[i].key && Same(a[i].value, b[j].value, {PROTO})
    {
      assert f[i] in f && f[i] in g;
      var j :| 0 <= j < |g| && g[j] == f[i];
      assert Agree(a[i].value, b[j].value);
    }
    forall j | 0 <= j < |b| && b[j].key !in {PROTO} ensures HasKey(a, b[j].key) {
      assert g[j] in g && g[j] in f;
      var i :| 0 <= i < |f| && f[i] == g[j];
      assert a[i].key == b[j].key;
    }
  }

  /** The match of a field. */
  lemma SameFieldMatches(a: seq<Field>, b: seq<Field>, i: nat) returns (j: nat)
    requires Same(Obj(a), Obj(b), {PROTO}) && i < |a| && a[i].key != PROTO
    ensures j < |b| && b[j].key == a[i].key && Same(a[i].value, b[j].value, {PROTO})
  {
    var k :| 0 <= k < |b| && b[k].key == a[i].key && Same(a[i].value, b[k].value, {PROTO});
    j := k;
  }

  lemma SameFieldsAreEqual(a: seq<Field>, b: seq<Field>)
    requires DistinctKeys(a) && DistinctKeys(b)
    requires forall i, j :: 0 <= i < |a| && 0 <= j < |b| ==> Agree(a[i].value, b[j].value)
    requires Same(Obj(a), Obj(b), {PROTO})
    ensures StableValue(Obj(a)) == StableValue(Obj(b))
  {
    var f, g := StableFields(a), StableFields(b);
    forall x: Field | x.key != PROTO ensures x in f <==> x in g {
      if x in f {
        var i :| 0 <= i < |f| && f[i] == x;
        var j := SameFieldMatches(a, b, i);
        assert Agree(a[i].value, b[j].value) && g[j] == x;
      }
      if x in g {
        var j :| 0 <= j < |g| && g[j] == x;
        assert HasKey(a, b[j].key);
        var i :| 0 <= i < |a| && a[i].key == b[j].key;
        var k := SameFieldMatches(a, b, i);
        assert k == j && Agree(a[i].value, b[j].value) && f[i] == x;
      }
    }
    RebuildIsCanonical(f, g);
  }

  /** Canonical values are equal exactly when the values agree up to key order, "__proto__" aside. */
  lemma {:induction false} StableValueIsCanonical(a: Json, b: Json)
    requires Valid(a) && Valid(b)
    ensures StableValue(a) == StableValue(b) <==> Same(a, b, {PROTO})
    decreases a
  {
    if a.Arr? && b.Arr? && |a.items| == |b.items| {
      forall i | 0 <= i < |a.items| ensures Agree(a.items[i], b.items[i]) {
        StableValueIsCanonical(a.items[i], b.items[i]);
      }
      SameItems(a.items, b.items);
    } else if a.Obj? && b.Obj? {
      forall i, j | 0 <= i < |a.fields| && 0 <= j < |b.fields| ensures Agree(a.fields[i].value, b.fields[j].value) {
        StableValueIsCanonical(a.fields[i].value, b.fields[j].value);
      }
      if StableValue(a) == StableValue(b) { EqualFieldsAreSame(a.fields, b.fields); }
      if Same(a, b, {PROTO}) { SameFieldsAreEqual(a.fields, b.fields); }
    } else if a.Arr? && b.Arr? {
      assert |StableValue(a).items| != |StableValue(b).items|;
    }
  }

  lemma SameItems(a: seq<Json>, b: seq<Json>)
    requires |a| == |b| && forall i :: 0 <= i < |a| ==> Agree(a[i], b[i])
    ensures StableValue(Arr(a)) == StableValue(Arr(b)) <==> Same(Arr(a), Arr(b), {PROTO})
  {
    var s, t := StableValue(Arr(a)).items, StableValue(Arr(b)).items;
    forall i | 0 <= i < |a| ensures s[i] == t[i] <==> Same(a[i], b[i], {PROTO}) { assert Agree(a[i], b[i]); }
  }

  /**
   stableJson is a canonical form: two values have the same text exactly when they
   agree up to key order at every depth; keys named "__proto__" are not rendered.
   */
  lemma StableTextIsCanonical(a: Json, b: Json)
    requires Valid(a) && Valid(b)
    ensures StableText(a) == StableText(b) <==> Same(a, b, {PROTO})
  {
    StableValueIsCanonical(a, b);
    if StableText(a) == StableText(b) { StringifyIsInjective(StableValue(a), StableValue(b)); }
  }

  /** Ignoring "__proto__" makes no difference for values without it. */
  lemma {:induction false} SameWithoutProto(a: Json, b: Json)
    requires LacksProto(a) && LacksProto(b)
    ensures Same(a, b, {PROTO}) <==> Same(a, b, {})
    decreases a
  {
    if a.Arr? && b.Arr? && |a.items| == |b.items| {
      forall i | 0 <= i < |a.items| { SameWithoutProto(a.items[i], b.items[i]); }
    } else if a.Obj? && b.Obj? {
      forall i, j | 0 <= i < |a.fields| && 0 <= j < |b.fields|
        ensures Same(a.fields[i].value, b.fields[j].value, {PROTO}) <==> Same(a.fields[i].value, b.fields[j].value, {})
      {
        SameWithoutProto(a.fields[i].value, b.fields[j].value);
      }
    }
  }

  /** Hence, without such keys, the texts agree exactly when the values agree up to key order. */
  lemma StableTextIgnoresOnlyKeyOrder(a: Json, b: Json)
    requires Valid(a) && Valid(b) && LacksProto(a) && LacksProto(b)
    ensures StableText(a) == StableText(b) <==> Same(a, b, {})
  {
    StableTextIsCanonical(a, b);
    SameWithoutProto(a, b);
  }

  // ----- meaning and idempotence -----

  lemma {:induction false} StableValueIsValid(v: Json)
    requires Valid(v)
    ensures Valid(StableValue(v)) && LacksProto(StableValue(v))
  {
    if v.Arr? {
      forall i | 0 <= i < |v.items| { StableValueIsValid(v.items[i]); }
    } else if v.Obj? {
      var fields := StableValue(v).fields;
      StableObjectFields(v.fields, Field("", Null));
      forall k | 0 <= k < |fields|
        ensures fields[k].key != PROTO && Valid(fields[k].value) && LacksProto(fields[k].value)
      {
        StableObjectFields(v.fields, fields[k]);
        assert fields[k] in fields;
        var i :| 0 <= i < |v.fields| && StableFields(v.fields)[i] == fields[k];
        StableValueIsValid(v.fields[i].value);
      }
    }
  }

  /** stableJsonValue keeps the value up to key order, and drops the "__proto__" keys. */
  lemma {:induction false} StableValueIsSame(v: Json)
    requires Valid(v)
    ensures Same(StableValue(v), v, {PROTO})
  {
    if v.Arr? {
      forall i | 0 <= i < |v.items| { StableValueIsSame(v.items[i]); }
    } else if v.Obj? {
      var fields := StableValue(v).fields;
      forall k | 0 <= k < |fields|
        ensures exists i :: 0 <= i < |v.fields| && v.fields[i].key == fields[k].key
                  && Same(fields[k].value, v.fields[i].value, {PROTO})
      {
        StableObjectFields(v.fields, fields[k]);
        assert fields[k] in fields;
        var i :| 0 <= i < |v.fields| && StableFields(v.fields)[i] == fields[k];
        StableValueIsSame(v.fields[i].value);
      }
      forall i | 0 <= i < |v.fields| && v.fields[i].key !in {PROTO} ensures HasKey(fields, v.fields[i].key) {
        var f := StableFields(v.fields)[i];
        StableObjectFields(v.fields, f);
        assert f in fields;
        var k :| 0 <= k < |fields| && fields[k] == f;
      }
    }
  }

  /** stableJsonValue is idempotent. */
  lemma StableValueIsIdempotent(v: Json)
    requires Valid(v)
    ensures StableValue(StableValue(v)) == StableValue(v)
  {
    StableValueIsValid(v);
    StableValueIsSame(v);
    StableValueIsCanonical(StableValue(v), v);
  }

  /** A value with a "__proto__" key and one without can have the same text. */
  lemma ProtoKeysAreLost()
    ensures var v := Obj([Field(PROTO, Num(1))]);
            Valid(v) && StableText(v) == StableText(Obj([])) && !Same(v, Obj([]), {})
  {
    var v, e := Obj([Field(PROTO, Num(1))]), Obj([]);
    assert Same(v, e, {PROTO});
    StableTextIsCanonical(v, e);
    assert v.fields[0].key !in {};
  }
}
