/** The order in which stableJson lists the fields of an object. */
module StableJsonOrder {
  import opened Decimals
  import opened StableJson
  import opened StableJsonLaws

  // ----- keys.sort() compares UTF-16 code units -----

  /** The UTF-16 code units of a character: itself, or a surrogate pair. */
  function UnitsOf(c: char): (units: seq<nat>)
    ensures |units| == 1 || |units| == 2
  {
    var n := c as int;
    if n < 0x1_0000 then [n] else [0xD800 + (n - 0x1_0000) / 0x400, 0xDC00 + (n - 0x1_0000) % 0x400]
  }

  function Units(s: string): seq<nat> { if s == "" then [] else UnitsOf(s[0]) + Units(s[1..]) }

  /** `a` comes before `b` in a dictionary. */
  predicate Before(a: seq<nat>, b: seq<nat>) {
    if b == [] then false
    else if a == [] then true
    else if a[0] != b[0] then a[0] < b[0]
    else Before(a[1..], b[1..])
  }

  lemma {:induction false} BeforeSkips(common: seq<nat>, a: seq<nat>, b: seq<nat>)
    ensures Before(common + a, common + b) <==> Before(a, b)
  {
    if common == [] {
      assert common + a == a && common + b == b;
    } else {
      assert (common + a)[1..] == common[1..] + a && (common + b)[1..] == common[1..] + b;
      BeforeSkips(common[1..], a, b);
    }
  }

  /** Different characters are told apart by the first unit, or share it and are told apart by the second. */
  lemma UnitsTellApart(c: char, d: char)
    requires c != d
    ensures var u, v := UnitsOf(c), UnitsOf(d);
            || (u[0] != v[0] && (u[0] < v[0] <==> Rank(c) < Rank(d)))
            || (|u| == 2 && |v| == 2 && u[0] == v[0] && u[1] != v[1] && (u[1] < v[1] <==> Rank(c) < Rank(d)))
  {
  }

  lemma BeforeByFirst(c: char, d: char, a: seq<nat>, b: seq<nat>)
    requires c != d
    ensures Before(UnitsOf(c) + a, UnitsOf(d) + b) <==> Rank(c) < Rank(d)
  {
    UnitsTellApart(c, d);
    var u, v := UnitsOf(c), UnitsOf(d);
    var x, y := u + a, v + b;
    assert x[0] == u[0] && y[0] == v[0];
    if u[0] == v[0] { assert x[1..][0] == u[1] && y[1..][0] == v[1]; }
  }

  /** Keys are compared as their sequences of UTF-16 code units are in a dictionary. */
  lemma {:induction false} KeysCompareByUnits(a: string, b: string)
    ensures KeyLess(a, b) <==> Before(Units(a), Units(b))
  {
    if a != "" && b != "" {
      if a[0] == b[0] {
        BeforeSkips(UnitsOf(a[0]), Units(a[1..]), Units(b[1..]));
        KeysCompareByUnits(a[1..], b[1..]);
      } else {
        BeforeByFirst(a[0], b[0], Units(a[1..]), Units(b[1..]));
      }
    }
  }

  // ----- the fields of a canonical object -----

  /** Array indices come first, by value; the other keys follow, by code units. */
  predicate Precedes(a: string, b: string) {
    if IsIndex(b) then IsIndex(a) && Value(a) <= Value(b) else IsIndex(a) || Before(Units(a), Units(b))
  }

  ghost predicate Listed(fields: seq<Field>) {
    forall i, j :: 0 <= i < j < |fields| ==> Precedes(fields[i].key, fields[j].key)
  }

  lemma ListedAppend(fields: seq<Field>, f: Field)
    requires Listed(fields) && forall g :: g in fields ==> Precedes(g.key, f.key)
    ensures Listed(fields + [f])
  {
  }

  /** A key that comes after all others in code units is put in its place. */
  lemma {:induction false} PutListed(acc: seq<Field>, f: Field)
    requires Listed(acc) && forall g :: g in acc ==> Before(Units(g.key), Units(f.key))
    ensures Listed(PutField(acc, f))
  {
    var n := |acc| - 1;
    if n >= 0 && EnumeratesBefore(f.key, acc[n].key) {
      PutListed(acc[..n], f);
      forall g | g in PutField(acc[..n], f) ensures Precedes(g.key, acc[n].key) { PutMembers(acc[..n], f, g); }
      ListedAppend(PutField(acc[..n], f), acc[n]);
    } else {
      forall g | g in acc ensures Precedes(g.key, f.key) {
        var i :| 0 <= i < |acc| && acc[i] == g;
        assert i < n ==> Precedes(acc[i].key, acc[n].key);
      }
      ListedAppend(acc, f);
    }
  }

  lemma {:induction false} RebuildListed(s: seq<Field>)
    requires Ascending(s)
    ensures Listed(Rebuild(s))
  {
    if s != [] {
      var n := |s| - 1;
      AscendingInit(s);
      RebuildListed(s[..n]);
      forall g | g in Rebuild(s[..n]) ensures Before(Units(g.key), Units(s[n].key)) {
        RebuildMembers(s[..n], g);
        KeysCompareByUnits(g.key, s[n].key);
      }
      if s[n].key != PROTO { PutListed(Rebuild(s[..n]), s[n]); }
    }
  }

  /** The field is one of the given ones, with its canonical value. */
  ghost predicate IsFieldOf(fields: seq<Field>, g: Field) {
    exists i :: 0 <= i < |fields| && g == Field(fields[i].key, StableValue(fields[i].value))
  }

  /**
   The fields of a canonical object: array indices first, in ascending order, then
   the other keys in ascending order of their UTF-16 code units; "__proto__" is
   missing, and every other key of the object is there with its canonical value.
   */
  lemma FieldsAreListedInOrder(fields: seq<Field>)
    requires Valid(Obj(fields))
    ensures var stable := StableValue(Obj(fields)).fields;
            && Listed(stable)
            && forall g: Field :: g in stable <==> g.key != PROTO && IsFieldOf(fields, g)
  {
    var all := StableFields(fields);
    SortAscending(all);
    RebuildListed(SortByKey(all));
    forall g: Field ensures g in Rebuild(SortByKey(all)) <==> g.key != PROTO && IsFieldOf(fields, g) {
      StableObjectFields(fields, g);
      if g in all {
        var i :| 0 <= i < |all| && all[i] == g;
        assert g == Field(fields[i].key, StableValue(fields[i].value));
      }
      if IsFieldOf(fields, g) {
        var i :| 0 <= i < |fields| && g == Field(fields[i].key, StableValue(fields[i].value));
        assert all[i] == g;
      }
    }
  }
}
