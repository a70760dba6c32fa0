/**
 * The appliance catalogue of ApplianceManagerFrame.py: reading appliance records from the
 * parsed JSON file, the filter with its three indexes, and the shopping cart.
 *
 * A JSON value is one of the scalar kinds the records hold; a record is the dictionary of
 * one appliance. Prices are carried along as the JSON value they were read from.
 */
module Appliances {
  import opened Wrappers
  import opened Text

  /** A scalar value of the parsed JSON file. */
  datatype Json = JNull | JBool(b: bool) | JInt(i: int) | JString(s: string)

  /** The exceptions `from_dict` can raise. */
  datatype LoadError = ValueError | TypeError

  datatype Appliance = Appliance(
    code: string,
    brand: string,
    category: string,
    points: int,
    price: Json,
    option: Json,  // JNull when the record has no "option"
    img: Json)     // JNull when the record has no "img"

  // ---------------------------------------------------------------------------------------
  // Decimal integers, for `str()` and `int()`.

  predicate IsDigit(c: char) { '0' <= c <= '9' }

  predicate AllDigits(s: string)
  {
    forall i :: 0 <= i < |s| ==> IsDigit(s[i])
  }

  function DigitChar(d: nat): (c: char)
    requires d < 10
    ensures IsDigit(c)
  {
    ('0' as int + d) as char
  }

  /** The value of a string of decimal digits. */
  function DigitsValue(s: string): nat
    requires AllDigits(s)
    decreases |s|
  {
    if s == [] then 0 else DigitsValue(s[..|s| - 1]) * 10 + (s[|s| - 1] as int - '0' as int)
  }

  /** The decimal digits of `n`, without leading zeros. */
  function NatToDigits(n: nat): (s: string)
    ensures |s| > 0 && AllDigits(s)
    decreases n
  {
    if n < 10 then [DigitChar(n)] else NatToDigits(n / 10) + [DigitChar(n % 10)]
  }

  lemma {:induction false} DigitsRoundTrip(n: nat)
    ensures DigitsValue(NatToDigits(n)) == n
    decreases n
  {
    if n >= 10 {
      DigitsRoundTrip(n / 10);
      var s := NatToDigits(n);
      assert s[..|s| - 1] == NatToDigits(n / 10);
    }
  }

  /** `str(i)` for an integer. */
  function IntToString(i: int): string
  {
    if i < 0 then "-" + NatToDigits(-i) else NatToDigits(i)
  }

  /** `int(s)` for a string: optional surrounding whitespace, an optional sign, then digits. */
  function ParseInt(s: string): (r: Result<int, LoadError>)
    ensures r.Err? ==> r.error == ValueError
    ensures |s| > 0 && AllDigits(s) ==> r == Ok(DigitsValue(s))
  {
    var t := Strip(s);
    assert |s| > 0 && AllDigits(s) ==> t == s by {
      if |s| > 0 && AllDigits(s) {
        StripUnspaced(s);
      }
    }
    if |t| > 0 && (t[0] == '-' || t[0] == '+') then
      var d := t[1..];
      var v: int := if |d| > 0 && AllDigits(d) then DigitsValue(d) else 0;
      if |d| > 0 && AllDigits(d) then Ok(if t[0] == '-' then -v else v)
      else Err(ValueError)
    else if |t| > 0 && AllDigits(t) then Ok(DigitsValue(t))
    else Err(ValueError)
  }

  lemma StripUnspaced(s: string)
    requires |s| > 0 && !IsSpace(s[0]) && !IsSpace(s[|s| - 1])
    ensures Strip(s) == s
  {
    assert SpaceRunEnd(s, 0) == 0;
    assert SpaceRunStart(s, 0, |s|) == |s|;
    assert s[0..|s|] == s;
  }

  /** `int(str(i)) == i`. */
  lemma ParseIntString(i: int)
    ensures ParseInt(IntToString(i)) == Ok(i)
  {
    var s := IntToString(i);
    if i < 0 {
      DigitsRoundTrip(-i);
      assert s[1..] == NatToDigits(-i);
    } else {
      DigitsRoundTrip(i);
    }
    StripUnspaced(s);
  }

  /** `str(v)`. */
  function Str(v: Json): (r: string)
    ensures v.JString? ==> r == v.s
    ensures v.JInt? ==> ParseInt(r) == Ok(v.i)
  {
    match v
    case JNull => "None"
    case JBool(b) => if b then "True" else "False"
    case JInt(i) => ParseIntString(i); IntToString(i)
    case JString(s) => s
  }

  /** `int(v)`: booleans are 0 and 1, `int(None)` is a TypeError. */
  function ToInt(v: Json): (r: Result<int, LoadError>)
    ensures r.Err? ==> (r.error == TypeError <==> v.JNull?)
    ensures v.JInt? ==> r == Ok(v.i)
    ensures v.JString? && |v.s| > 0 && AllDigits(v.s) ==> r == Ok(DigitsValue(v.s))
  {
    match v
    case JNull => Err(TypeError)
    case JBool(b) => Ok(if b then 1 else 0)
    case JInt(i) => Ok(i)
    case JString(s) => ParseInt(s)
  }

  // ---------------------------------------------------------------------------------------
  // Appliance.from_dict and the loading loop.

  const RequiredFields: set<string> := {"code", "brand", "category", "punten", "price_ex"}

  /** `data.get(key)`. */
  function Get(data: map<string, Json>, key: string): Json
  {
    if key in data then data[key] else JNull
  }

  /** `Appliance.from_dict`. */
  function FromDict(data: map<string, Json>): (r: Result<Appliance, LoadError>)
    ensures !(RequiredFields <= data.Keys) ==> r == Err(ValueError)
    ensures RequiredFields <= data.Keys ==> (r.Ok? <==> ToInt(data["punten"]).Ok?)
    ensures r.Err? ==> !(RequiredFields <= data.Keys) || r.error == ToInt(data["punten"]).error
    ensures r.Ok? ==>
      && r.value.points == ToInt(data["punten"]).value
      && r.value.code == Str(data["code"])
      && r.value.brand == Str(data["brand"])
      && r.value.category == Str(data["category"])
      && r.value.price == data["price_ex"]
      && r.value.option == Get(data, "option")
      && r.value.img == Get(data, "img")
  {
    if !(RequiredFields <= data.Keys) then Err(ValueError)
    else
      match ToInt(data["punten"])
      case Err(e) => Err(e)
      case Ok(points) =>
        Ok(Appliance(Str(data["code"]), Str(data["brand"]), Str(data["category"]), points,
                     data["price_ex"], Get(data, "option"), Get(data, "img")))
  }

  /** The record an appliance is saved as. */
  function ToDict(a: Appliance): map<string, Json>
  {
    map["code" := JString(a.code), "brand" := JString(a.brand), "category" := JString(a.category),
        "punten" := JInt(a.points), "price_ex" := a.price, "option" := a.option, "img" := a.img]
  }

  /** Reading back the record of an appliance gives the appliance. */
  lemma FromDictToDict(a: Appliance)
    ensures FromDict(ToDict(a)) == Ok(a)
  {
    var d := ToDict(a);
    assert RequiredFields <= d.Keys;
  }

  /** A record without one of the five required fields is rejected, whatever else it holds. */
  lemma MissingFieldRejected(data: map<string, Json>, field: string)
    requires field in RequiredFields && field !in data
    ensures FromDict(data) == Err(ValueError)
  {
  }

  /** The record of the unit test. */
  lemma FromDictExample()
    ensures var data := map["code" := JString("TEST001"), "brand" := JString("TestBrand"),
                            "category" := JString("oven"), "punten" := JInt(50),
                            "price_ex" := JString("499.99"), "option" := JString("met pyrolyse"),
                            "img" := JString("test.jpg")];
      && FromDict(data).Ok?
      && FromDict(data).value.code == "TEST001"
      && FromDict(data).value.points == 50
  {
    var data := map["code" := JString("TEST001"), "brand" := JString("TestBrand"),
                    "category" := JString("oven"), "punten" := JInt(50),
                    "price_ex" := JString("499.99"), "option" := JString("met pyrolyse"),
                    "img" := JString("test.jpg")];
    assert RequiredFields <= data.Keys;
  }

  /** The appliances of the records `from_dict` accepts, in record order. */
  function ValidAppliances(items: seq<map<string, Json>>): seq<Appliance>
    decreases |items|
  {
    if items == [] then []
    else
      var r := FromDict(items[|items| - 1]);
      ValidAppliances(items[..|items| - 1]) + (if r.Ok? then [r.value] else [])
  }

  /** An appliance is loaded exactly when some record yields it. */
  lemma {:induction false} ValidAppliancesMembers(items: seq<map<string, Json>>)
    ensures forall a :: a in ValidAppliances(items) <==> exists i :: 0 <= i < |items| && FromDict(items[i]) == Ok(a)
    decreases |items|
  {
    if items != [] {
      var init := items[..|items| - 1];
      ValidAppliancesMembers(init);
      forall a | (exists i :: 0 <= i < |items| && FromDict(items[i]) == Ok(a))
        ensures a in ValidAppliances(items)
      {
        var i :| 0 <= i < |items| && FromDict(items[i]) == Ok(a);
        if i < |items| - 1 {
          assert init[i] == items[i];
        }
      }
      forall a | a in ValidAppliances(items)
        ensures exists i :: 0 <= i < |items| && FromDict(items[i]) == Ok(a)
      {
        if a in ValidAppliances(init) {
          var i :| 0 <= i < |init| && FromDict(init[i]) == Ok(a);
          assert items[i] == init[i];
        } else {
          assert FromDict(items[|items| - 1]) == Ok(a);
        }
      }
    }
  }

  /** Some record makes `from_dict` raise a TypeError, which the loading loop does not catch. */
  predicate HasTypeError(items: seq<map<string, Json>>)
  {
    exists i :: 0 <= i < |items| && FromDict(items[i]) == Err(TypeError)
  }

  /** The loop of `load_appliances`: a record rejected with a ValueError is skipped, a
      TypeError escapes the loop and the load. */
  method LoadAppliances(items: seq<map<string, Json>>) returns (r: Result<seq<Appliance>, LoadError>)
    ensures r.Err? <==> HasTypeError(items)
    ensures r.Err? ==> r.error == TypeError
    ensures r.Ok? ==> r.value == ValidAppliances(items)
  {
    var appliances := [];
    for i := 0 to |items|
      invariant !HasTypeError(items[..i])
      invariant appliances == ValidAppliances(items[..i])
    {
      assert items[..i + 1][..i] == items[..i];
      match FromDict(items[i])
      case Ok(a) =>
        appliances := appliances + [a];
      case Err(e) =>
        if e == TypeError {
          assert FromDict(items[..i + 1][i]) == Err(TypeError);
          return Err(TypeError);
        }
      assert !HasTypeError(items[..i + 1]) by {
        var prefix := items[..i + 1];
        forall k | 0 <= k < |prefix|
          ensures FromDict(prefix[k]) != Err(TypeError)
        {
          if k < i {
            assert prefix[k] == items[..i][k];
          }
        }
      }
    }
    assert items[..|items|] == items;
    r := Ok(appliances);
  }

  // ---------------------------------------------------------------------------------------
  // The indexes of ApplianceFilter.

  function CategoryOf(a: Appliance): string { a.category }

  function BrandOf(a: Appliance): string { a.brand }

  /** `points // 10 * 10`: the multiple of ten at or below the points. */
  function PointsBucket(points: int): (b: int)
    ensures b % 10 == 0 && b <= points < b + 10
  {
    points / 10 * 10
  }

  function BucketOf(a: Appliance): int { PointsBucket(a.points) }

  /** A dictionary of lists filled by appending each appliance under its key, in order. */
  function Index<K(==)>(apps: seq<Appliance>, key: Appliance -> K): map<K, seq<Appliance>>
    decreases |apps|
  {
    if apps == [] then map[]
    else
      var m := Index(apps[..|apps| - 1], key);
      var a := apps[|apps| - 1];
      m[key(a) := (if key(a) in m then m[key(a)] else []) + [a]]
  }

  /** `m.setdefault(k, []).append(a)`, written out as the source does: an empty list for a new
      key, then the append. */
  method AppendToBucket<K(==)>(m: map<K, seq<Appliance>>, k: K, a: Appliance) returns (r: map<K, seq<Appliance>>)
    ensures r == m[k := (if k in m then m[k] else []) + [a]]
  {
    r := m;
    if k !in r {
      r := r[k := []];
    }
    r := r[k := r[k] + [a]];
  }

  lemma IndexSnoc<K>(apps: seq<Appliance>, a: Appliance, key: Appliance -> K)
    ensures var m := Index(apps, key);
      Index(apps + [a], key) == m[key(a) := (if key(a) in m then m[key(a)] else []) + [a]]
  {
    assert (apps + [a])[..|apps|] == apps;
  }

  /** The appliances with key `k`, in order. */
  function WithKey<K(==)>(apps: seq<Appliance>, key: Appliance -> K, k: K): (r: seq<Appliance>)
    ensures |r| <= |apps|
    decreases |apps|
  {
    if apps == [] then []
    else
      var a := apps[|apps| - 1];
      WithKey(apps[..|apps| - 1], key, k) + (if key(a) == k then [a] else [])
  }

  /** The category index lists what the category comprehension of `filter` keeps. */
  lemma {:induction false} WithCategoryIsKeepWhere(apps: seq<Appliance>, c: string)
    ensures WithKey(apps, CategoryOf, c) == KeepWhere(apps, CategoryIs(c))
    decreases |apps|
  {
    if apps != [] {
      WithCategoryIsKeepWhere(apps[..|apps| - 1], c);
    }
  }

  lemma {:induction false} WithKeyMembers<K>(apps: seq<Appliance>, key: Appliance -> K, k: K)
    ensures forall a :: a in WithKey(apps, key, k) <==> a in apps && key(a) == k
    decreases |apps|
  {
    if apps != [] {
      var init := apps[..|apps| - 1];
      WithKeyMembers(init, key, k);
      assert apps == init + [apps[|apps| - 1]];
    }
  }

  /** The index has a bucket for exactly the keys that occur, and each bucket holds the
      appliances with that key, in order; so each appliance sits in exactly one bucket. */
  lemma {:induction false} IndexBuckets<K>(apps: seq<Appliance>, key: Appliance -> K)
    ensures forall k :: k in Index(apps, key) ==> exists i :: 0 <= i < |apps| && key(apps[i]) == k
    ensures forall i :: 0 <= i < |apps| ==> key(apps[i]) in Index(apps, key)
    ensures forall k :: k in Index(apps, key) ==> Index(apps, key)[k] == WithKey(apps, key, k)
    ensures forall k :: k !in Index(apps, key) ==> WithKey(apps, key, k) == []
    decreases |apps|
  {
    if apps != [] {
      var init := apps[..|apps| - 1];
      var a := apps[|apps| - 1];
      IndexBuckets(init, key);
      var m := Index(init, key);
      assert Index(apps, key) == m[key(a) := (if key(a) in m then m[key(a)] else []) + [a]];
      forall i | 0 <= i < |apps|
        ensures key(apps[i]) in Index(apps, key)
      {
        if i < |init| {
          assert init[i] == apps[i];
          assert key(init[i]) in m;
        }
      }
      forall k | k in Index(apps, key)
        ensures exists i :: 0 <= i < |apps| && key(apps[i]) == k
      {
        if k != key(a) {
          assert k in m;
          var i :| 0 <= i < |init| && key(init[i]) == k;
          assert apps[i] == init[i];
        } else {
          assert key(apps[|apps| - 1]) == k;
        }
      }
      forall k | k in Index(apps, key)
        ensures Index(apps, key)[k] == WithKey(apps, key, k)
      {
        assert WithKey(apps, key, k) == WithKey(init, key, k) + (if key(a) == k then [a] else []);
        if k == key(a) {
          if k in m {
            assert m[k] == WithKey(init, key, k);
          } else {
            assert WithKey(init, key, k) == [];
          }
        } else {
          assert k in m;
        }
      }
      forall k | k !in Index(apps, key)
        ensures WithKey(apps, key, k) == []
      {
        assert k != key(a) && k !in m;
        assert WithKey(apps, key, k) == WithKey(init, key, k);
      }
    }
  }

  // ---------------------------------------------------------------------------------------
  // ApplianceFilter.filter as the chain of comprehensions, and as one selection.

  /** `x or "-"`: Python's falsy values give the dash. */
  function OrDash(v: Json): Json
  {
    match v
    case JNull => JString("-")
    case JBool(b) => if b then v else JString("-")
    case JInt(i) => if i != 0 then v else JString("-")
    case JString(s) => if s != "" then v else JString("-")
  }

  /** One comprehension of `filter`. */
  datatype Test = CategoryIs(category: string) | BrandIs(brand: string) | OptionIs(option: string)
                | AtMost(maxPoints: int) | Mentions(term: string)

  predicate Passes(t: Test, a: Appliance)
  {
    match t
    case CategoryIs(c) => a.category == c
    case BrandIs(b) => a.brand == b
    case OptionIs(o) => OrDash(a.option) == JString(o)
    case AtMost(m) => a.points <= m
    case Mentions(term) => Contains(Lower(a.code), Lower(term)) || Contains(Lower(a.brand), Lower(term))
  }

  /** The keyword arguments of `filter`; `None` where the caller passes none. */
  datatype Criteria = Criteria(
    category: Option<string>,
    brand: Option<string>,
    option: Option<string>,
    maxPoints: Option<int>,
    searchTerm: Option<string>)

  /** A text criterion that is truthy, i.e. given and non-empty. */
  predicate Given(c: Option<string>) { c.Some? && c.value != "" }

  /** A choice criterion that is truthy and not the dash of "any". */
  predicate Chosen(c: Option<string>) { Given(c) && c.value != "-" }

  /** The comprehensions `filter` applies, in the order it applies them. */
  function Tests(crit: Criteria): seq<Test>
  {
    (if Chosen(crit.category) then [CategoryIs(crit.category.value)] else [])
    + (if Chosen(crit.brand) then [BrandIs(crit.brand.value)] else [])
    + (if Chosen(crit.option) then [OptionIs(crit.option.value)] else [])
    + (if crit.maxPoints.Some? then [AtMost(crit.maxPoints.value)] else [])
    + (if Given(crit.searchTerm) then [Mentions(crit.searchTerm.value)] else [])
  }

  /** `[a for a in xs if <t>]`. */
  function KeepWhere(xs: seq<Appliance>, t: Test): seq<Appliance>
    decreases |xs|
  {
    if xs == [] then []
    else
      var a := xs[|xs| - 1];
      KeepWhere(xs[..|xs| - 1], t) + (if Passes(t, a) then [a] else [])
  }

  /** The comprehensions applied one after the other. */
  function Chain(xs: seq<Appliance>, ts: seq<Test>): seq<Appliance>
    decreases |ts|
  {
    if ts == [] then xs else Chain(KeepWhere(xs, ts[0]), ts[1..])
  }

  /** `ApplianceFilter.filter` on the list of appliances. */
  function Filtered(apps: seq<Appliance>, crit: Criteria): seq<Appliance>
  {
    Chain(apps, Tests(crit))
  }

  /** The appliance meets every criterion that is active. */
  predicate Selected(crit: Criteria, a: Appliance)
  {
    && (Chosen(crit.category) ==> a.category == crit.category.value)
    && (Chosen(crit.brand) ==> a.brand == crit.brand.value)
    && (Chosen(crit.option) ==> OrDash(a.option) == JString(crit.option.value))
    && (crit.maxPoints.Some? ==> a.points <= crit.maxPoints.value)
    && (Given(crit.searchTerm) ==>
          Contains(Lower(a.code), Lower(crit.searchTerm.value)) || Contains(Lower(a.brand), Lower(crit.searchTerm.value)))
  }

  /** One pass keeping the selected appliances, in order. */
  function SelectedOnly(apps: seq<Appliance>, crit: Criteria): (r: seq<Appliance>)
    ensures |r| <= |apps|
    decreases |apps|
  {
    if apps == [] then []
    else
      var a := apps[|apps| - 1];
      SelectedOnly(apps[..|apps| - 1], crit) + (if Selected(crit, a) then [a] else [])
  }

  predicate PassesAll(ts: seq<Test>, a: Appliance)
  {
    forall j :: 0 <= j < |ts| ==> Passes(ts[j], a)
  }

  /** One pass keeping the appliances that pass every test, in order. */
  function KeepAll(xs: seq<Appliance>, ts: seq<Test>): seq<Appliance>
    decreases |xs|
  {
    if xs == [] then []
    else
      var a := xs[|xs| - 1];
      KeepAll(xs[..|xs| - 1], ts) + (if PassesAll(ts, a) then [a] else [])
  }

  lemma {:induction false} KeepAllKeepWhere(xs: seq<Appliance>, t: Test, ts: seq<Test>)
    ensures KeepAll(KeepWhere(xs, t), ts) == KeepAll(xs, [t] + ts)
    decreases |xs|
  {
    if xs != [] {
      var init := xs[..|xs| - 1];
      var a := xs[|xs| - 1];
      KeepAllKeepWhere(init, t, ts);
      assert PassesAll([t] + ts, a) <==> Passes(t, a) && PassesAll(ts, a) by {
        if Passes(t, a) && PassesAll(ts, a) {
          forall j | 0 <= j < |[t] + ts|
            ensures Passes(([t] + ts)[j], a)
          {
            if j > 0 {
              assert ([t] + ts)[j] == ts[j - 1];
            }
          }
        }
        if PassesAll([t] + ts, a) {
          assert ([t] + ts)[0] == t;
          forall j | 0 <= j < |ts|
            ensures Passes(ts[j], a)
          {
            assert ([t] + ts)[j + 1] == ts[j];
          }
        }
      }
      var kept := KeepWhere(init, t);
      assert KeepAll(xs, [t] + ts) == KeepAll(init, [t] + ts) + (if PassesAll([t] + ts, a) then [a] else []);
      if Passes(t, a) {
        assert KeepWhere(xs, t) == kept + [a];
        assert (kept + [a])[..|kept|] == kept;
        assert KeepAll(kept + [a], ts) == KeepAll(kept, ts) + (if PassesAll(ts, a) then [a] else []);
      } else {
        assert KeepWhere(xs, t) == kept;
      }
    }
  }

  /** Filtering step by step equals filtering by all tests at once. */
  lemma {:induction false} ChainOnePass(xs: seq<Appliance>, ts: seq<Test>)
    ensures Chain(xs, ts) == KeepAll(xs, ts)
    decreases |ts|
  {
    if ts == [] {
      KeepAllNone(xs);
    } else {
      ChainOnePass(KeepWhere(xs, ts[0]), ts[1..]);
      KeepAllKeepWhere(xs, ts[0], ts[1..]);
      assert [ts[0]] + ts[1..] == ts;
    }
  }

  lemma {:induction false} KeepAllNone(xs: seq<Appliance>)
    ensures KeepAll(xs, []) == xs
    decreases |xs|
  {
    if xs != [] {
      KeepAllNone(xs[..|xs| - 1]);
    }
  }

  lemma PassesAllAppend(ts: seq<Test>, us: seq<Test>, a: Appliance)
    ensures PassesAll(ts + us, a) <==> PassesAll(ts, a) && PassesAll(us, a)
  {
    if PassesAll(ts, a) && PassesAll(us, a) {
      forall j | 0 <= j < |ts + us|
        ensures Passes((ts + us)[j], a)
      {
        if j >= |ts| {
          assert (ts + us)[j] == us[j - |ts|];
        }
      }
    }
    if PassesAll(ts + us, a) {
      forall j | 0 <= j < |ts|
        ensures Passes(ts[j], a)
      {
        assert (ts + us)[j] == ts[j];
      }
      forall j | 0 <= j < |us|
        ensures Passes(us[j], a)
      {
        assert (ts + us)[|ts| + j] == us[j];
      }
    }
  }

  lemma PassesAllSingle(t: Test, a: Appliance)
    ensures PassesAll([t], a) <==> Passes(t, a)
  {
    assert [t][0] == t;
  }

  lemma TestsMeanSelected(crit: Criteria, a: Appliance)
    ensures PassesAll(Tests(crit), a) <==> Selected(crit, a)
  {
    var t1 := if Chosen(crit.category) then [CategoryIs(crit.category.value)] else [];
    var t2 := if Chosen(crit.brand) then [BrandIs(crit.brand.value)] else [];
    var t3 := if Chosen(crit.option) then [OptionIs(crit.option.value)] else [];
    var t4 := if crit.maxPoints.Some? then [AtMost(crit.maxPoints.value)] else [];
    var t5 := if Given(crit.searchTerm) then [Mentions(crit.searchTerm.value)] else [];
    assert Tests(crit) == t1 + t2 + t3 + t4 + t5;
    PassesAllAppend(t1 + t2 + t3 + t4, t5, a);
    PassesAllAppend(t1 + t2 + t3, t4, a);
    PassesAllAppend(t1 + t2, t3, a);
    PassesAllAppend(t1, t2, a);
    if Chosen(crit.category) { PassesAllSingle(CategoryIs(crit.category.value), a); }
    if Chosen(crit.brand) { PassesAllSingle(BrandIs(crit.brand.value), a); }
    if Chosen(crit.option) { PassesAllSingle(OptionIs(crit.option.value), a); }
    if crit.maxPoints.Some? { PassesAllSingle(AtMost(crit.maxPoints.value), a); }
    if Given(crit.searchTerm) { PassesAllSingle(Mentions(crit.searchTerm.value), a); }
  }

  lemma {:induction false} KeepAllSelected(apps: seq<Appliance>, crit: Criteria)
    ensures KeepAll(apps, Tests(crit)) == SelectedOnly(apps, crit)
    decreases |apps|
  {
    if apps != [] {
      KeepAllSelected(apps[..|apps| - 1], crit);
      TestsMeanSelected(crit, apps[|apps| - 1]);
    }
  }

  /** `filter` keeps, in order, exactly the appliances that meet every active criterion. */
  lemma FilteredIsSelection(apps: seq<Appliance>, crit: Criteria)
    ensures Filtered(apps, crit) == SelectedOnly(apps, crit)
  {
    ChainOnePass(apps, Tests(crit));
    KeepAllSelected(apps, crit);
  }

  lemma {:induction false} SelectedOnlyMembers(apps: seq<Appliance>, crit: Criteria)
    ensures forall a :: a in SelectedOnly(apps, crit) <==> a in apps && Selected(crit, a)
    decreases |apps|
  {
    if apps != [] {
      var init := apps[..|apps| - 1];
      SelectedOnlyMembers(init, crit);
      assert apps == init + [apps[|apps| - 1]];
    }
  }

  /** With no criteria at all, nothing is filtered out. */
  lemma {:induction false} NoCriteriaKeepsAll(apps: seq<Appliance>)
    ensures Filtered(apps, Criteria(None, None, None, None, None)) == apps
    decreases |apps|
  {
    FilteredIsSelection(apps, Criteria(None, None, None, None, None));
    SelectedAll(apps, Criteria(None, None, None, None, None));
  }

  lemma {:induction false} SelectedAll(apps: seq<Appliance>, crit: Criteria)
    requires crit == Criteria(None, None, None, None, None)
    ensures SelectedOnly(apps, crit) == apps
    decreases |apps|
  {
    if apps != [] {
      SelectedAll(apps[..|apps| - 1], crit);
    }
  }

  /** The appliances of the unit test of `filter`. */
  function TestAppliances(): seq<Appliance>
  {
    [Appliance("OVEN001", "Siemens", "oven", 60, JNull, JNull, JNull),
     Appliance("KOOK001", "Bosch", "kookplaat", 40, JNull, JNull, JNull),
     Appliance("VAAS001", "Miele", "vaatwasser", 80, JNull, JNull, JNull)]
  }

  lemma SelectedOnlyOfThree(apps: seq<Appliance>, crit: Criteria)
    requires |apps| == 3
    ensures SelectedOnly(apps, crit)
         == (if Selected(crit, apps[0]) then [apps[0]] else [])
          + (if Selected(crit, apps[1]) then [apps[1]] else [])
          + (if Selected(crit, apps[2]) then [apps[2]] else [])
  {
    assert SelectedOnly(apps[..1], crit) == (if Selected(crit, apps[0]) then [apps[0]] else []) by {
      assert apps[..1][..0] == [];
    }
    assert SelectedOnly(apps[..2], crit) == SelectedOnly(apps[..1], crit) + (if Selected(crit, apps[1]) then [apps[1]] else []) by {
      assert apps[..2][..1] == apps[..1];
    }
    assert SelectedOnly(apps, crit) == SelectedOnly(apps[..2], crit) + (if Selected(crit, apps[2]) then [apps[2]] else []);
  }

  /** `max_points` is inclusive, and only the 40-point hob is at most 50 points. */
  lemma FilterMaxPointsExample()
    ensures Filtered(TestAppliances(), Criteria(None, None, None, Some(50), None)) == [TestAppliances()[1]]
  {
    var crit := Criteria(None, None, None, Some(50), None);
    FilteredIsSelection(TestAppliances(), crit);
    SelectedOnlyOfThree(TestAppliances(), crit);
  }

  /** The category filter finds the oven alone. */
  lemma FilterCategoryExample()
    ensures Filtered(TestAppliances(), Criteria(Some("oven"), None, None, None, None)) == [TestAppliances()[0]]
  {
    var crit := Criteria(Some("oven"), None, None, None, None);
    FilteredIsSelection(TestAppliances(), crit);
    SelectedOnlyOfThree(TestAppliances(), crit);
  }

  /** The brand filter finds the Siemens oven alone. */
  lemma FilterBrandExample()
    ensures Filtered(TestAppliances(), Criteria(None, Some("Siemens"), None, None, None)) == [TestAppliances()[0]]
  {
    var crit := Criteria(None, Some("Siemens"), None, None, None);
    FilteredIsSelection(TestAppliances(), crit);
    SelectedOnlyOfThree(TestAppliances(), crit);
  }

  // ---------------------------------------------------------------------------------------
  // get_brands_for_category: `sorted(set(...)) or ["-"]`.

  /** Python's `<` on strings: code point by code point, a proper prefix first. */
  predicate StrLess(a: string, b: string)
    decreases |a|
  {
    if |a| == 0 then |b| > 0
    else if |b| == 0 then false
    else if a[0] != b[0] then a[0] < b[0]
    else StrLess(a[1..], b[1..])
  }

  lemma {:induction false} StrLessIrreflexive(a: string)
    ensures !StrLess(a, a)
    decreases |a|
  {
    if |a| > 0 {
      StrLessIrreflexive(a[1..]);
    }
  }

  lemma {:induction false} StrLessTransitive(a: string, b: string, c: string)
    requires StrLess(a, b) && StrLess(b, c)
    ensures StrLess(a, c)
    decreases |a|
  {
    if |a| > 0 && a[0] == b[0] && b[0] == c[0] {
      StrLessTransitive(a[1..], b[1..], c[1..]);
    }
  }

  lemma {:induction false} StrLessTotal(a: string, b: string)
    requires a != b
    ensures StrLess(a, b) || StrLess(b, a)
    decreases |a|
  {
    if |a| > 0 && |b| > 0 && a[0] == b[0] {
      assert a == [a[0]] + a[1..] && b == [b[0]] + b[1..];
      StrLessTotal(a[1..], b[1..]);
    }
  }

  predicate StrictlySorted(s: seq<string>)
  {
    forall i, j :: 0 <= i < j < |s| ==> StrLess(s[i], s[j])
  }

  /** `x` put in its place in a sorted list that may already hold it. */
  function Insert(sorted: seq<string>, x: string): (r: seq<string>)
    requires StrictlySorted(sorted)
    ensures StrictlySorted(r)
    ensures forall y :: y in r <==> y in sorted || y == x
    decreases |sorted|
  {
    if sorted == [] then [x]
    else if x == sorted[0] then sorted
    else if StrLess(x, sorted[0]) then
      assert forall j :: 0 <= j < |sorted| ==> StrLess(x, sorted[j]) by {
        forall j | 0 < j < |sorted|
          ensures StrLess(x, sorted[j])
        {
          StrLessTransitive(x, sorted[0], sorted[j]);
        }
      }
      [x] + sorted
    else
      StrLessTotal(x, sorted[0]);
      var rest := Insert(sorted[1..], x);
      assert forall y :: y in rest ==> StrLess(sorted[0], y);
      [sorted[0]] + rest
  }

  /** `sorted(set(xs))`. */
  function SortedSet(xs: seq<string>): (r: seq<string>)
    ensures StrictlySorted(r)
    ensures forall y :: y in r <==> y in xs
    decreases |xs|
  {
    if xs == [] then []
    else
      var n := |xs| - 1;
      var r := Insert(SortedSet(xs[..n]), xs[n]);
      assert xs == xs[..n] + [xs[n]];
      r
  }

  function Brands(apps: seq<Appliance>): (r: seq<string>)
    ensures |r| == |apps|
    ensures forall i :: 0 <= i < |apps| ==> r[i] == apps[i].brand
  {
    seq(|apps|, i requires 0 <= i < |apps| => apps[i].brand)
  }

  /** The appliance is in the category and, when a maximum is given, within it. */
  predicate Offered(a: Appliance, category: string, maxPoints: Option<int>)
  {
    a.category == category && (maxPoints.None? || a.points <= maxPoints.value)
  }

  /** The body of `get_brands_for_category` from the category's bucket on. */
  function BrandsIn(bucket: seq<Appliance>, maxPoints: Option<int>): seq<string>
  {
    var brands := SortedSet(Brands(WithinMax(bucket, maxPoints)));
    if brands == [] then ["-"] else brands
  }

  /** The appliances of `bucket` within `maxPoints`, when one is given. */
  function WithinMax(bucket: seq<Appliance>, maxPoints: Option<int>): seq<Appliance>
  {
    if maxPoints.Some? then KeepWhere(bucket, AtMost(maxPoints.value)) else bucket
  }

  lemma {:induction false} KeepWhereMembers(xs: seq<Appliance>, t: Test)
    ensures forall a :: a in KeepWhere(xs, t) <==> a in xs && Passes(t, a)
    decreases |xs|
  {
    if xs != [] {
      KeepWhereMembers(xs[..|xs| - 1], t);
      assert xs == xs[..|xs| - 1] + [xs[|xs| - 1]];
    }
  }

  lemma NoMembersEmpty(s: seq<string>)
    ensures (forall y :: y !in s) ==> s == []
  {
    if s != [] {
      assert s[0] in s;
    }
  }

  lemma WithinMaxOffered(apps: seq<Appliance>, category: string, maxPoints: Option<int>)
    ensures forall a :: a in WithinMax(WithKey(apps, CategoryOf, category), maxPoints) <==> a in apps && Offered(a, category, maxPoints)
  {
    var bucket := WithKey(apps, CategoryOf, category);
    WithKeyMembers(apps, CategoryOf, category);
    if maxPoints.Some? {
      KeepWhereMembers(bucket, AtMost(maxPoints.value));
    }
  }

  lemma BrandsOfOffered(apps: seq<Appliance>, category: string, maxPoints: Option<int>)
    ensures forall b :: b in Brands(WithinMax(WithKey(apps, CategoryOf, category), maxPoints)) <==>
      exists i :: 0 <= i < |apps| && Offered(apps[i], category, maxPoints) && apps[i].brand == b
  {
    var within := WithinMax(WithKey(apps, CategoryOf, category), maxPoints);
    WithinMaxOffered(apps, category, maxPoints);
    var bs := Brands(within);
    forall b
      ensures b in bs <==> exists i :: 0 <= i < |apps| && Offered(apps[i], category, maxPoints) && apps[i].brand == b
    {
      if b in bs {
        var k :| 0 <= k < |within| && bs[k] == b;
        assert within[k] in within;
        var i :| 0 <= i < |apps| && apps[i] == within[k];
      }
      if exists i :: 0 <= i < |apps| && Offered(apps[i], category, maxPoints) && apps[i].brand == b {
        var i :| 0 <= i < |apps| && Offered(apps[i], category, maxPoints) && apps[i].brand == b;
        assert apps[i] in within;
        var k :| 0 <= k < |within| && within[k] == apps[i];
        assert bs[k] == b;
      }
    }
  }

  /** The brands of the bucket are the brands of the offered appliances. */
  lemma BrandsInSpec(apps: seq<Appliance>, category: string, maxPoints: Option<int>)
    ensures var r := BrandsIn(WithKey(apps, CategoryOf, category), maxPoints);
      && ((forall i :: 0 <= i < |apps| ==> !Offered(apps[i], category, maxPoints)) ==> r == ["-"])
      && ((exists i :: 0 <= i < |apps| && Offered(apps[i], category, maxPoints)) ==>
            StrictlySorted(r)
            && forall b :: b in r <==> exists i :: 0 <= i < |apps| && Offered(apps[i], category, maxPoints) && apps[i].brand == b)
  {
    var bs := Brands(WithinMax(WithKey(apps, CategoryOf, category), maxPoints));
    BrandsOfOffered(apps, category, maxPoints);
    if exists i :: 0 <= i < |apps| && Offered(apps[i], category, maxPoints) {
      var i :| 0 <= i < |apps| && Offered(apps[i], category, maxPoints);
      assert apps[i].brand in bs;
      assert apps[i].brand in SortedSet(bs);
    } else {
      NoMembersEmpty(SortedSet(bs));
    }
  }

  /** An index of the catalogue by category, brand and points bucket, kept in step with the list. */
  class ApplianceFilter {
    var appliances: seq<Appliance>
    var byCategory: map<string, seq<Appliance>>
    var byBrand: map<string, seq<Appliance>>
    var byPoints: map<int, seq<Appliance>>

    /** The three indexes are those of the current list. */
    ghost predicate Indexed()
      reads this
    {
      && byCategory == Index(appliances, CategoryOf)
      && byBrand == Index(appliances, BrandOf)
      && byPoints == Index(appliances, BucketOf)
    }

    constructor(apps: seq<Appliance>)
      ensures appliances == apps
      ensures Indexed()
    {
      appliances := apps;
      byCategory := map[];
      byBrand := map[];
      byPoints := map[];
      new;
      BuildIndexes();
    }

    /** `_build_indexes`: one pass appending every appliance to its bucket of each index. */
    method BuildIndexes()
      modifies this
      ensures appliances == old(appliances)
      ensures Indexed()
    {
      byCategory := map[];
      byBrand := map[];
      byPoints := map[];
      var apps := appliances;
      for i := 0 to |apps|
        invariant appliances == apps
        invariant byCategory == Index(apps[..i], CategoryOf)
        invariant byBrand == Index(apps[..i], BrandOf)
        invariant byPoints == Index(apps[..i], BucketOf)
      {
        var a := apps[i];
        assert apps[..i + 1] == apps[..i] + [a];
        IndexSnoc(apps[..i], a, CategoryOf);
        IndexSnoc(apps[..i], a, BrandOf);
        IndexSnoc(apps[..i], a, BucketOf);
        byCategory := AppendToBucket(byCategory, a.category, a);
        byBrand := AppendToBucket(byBrand, a.brand, a);
        var range := a.points / 10 * 10;
        byPoints := AppendToBucket(byPoints, range, a);
      }
      assert apps[..|apps|] == apps;
    }

    /** `filter`: the appliances meeting every active criterion, in catalogue order. */
    function Filter(crit: Criteria): (r: seq<Appliance>)
      reads this
      ensures r == SelectedOnly(appliances, crit)
      ensures forall a :: a in r <==> a in appliances && Selected(crit, a)
    {
      FilteredIsSelection(appliances, crit);
      SelectedOnlyMembers(appliances, crit);
      Filtered(appliances, crit)
    }

    /** `get_brands_for_category`: the distinct brands on offer in the category, sorted, or
        the single dash when the category offers nothing. */
    function BrandsForCategory(category: string, maxPoints: Option<int>): (r: seq<string>)
      reads this
      requires Indexed()
      ensures (forall i :: 0 <= i < |appliances| ==> !Offered(appliances[i], category, maxPoints)) ==> r == ["-"]
      ensures (exists i :: 0 <= i < |appliances| && Offered(appliances[i], category, maxPoints)) ==>
                StrictlySorted(r)
                && forall b :: b in r <==>
                     exists i :: 0 <= i < |appliances| && Offered(appliances[i], category, maxPoints) && appliances[i].brand == b
    {
      IndexBuckets(appliances, CategoryOf);
      BrandsInSpec(appliances, category, maxPoints);
      var bucket := if category in byCategory then byCategory[category] else [];
      assert bucket == WithKey(appliances, CategoryOf, category);
      BrandsIn(bucket, maxPoints)
    }
  }

  // ---------------------------------------------------------------------------------------
  // ShoppingCart.

  datatype CartItem = CartItem(appliance: Appliance, quantity: int)

  /** The position of the first item with the code, if any. */
  function FindCode(items: seq<CartItem>, code: string): (r: Option<nat>)
    ensures r.None? <==> forall k :: 0 <= k < |items| ==> items[k].appliance.code != code
    ensures r.Some? ==> r.value < |items| && items[r.value].appliance.code == code
                        && forall k :: 0 <= k < r.value ==> items[k].appliance.code != code
    decreases |items|
  {
    if items == [] then None
    else if items[0].appliance.code == code then Some(0)
    else
      match FindCode(items[1..], code)
      case None => None
      case Some(i) => Some(i + 1)
  }

  /** The items after adding `a`: the first item with its code gains one, or a new item of one. */
  function Added(items: seq<CartItem>, a: Appliance): (r: seq<CartItem>)
    ensures |r| == |items| + (if FindCode(items, a.code).None? then 1 else 0)
    decreases |items|
  {
    if items == [] then [CartItem(a, 1)]
    else if items[0].appliance.code == a.code then [items[0].(quantity := items[0].quantity + 1)] + items[1..]
    else [items[0]] + Added(items[1..], a)
  }

  /** The items without any item of the code, the others in order. */
  function Removed(items: seq<CartItem>, code: string): (r: seq<CartItem>)
    ensures |r| <= |items|
    ensures forall k :: 0 <= k < |r| ==> r[k].appliance.code != code
    decreases |items|
  {
    if items == [] then []
    else (if items[0].appliance.code == code then [] else [items[0]]) + Removed(items[1..], code)
  }

  /** `get_total_points`: points times quantity, summed over the items. */
  function Total(items: seq<CartItem>): (r: int)
    ensures (forall k :: 0 <= k < |items| ==> items[k].appliance.points >= 0 && items[k].quantity >= 0) ==> r >= 0
    decreases |items|
  {
    if items == [] then 0 else items[0].appliance.points * items[0].quantity + Total(items[1..])
  }

  predicate DistinctCodes(items: seq<CartItem>)
  {
    forall i, j :: 0 <= i < j < |items| ==> items[i].appliance.code != items[j].appliance.code
  }

  /** Adding bumps the quantity of the first item with the code and leaves the others
      alone, or appends a new item of quantity one when no item has the code. */
  lemma {:induction false} AddedSpec(items: seq<CartItem>, a: Appliance)
    ensures FindCode(items, a.code).None? ==> Added(items, a) == items + [CartItem(a, 1)]
    ensures FindCode(items, a.code).Some? ==>
      var i := FindCode(items, a.code).value;
      Added(items, a) == items[i := items[i].(quantity := items[i].quantity + 1)]
    decreases |items|
  {
    if items != [] && items[0].appliance.code != a.code {
      AddedSpec(items[1..], a);
      assert items == [items[0]] + items[1..];
    }
  }

  /** Adding raises the total by the points of the item bumped, or of the new appliance. */
  lemma {:induction false} AddedTotal(items: seq<CartItem>, a: Appliance)
    ensures Total(Added(items, a))
         == Total(items) + (match FindCode(items, a.code)
                            case Some(i) => items[i].appliance.points
                            case None => a.points)
    decreases |items|
  {
    if items == [] {
      assert Total([CartItem(a, 1)]) == a.points;
    } else if items[0].appliance.code == a.code {
      var it := items[0];
      assert it.appliance.points * (it.quantity + 1) == it.appliance.points * it.quantity + it.appliance.points;
      assert ([it.(quantity := it.quantity + 1)] + items[1..])[1..] == items[1..];
    } else {
      AddedTotal(items[1..], a);
      assert ([items[0]] + Added(items[1..], a))[1..] == Added(items[1..], a);
    }
  }

  /** Adding never puts two items with one code in the cart. */
  lemma AddedDistinct(items: seq<CartItem>, a: Appliance)
    requires DistinctCodes(items)
    ensures DistinctCodes(Added(items, a))
  {
    AddedSpec(items, a);
  }

  lemma {:induction false} RemovedMembers(items: seq<CartItem>, code: string)
    ensures forall it :: it in Removed(items, code) <==> it in items && it.appliance.code != code
    decreases |items|
  {
    if items != [] {
      RemovedMembers(items[1..], code);
      assert items == [items[0]] + items[1..];
    }
  }

  /** Removing keeps the codes of the items distinct. */
  lemma {:induction false} RemovedDistinct(items: seq<CartItem>, code: string)
    requires DistinctCodes(items)
    ensures DistinctCodes(Removed(items, code))
    decreases |items|
  {
    if items != [] {
      var tail := items[1..];
      assert DistinctCodes(tail) by {
        forall i, j | 0 <= i < j < |tail|
          ensures tail[i].appliance.code != tail[j].appliance.code
        {
          assert tail[i] == items[i + 1] && tail[j] == items[j + 1];
        }
      }
      RemovedDistinct(tail, code);
      RemovedMembers(tail, code);
      var rest := Removed(tail, code);
      if items[0].appliance.code != code {
        forall k | 0 <= k < |rest|
          ensures rest[k].appliance.code != items[0].appliance.code
        {
          assert rest[k] in tail;
          var m :| 0 <= m < |tail| && tail[m] == rest[k];
          assert tail[m] == items[m + 1];
        }
        assert Removed(items, code) == [items[0]] + rest;
      } else {
        assert Removed(items, code) == [] + rest == rest;
      }
    }
  }

  /** Removing after adding is removing: the added or bumped item goes, the rest is untouched. */
  lemma {:induction false} RemoveUndoesAdd(items: seq<CartItem>, a: Appliance)
    ensures Removed(Added(items, a), a.code) == Removed(items, a.code)
    decreases |items|
  {
    if items == [] {
      assert Removed([CartItem(a, 1)], a.code) == [] + Removed([], a.code);
    } else if items[0].appliance.code == a.code {
      var bumped := [items[0].(quantity := items[0].quantity + 1)] + items[1..];
      assert bumped[1..] == items[1..];
    } else {
      RemoveUndoesAdd(items[1..], a);
      assert ([items[0]] + Added(items[1..], a))[1..] == Added(items[1..], a);
    }
  }

  /** Removing a code no item carries leaves the cart as it is. */
  lemma {:induction false} RemovedAbsent(items: seq<CartItem>, code: string)
    requires FindCode(items, code).None?
    ensures Removed(items, code) == items
    decreases |items|
  {
    if items != [] {
      RemovedAbsent(items[1..], code);
      assert items == [items[0]] + items[1..];
    }
  }

  /** In a cart of distinct codes, removing a code takes exactly its item's points times
      quantity off the total, and nothing when no item has the code. */
  lemma {:induction false} RemovedTotal(items: seq<CartItem>, code: string)
    requires DistinctCodes(items)
    ensures Total(Removed(items, code))
         == Total(items) - (match FindCode(items, code)
                            case Some(i) => items[i].appliance.points * items[i].quantity
                            case None => 0)
    decreases |items|
  {
    if items == [] {
    } else if items[0].appliance.code == code {
      assert FindCode(items[1..], code).None? by {
        forall k | 0 <= k < |items[1..]|
          ensures items[1..][k].appliance.code != code
        {
          assert items[1..][k] == items[k + 1];
        }
      }
      RemovedAbsent(items[1..], code);
      assert Removed(items, code) == [] + items[1..] == items[1..];
    } else {
      RemovedTotal(items[1..], code);
      match FindCode(items[1..], code)
      case None =>
      case Some(i) =>
        assert items[1..][i] == items[i + 1];
    }
  }

  /** The unit test of the cart: 50 points, 100 after adding the appliance twice, nothing after removing it. */
  lemma CartExample(a: Appliance)
    requires a.points == 50
    ensures Added([], a) == [CartItem(a, 1)] && Total(Added([], a)) == 50
    ensures Added(Added([], a), a) == [CartItem(a, 2)] && Total(Added(Added([], a), a)) == 100
    ensures Removed(Added(Added([], a), a), a.code) == [] && Total(Removed(Added(Added([], a), a), a.code)) == 0
  {
    assert [CartItem(a, 1)][1..] == [];
    assert Added([CartItem(a, 1)], a) == [CartItem(a, 2)];
    assert [CartItem(a, 2)][1..] == [];
  }

  /** The cart; `notifications` counts the calls of `_notify_observers`. */
  class ShoppingCart {
    var items: seq<CartItem>
    var notifications: nat

    /** `add_item` merges by code, so no two items of the cart share a code. */
    ghost predicate Valid()
      reads this
    {
      DistinctCodes(items)
    }

    constructor()
      ensures Valid()
      ensures items == [] && notifications == 0
    {
      items := [];
      notifications := 0;
    }

    /** `add_item`: the search loop with its `else` branch. */
    method AddItem(a: Appliance)
      requires Valid()
      modifies this
      ensures Valid()
      ensures items == Added(old(items), a)
      ensures Total(items) == Total(old(items)) + (match FindCode(old(items), a.code)
                                                   case Some(i) => old(items)[i].appliance.points
                                                   case None => a.points)
      ensures notifications == old(notifications) + 1
    {
      AddedSpec(items, a);
      AddedTotal(items, a);
      AddedDistinct(items, a);
      var i := 0;
      while i < |items| && items[i].appliance.code != a.code
        invariant 0 <= i <= |items|
        invariant forall k :: 0 <= k < i ==> items[k].appliance.code != a.code
      {
        i := i + 1;
      }
      if i < |items| {
        items := items[i := items[i].(quantity := items[i].quantity + 1)];
      } else {
        items := items + [CartItem(a, 1)];
      }
      notifications := notifications + 1;
    }

    /** `remove_item`. */
    method RemoveItem(a: Appliance)
      requires Valid()
      modifies this
      ensures Valid()
      ensures items == Removed(old(items), a.code)
      ensures Total(items) == Total(old(items)) - (match FindCode(old(items), a.code)
                                                   case Some(i) => old(items)[i].appliance.points * old(items)[i].quantity
                                                   case None => 0)
      ensures notifications == old(notifications) + 1
    {
      RemovedTotal(items, a.code);
      RemovedDistinct(items, a.code);
      items := Removed(items, a.code);
      notifications := notifications + 1;
    }

    /** `clear`. */
    method Clear()
      modifies this
      ensures Valid()
      ensures items == []
      ensures notifications == old(notifications) + 1
    {
      items := [];
      notifications := notifications + 1;
    }

    /** `get_total_points`. */
    function TotalPoints(): int
      reads this
    {
      Total(items)
    }
  }
}
