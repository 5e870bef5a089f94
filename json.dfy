/**
 * JavaScript values as the error and response code sees them: the
 * primitive values, arrays and plain objects, JavaScript truthiness, property
 * access and assignment, and the `JSON.parse(JSON.stringify(x))` round trip
 * that `ApiResponse.toJson` performs.
 */
module Json {

  datatype Option<+T> = None | Some(value: T)

  /** A JavaScript value. Numbers are integers; an object is its list of own
      enumerable properties in insertion order. */
  datatype Value =
    | Undefined
    | Null
    | Bool(b: bool)
    | Num(n: int)
    | Str(s: string)
    | Arr(items: seq<Value>)
    | Obj(members: seq<Member>)

  datatype Member = Member(key: string, value: Value)

  const EmptyObject: Value := Obj([])

  /** JavaScript truthiness: `undefined`, `null`, `false`, `0` and `''` are
      falsy; every array and every object, even an empty one, is truthy. */
  predicate Truthy(v: Value) {
    match v
    case Undefined => false
    case Null => false
    case Bool(b) => b
    case Num(n) => n != 0
    case Str(s) => s != ""
    case Arr(_) => true
    case Obj(_) => true
  }

  /** `a || b`: the left operand when it is truthy, otherwise the right one. */
  function Or(a: Value, b: Value): (r: Value)
    ensures Truthy(a) ==> r == a
    ensures !Truthy(a) ==> r == b
    ensures Truthy(r) <==> Truthy(a) || Truthy(b)
  {
    if Truthy(a) then a else b
  }

  /** A parameter with a default value: the default replaces `undefined`
      and nothing else (an explicit `null` or `''` is kept). */
  function Defaulted(v: Value, default: Value): (r: Value)
    ensures v != Undefined ==> r == v
    ensures v == Undefined ==> r == default
  {
    if v == Undefined then default else v
  }

  /** No `undefined` anywhere inside the value. */
  predicate Defined(v: Value)
    decreases v
  {
    match v
    case Undefined => false
    case Arr(items) => forall i :: 0 <= i < |items| ==> Defined(items[i])
    case Obj(ms) => forall i :: 0 <= i < |ms| ==> Defined(ms[i].value)
    case _ => true
  }

  function Keys(ms: seq<Member>): set<string> {
    set i | 0 <= i < |ms| :: ms[i].key
  }

  lemma KeysCons(m: Member, ms: seq<Member>)
    ensures Keys([m] + ms) == {m.key} + Keys(ms)
  {
    var all := [m] + ms;
    forall k | k in Keys(ms) ensures k in Keys(all) {
      var i :| 0 <= i < |ms| && ms[i].key == k;
      assert all[i + 1] == ms[i];
    }
    forall k | k in Keys(all) ensures k in {m.key} + Keys(ms) {
      var i :| 0 <= i < |all| && all[i].key == k;
      if i > 0 { assert all[i] == ms[i - 1]; }
    }
    assert all[0] == m;
  }

  /** Every key occurs once, as in any JavaScript object. */
  predicate UniqueKeys(ms: seq<Member>) {
    forall i, j :: 0 <= i < j < |ms| ==> ms[i].key != ms[j].key
  }

  /** Read a property: the value stored under `k`, or None when the key is absent. */
  function Find(ms: seq<Member>, k: string): (r: Option<Value>)
    ensures r.Some? <==> k in Keys(ms)
  {
    if ms == [] then None
    else if ms[0].key == k then Some(ms[0].value)
    else
      assert Keys(ms) == {ms[0].key} + Keys(ms[1..]);
      Find(ms[1..], k)
  }

  /** In an object with unique keys, each key reads back its own value. */
  lemma {:induction false} FindAt(ms: seq<Member>, i: nat)
    requires UniqueKeys(ms) && i < |ms|
    ensures Find(ms, ms[i].key) == Some(ms[i].value)
  {
    if i > 0 {
      assert ms[i] == ms[1..][i - 1];
      assert UniqueKeys(ms[1..]) by {
        forall a, b | 0 <= a < b < |ms[1..]| ensures ms[1..][a].key != ms[1..][b].key {
          assert ms[1..][a] == ms[a + 1] && ms[1..][b] == ms[b + 1];
        }
      }
      FindAt(ms[1..], i - 1);
    }
  }

  /** `v[k]` for an object; other values have no own properties here. */
  function Get(v: Value, k: string): Option<Value> {
    if v.Obj? then Find(v.members, k) else None
  }

  /** The object has an own property `k` (`k in v`). */
  predicate Has(v: Value, k: string) {
    Get(v, k).Some?
  }

  /** The assignment `o[k] = v`: an existing property keeps its place and
      gets the new value, a new one is appended. */
  function Put(ms: seq<Member>, k: string, v: Value): (r: seq<Member>)
    ensures Find(r, k) == Some(v)
    ensures forall k' :: k' != k ==> Find(r, k') == Find(ms, k')
    ensures Keys(r) == Keys(ms) + {k}
    ensures UniqueKeys(ms) ==> UniqueKeys(r)
  {
    if ms == [] then [Member(k, v)]
    else if ms[0].key == k then
      KeysCons(ms[0], ms[1..]);
      KeysCons(Member(k, v), ms[1..]);
      assert [ms[0]] + ms[1..] == ms;
      [Member(k, v)] + ms[1..]
    else
      KeysCons(ms[0], ms[1..]);
      assert [ms[0]] + ms[1..] == ms;
      var rest := Put(ms[1..], k, v);
      KeysCons(ms[0], rest);
      [ms[0]] + rest
  }

  /** Assigning a key the object lacks appends it at the end. */
  lemma {:induction false} PutNew(ms: seq<Member>, k: string, v: Value)
    requires k !in Keys(ms)
    ensures Put(ms, k, v) == ms + [Member(k, v)]
  {
    if ms != [] {
      KeysCons(ms[0], ms[1..]);
      assert [ms[0]] + ms[1..] == ms;
      PutNew(ms[1..], k, v);
    }
  }

  /** `JSON.parse(JSON.stringify(v))` for a value inside an array or object:
      an `undefined` array slot becomes `null`, an object property whose value
      is `undefined` disappears, everything else is copied. */
  function Clean(v: Value): Value
    decreases v, 1
  {
    match v
    case Undefined => Null
    case Arr(items) => Arr(CleanItems(items))
    case Obj(ms) => Obj(CleanMembers(ms))
    case _ => v
  }

  function CleanItems(items: seq<Value>): seq<Value>
    decreases items, 0
  {
    if items == [] then [] else [Clean(items[0])] + CleanItems(items[1..])
  }

  function CleanMembers(ms: seq<Member>): seq<Member>
    decreases ms, 0
  {
    if ms == [] then []
    else if ms[0].value == Undefined then CleanMembers(ms[1..])
    else [Member(ms[0].key, Clean(ms[0].value))] + CleanMembers(ms[1..])
  }

  /** What a property read gives after the round trip. */
  function CleanSlot(o: Option<Value>): Option<Value> {
    match o
    case None => None
    case Some(w) => if w == Undefined then None else Some(Clean(w))
  }

  /** `toJson` applied to an object: the round trip of the whole object. */
  function ToJson(ms: seq<Member>): (r: Value)
    ensures r.Obj?
  {
    Clean(Obj(ms))
  }

  /** After the round trip there is no `undefined` left anywhere. */
  lemma {:induction false} CleanIsDefined(v: Value)
    ensures Defined(Clean(v))
    decreases v, 1
  {
    match v
    case Arr(items) => CleanItemsAreDefined(items);
    case Obj(ms) => CleanMembersAreDefined(ms);
    case _ =>
  }

  lemma {:induction false} CleanItemsAreDefined(items: seq<Value>)
    ensures |CleanItems(items)| == |items|
    ensures forall i :: 0 <= i < |items| ==> Defined(CleanItems(items)[i])
    decreases items, 0
  {
    if items != [] {
      CleanIsDefined(items[0]);
      CleanItemsAreDefined(items[1..]);
      assert forall i :: 1 <= i < |items| ==> CleanItems(items)[i] == CleanItems(items[1..])[i - 1];
    }
  }

  lemma {:induction false} CleanMembersAreDefined(ms: seq<Member>)
    ensures forall i :: 0 <= i < |CleanMembers(ms)| ==> Defined(CleanMembers(ms)[i].value)
    decreases ms, 0
  {
    if ms != [] {
      CleanMembersAreDefined(ms[1..]);
      if ms[0].value != Undefined {
        CleanIsDefined(ms[0].value);
        var rest := CleanMembers(ms[1..]);
        assert CleanMembers(ms) == [Member(ms[0].key, Clean(ms[0].value))] + rest;
        assert forall i :: 1 <= i < |CleanMembers(ms)| ==> CleanMembers(ms)[i] == rest[i - 1];
      }
    }
  }

  /** A value without `undefined` survives the round trip unchanged. */
  lemma {:induction false} CleanKeepsDefined(v: Value)
    requires Defined(v)
    ensures Clean(v) == v
    decreases v, 1
  {
    match v
    case Arr(items) => CleanItemsKeepDefined(items);
    case Obj(ms) => CleanMembersKeepDefined(ms);
    case _ =>
  }

  lemma {:induction false} CleanItemsKeepDefined(items: seq<Value>)
    requires forall i :: 0 <= i < |items| ==> Defined(items[i])
    ensures CleanItems(items) == items
    decreases items, 0
  {
    if items != [] {
      CleanKeepsDefined(items[0]);
      CleanItemsKeepDefined(items[1..]);
      assert [items[0]] + items[1..] == items;
    }
  }

  lemma {:induction false} CleanMembersKeepDefined(ms: seq<Member>)
    requires forall i :: 0 <= i < |ms| ==> Defined(ms[i].value)
    ensures CleanMembers(ms) == ms
    decreases ms, 0
  {
    if ms != [] {
      CleanKeepsDefined(ms[0].value);
      CleanMembersKeepDefined(ms[1..]);
      assert [ms[0]] + ms[1..] == ms;
    }
  }

  /** `toJson` is idempotent: a second round trip changes nothing. */
  lemma CleanIdempotent(v: Value)
    ensures Clean(Clean(v)) == Clean(v)
  {
    CleanIsDefined(v);
    CleanKeepsDefined(Clean(v));
  }

  /** Property by property: after the round trip a key is present exactly
      when it was present with a value other than `undefined`, and then holds
      the round trip of that value; `null` values are kept. */
  lemma {:induction false} CleanFind(ms: seq<Member>, k: string)
    requires UniqueKeys(ms)
    ensures Find(CleanMembers(ms), k) == CleanSlot(Find(ms, k))
    decreases ms
  {
    if ms != [] {
      assert UniqueKeys(ms[1..]) by {
        forall i, j | 0 <= i < j < |ms[1..]| ensures ms[1..][i].key != ms[1..][j].key {
          assert ms[1..][i] == ms[i + 1] && ms[1..][j] == ms[j + 1];
        }
      }
      CleanFind(ms[1..], k);
      if ms[0].key == k {
        assert forall j :: 0 <= j < |ms[1..]| ==> ms[1..][j].key != k by {
          forall j | 0 <= j < |ms[1..]| ensures ms[1..][j].key != k {
            assert ms[1..][j] == ms[j + 1];
          }
        }
      }
    }
  }

  /** The same, for a whole object and its `toJson`. */
  lemma ToJsonGet(ms: seq<Member>, k: string)
    requires UniqueKeys(ms)
    ensures Get(ToJson(ms), k) == CleanSlot(Find(ms, k))
  {
    CleanFind(ms, k);
  }
}
