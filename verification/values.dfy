/** Vocabulary shared by every module: Go's dynamically typed `interface{}` values
    as they travel through the bridge, the Option wrapper, and the enumeration order
    of a Go `range` over a map. */
module Values {

  /** A Go `interface{}` value. JSON decoding yields strings, float64 numbers,
      booleans, nil and nested objects or arrays; the logging code also stores
      int32 identifiers, uint32 levels and timestamps in the same maps. */
  datatype Value =
    | Nil
    | Str(s: string)
    | F64(f: real)
    | Bool(b: bool)
    | I32(i: int)
    | U32(u: nat)
    | Time(instant: int)
    | Composite

  /** A Go `map[string]interface{}`. */
  type Fields = map<string, Value>

  datatype Option<+T> = None | Some(value: T)

  /** One octet of an MQTT payload. */
  newtype Byte = b: int | 0 <= b < 256

  /** Go's `m[k]` on a map of interfaces: `nil` when the key is absent. */
  function Get(m: Fields, k: string): Value {
    if k in m then m[k] else Nil
  }

  /** `order` visits every key of `keys` exactly once. Go leaves the order of a
      `range` over a map unspecified, so the model takes it as an input. */
  predicate IsEnumeration<K(==)>(order: seq<K>, keys: set<K>) {
    && (forall i, j | 0 <= i < j < |order| :: order[i] != order[j])
    && (forall i | 0 <= i < |order| :: order[i] in keys)
    && (forall k | k in keys :: k in order)
  }

  /** Number of positions of `s` whose element lies in `wanted`. */
  function CountIn<K>(s: seq<K>, wanted: set<K>): nat {
    if s == [] then 0 else (if s[0] in wanted then 1 else 0) + CountIn(s[1..], wanted)
  }

  /** Over a duplicate-free enumeration of `keys`, counting the positions that fall
      in `wanted` counts the set `keys * wanted`. */
  lemma {:induction false} CountInEnumeration<K>(order: seq<K>, keys: set<K>, wanted: set<K>)
    requires IsEnumeration(order, keys)
    ensures CountIn(order, wanted) == |keys * wanted|
    decreases |order|
  {
    if order == [] {
      assert keys == {};
    } else {
      var head := order[0];
      var rest := keys - {head};
      assert IsEnumeration(order[1..], rest) by {
        forall i | 0 <= i < |order[1..]| ensures order[1..][i] in rest {
          assert order[1..][i] == order[i + 1] != order[0];
        }
        forall k | k in rest ensures k in order[1..] {
          assert k in order;
          var i :| 0 <= i < |order| && order[i] == k;
          assert i != 0;
          assert order[1..][i - 1] == k;
        }
      }
      CountInEnumeration(order[1..], rest, wanted);
      if head in wanted {
        assert keys * wanted == (rest * wanted) + {head};
      } else {
        assert keys * wanted == rest * wanted;
      }
    }
  }

  /** Counting positions that all lie in `wanted` counts every position. */
  lemma {:induction false} CountInAll<K>(s: seq<K>, wanted: set<K>)
    requires forall i | 0 <= i < |s| :: s[i] in wanted
    ensures CountIn(s, wanted) == |s|
    decreases |s|
  {
    if s != [] {
      assert forall i | 0 <= i < |s[1..]| :: s[1..][i] == s[i + 1];
      CountInAll(s[1..], wanted);
    }
  }

  /** The only enumeration of a one-key map is that key alone. */
  lemma SingletonEnumeration<K>(order: seq<K>, key: K)
    requires IsEnumeration(order, {key})
    ensures order == [key]
  {
    CountInEnumeration(order, {key}, {key});
    CountInAll(order, {key});
    assert {key} * {key} == {key};
    assert order[0] in {key};
  }
}
