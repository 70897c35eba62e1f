/** Types and small functions that several modules share. */
module Common {

  datatype Option<T> = None | Some(value: T)

  newtype byte = x: int | 0 <= x < 256

  type Bytes = seq<byte>

  datatype Json =
    | Null
    | Bool(b: bool)
    | Num(n: int)
    | Str(s: string)
    | Arr(items: seq<Json>)
    | Obj(fields: seq<(string, Json)>)  // keys are distinct

  function Field(fields: seq<(string, Json)>, key: string): (r: Option<Json>) {
    if fields == [] then None else if fields[0].0 == key then Some(fields[0].1) else Field(fields[1..], key)
  }

  /** In an object, whose keys are distinct, the field of a key is the one it has. */
  lemma {:induction false} FieldIff(fields: seq<(string, Json)>, key: string, value: Json)
    requires forall i, j :: 0 <= i < j < |fields| ==> fields[i].0 != fields[j].0
    ensures Field(fields, key) == Some(value) <==> (key, value) in fields
    decreases |fields|
  {
    if fields != [] {
      FieldIff(fields[1..], key, value);
      assert forall f :: f in fields <==> f == fields[0] || f in fields[1..];
      assert forall f :: f in fields[1..] ==> f.0 != fields[0].0;
    }
  }

  predicate Distinct<T(==)>(a: seq<T>) { forall i, j :: 0 <= i < j < |a| ==> a[i] != a[j] }

  function Concat<T>(parts: seq<seq<T>>): (r: seq<T>) {
    if parts == [] then [] else parts[0] + Concat(parts[1..])
  }
}
