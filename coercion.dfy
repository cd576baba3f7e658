/** Numeric coercion of document fields: arrays of arbitrary values become arrays of numbers. */
module Coercion {
  import opened Options

  /** One stored array element: a finite number, `null`, or any other value whose
      `Number(v)` is not finite (NaN, an infinity, a string that does not parse). */
  datatype Value = Finite(x: real) | Null | NotFinite

  /** A document field: an array of values, or anything that is not an array
      (absent, null, a scalar, an object). */
  datatype Field = ArrayOf(elems: seq<Value>) | NotArray

  /** The number an element coerces to: itself when finite, otherwise 0
      (`Number(null)` is 0, so null also gives 0). */
  function NumberOrZero(v: Value): real
  {
    match v
    case Finite(x) => x
    case Null => 0.0
    case NotFinite => 0.0
  }

  /** Coerces a field to a number array, element by element. */
  function ToNumArr(f: Field): (ns: seq<real>)
    decreases if f.ArrayOf? then |f.elems| else 0
    ensures f.NotArray? ==> ns == []
    ensures f.ArrayOf? ==> |ns| == |f.elems|
    ensures f.ArrayOf? ==> forall i :: 0 <= i < |ns| ==> ns[i] == NumberOrZero(f.elems[i])
  {
    match f
    case NotArray => []
    case ArrayOf(vs) =>
      if vs == [] then [] else [NumberOrZero(vs[0])] + ToNumArr(ArrayOf(vs[1..]))
  }

  /** The last element of a field, or None (the `null` marker) when the field is not an
      array or is empty. An array that ends in `null` also yields the marker. */
  function LastOf(f: Field): (r: Option<Value>)
    ensures r.None? <==> (f.NotArray? || f.elems == [] || f.elems[|f.elems| - 1] == Null)
    ensures r.Some? ==> r.value != Null && exists front :: f.elems == front + [r.value]
  {
    if f.NotArray? || f.elems == [] || f.elems[|f.elems| - 1] == Null then None
    else
      var n := |f.elems|;
      assert f.elems == f.elems[..n - 1] + [f.elems[n - 1]];
      Some(f.elems[n - 1])
  }

  /** The element appended last is returned, so a present 0 is reported as present;
      a trailing null is indistinguishable from absence. */
  lemma LastOfAppend(vs: seq<Value>, v: Value)
    ensures LastOf(ArrayOf(vs + [v])) == if v == Null then None else Some(v)
  {
  }
}
