/**
 * The C statements the array templates emit, their text, and an abstract
 * meaning for them: a state that maps each array reference to its contents
 * and each number variable to its value. The `ARRAY_INSERT` runtime macro is
 * taken as "insert one element at the given index, shifting the rest up".
 */
module CTarget {

  import opened Wrappers

  datatype CStmt =
    | ArrayInsert(arrayRef: string, index: nat, value: string)  // ARRAY_INSERT(arrayRef, index, value);
    | SizeAssign(target: string, arrayRef: string)              // target = arrayRef->size;

  const Digits := "0123456789"

  /** Decimal text of a natural number. */
  function NatText(n: nat): (r: string) {
    if n < 10 then [Digits[n]] else NatText(n / 10) + [Digits[n % 10]]
  }

  /** The C text of one statement, one line each. */
  function Render(s: CStmt): (r: string) {
    match s
    case ArrayInsert(a, i, v) => "ARRAY_INSERT(" + a + ", " + NatText(i) + ", " + v + ");\n"
    case SizeAssign(t, a) => t + " = " + a + "->size;\n"
  }

  function RenderAll(ss: seq<CStmt>): (r: seq<string>)
    ensures |r| == |ss|
    ensures forall k :: 0 <= k < |ss| ==> r[k] == Render(ss[k])
  {
    if ss == [] then [] else [Render(ss[0])] + RenderAll(ss[1..])
  }

  function Concat(lines: seq<string>): (r: string) {
    if lines == [] then "" else lines[0] + Concat(lines[1..])
  }

  /** Array contents by reference text, number variables by name. */
  datatype CState = CState(arrays: map<string, seq<string>>, numbers: map<string, int>)

  /** One statement; None when it names an unknown array or an index past the end. */
  function Exec(s: CStmt, st: CState): (r: Option<CState>)
  {
    match s
    case ArrayInsert(a, i, v) =>
      if a in st.arrays && i <= |st.arrays[a]| then
        Some(st.(arrays := st.arrays[a := st.arrays[a][..i] + [v] + st.arrays[a][i..]]))
      else
        None
    case SizeAssign(t, a) =>
      if a in st.arrays then Some(st.(numbers := st.numbers[t := |st.arrays[a]|])) else None
  }

  /**
   * An insert succeeds exactly on a known array and an index at most its
   * size, and then grows that array by one with the value at the index and
   * everything else in place; a size read succeeds exactly on a known array
   * and stores its size.
   */
  lemma ExecMeaning(s: CStmt, st: CState, r: Option<CState>)
    requires r == Exec(s, st)
    ensures s.ArrayInsert? ==>
      (r.Some? <==> s.arrayRef in st.arrays && s.index <= |st.arrays[s.arrayRef]|)
    ensures s.ArrayInsert? && r.Some? ==>
      && r.value.numbers == st.numbers
      && r.value.arrays.Keys == st.arrays.Keys
      && var before, after := st.arrays[s.arrayRef], r.value.arrays[s.arrayRef];
      && |after| == |before| + 1
      && after[..s.index] == before[..s.index]
      && after[s.index] == s.value
      && after[s.index + 1..] == before[s.index..]
    ensures s.SizeAssign? ==>
      (r.Some? <==> s.arrayRef in st.arrays)
    ensures s.SizeAssign? && r.Some? ==>
      && r.value.arrays == st.arrays
      && s.target in r.value.numbers
      && r.value.numbers[s.target] == |st.arrays[s.arrayRef]|
  {
  }

  /** Statements in order, stopping at the first that fails. */
  function ExecAll(ss: seq<CStmt>, st: CState): (r: Option<CState>)
  {
    if ss == [] then Some(st)
    else
      match Exec(ss[0], st)
      case None => None
      case Some(next) => ExecAll(ss[1..], next)
  }

  /** Running two statement lists one after the other is running their concatenation. */
  lemma {:induction false} ExecAllAppend(xs: seq<CStmt>, ys: seq<CStmt>, st: CState)
    ensures ExecAll(xs + ys, st) ==
      match ExecAll(xs, st)
      case None => None
      case Some(mid) => ExecAll(ys, mid)
  {
    if xs == [] {
      assert xs + ys == ys;
    } else {
      assert (xs + ys)[0] == xs[0];
      assert (xs + ys)[1..] == xs[1..] + ys;
      match Exec(xs[0], st)
      case None =>
      case Some(next) => ExecAllAppend(xs[1..], ys, next);
    }
  }
}
