/**
 * What the lowered `unshift` does when the emitted C runs: the receiver's
 * contents become the arguments in reverse order followed by the old
 * contents, and the value form yields the new size. This reverses the
 * order that `Array.prototype.unshift` (section 23.1.3 of ECMA-262) gives,
 * which keeps the arguments in their given order; the last part of this
 * module exhibits the difference and proves the in-order alternative.
 */
module ArrayUnshiftEffect {

  import opened Wrappers
  import opened CTarget
  import opened ArrayUnshift

  /** The final state, and the value the inline code yields in the value form. */
  datatype Outcome = Outcome(state: CState, value: Option<int>)

  /** Run the hoisted statements, then the inline code. */
  function Run(e: Expansion, st: CState): (r: Option<Outcome>) {
    match ExecAll(e.hoisted, st)
    case None => None
    case Some(mid) =>
      match e.inline
      case InlineStatements(ss) =>
        (match ExecAll(ss, mid)
         case None => None
         case Some(final) => Some(Outcome(final, None)))
      case InlineValue(name) =>
        if name in mid.numbers then Some(Outcome(mid, Some(mid.numbers[name]))) else None
  }

  /** Running an expansion of either form whose inserts take `st` to `mid`. */
  lemma RunForm(e: Expansion, inserts: seq<CStmt>, top: bool, temp: string, arr: string, st: CState, mid: CState)
    requires e == if top then Expansion([], InlineStatements(inserts))
                  else Expansion(inserts + [SizeAssign(temp, arr)], InlineValue(temp))
    requires ExecAll(inserts, st) == Some(mid) && arr in mid.arrays
    ensures Run(e, st) ==
      if top then Some(Outcome(mid, None))
      else Some(Outcome(mid.(numbers := mid.numbers[temp := |mid.arrays[arr]|]), Some(|mid.arrays[arr]|)))
  {
    if !top {
      var tail := [SizeAssign(temp, arr)];
      ExecAllAppend(inserts, tail, st);
      assert ExecAll(tail, mid) == Exec(tail[0], mid);
    }
  }

  function Values(us: seq<CUnshiftValue>): (r: seq<string>)
    ensures |r| == |us|
    ensures forall k :: 0 <= k < |us| ==> r[k] == us[k].value
  {
    if us == [] then [] else [us[0].value] + Values(us[1..])
  }

  function Reversed(s: seq<string>): (r: seq<string>) {
    if s == [] then [] else Reversed(s[1..]) + [s[0]]
  }

  /** Element k of the reversal is element |s| - 1 - k of the original. */
  lemma {:induction false} ReversedAt(s: seq<string>, k: nat)
    requires k < |s|
    ensures |Reversed(s)| == |s| && Reversed(s)[k] == s[|s| - 1 - k]
  {
    if k < |s| - 1 {
      ReversedAt(s[1..], k);
    } else {
      ReversedLength(s[1..]);
    }
  }

  lemma {:induction false} ReversedLength(s: seq<string>)
    ensures |Reversed(s)| == |s|
  {
    if s != [] {
      ReversedLength(s[1..]);
    }
  }

  /** Inserting each value at index 0, in order, prepends the values reversed. */
  lemma {:induction false} FrontInsertsPrependReversed(us: seq<CUnshiftValue>, arr: string, st: CState)
    requires forall k :: 0 <= k < |us| ==> us[k].varAccess == arr
    requires arr in st.arrays
    ensures ExecAll(Statements(us), st) ==
      Some(st.(arrays := st.arrays[arr := Reversed(Values(us)) + st.arrays[arr]]))
  {
    if us != [] {
      var v := us[0].value;
      var next := st.(arrays := st.arrays[arr := [v] + st.arrays[arr]]);
      assert st.arrays[arr][..0] + [v] + st.arrays[arr][0..] == [v] + st.arrays[arr];
      assert Exec(Statements(us)[0], st) == Some(next);
      assert Statements(us)[1..] == Statements(us[1..]);
      FrontInsertsPrependReversed(us[1..], arr, next);
      assert Values(us)[1..] == Values(us[1..]);
      var after := Reversed(Values(us[1..])) + ([v] + st.arrays[arr]);
      assert after == Reversed(Values(us)) + st.arrays[arr];
      assert next.arrays[arr := after] == st.arrays[arr := after];
    } else {
      assert Reversed(Values(us)) + st.arrays[arr] == st.arrays[arr];
      assert st.arrays[arr := st.arrays[arr]] == st.arrays;
    }
  }

  /**
   * The effect of the lowered call on a receiver the state knows: the
   * receiver holds the arguments reversed, then its old contents; the value
   * form stores the new size, old size plus argument count, in the temporary
   * and yields it; the statement form changes no number variable.
   */
  lemma {:induction false} UnshiftEffect(t: CArrayUnshift, st: CState)
    requires SharedReceiver(t)
    requires t.varAccess in st.arrays
    ensures
      var before := st.arrays[t.varAccess];
      var size := |before| + |t.unshiftValues|;
      var arrays := st.arrays[t.varAccess := Reversed(Values(t.unshiftValues)) + before];
      Run(Expand(t), st) ==
        if t.topExpressionOfStatement then Some(Outcome(CState(arrays, st.numbers), None))
        else Some(Outcome(CState(arrays, st.numbers[t.tempVarName := size]), Some(size)))
  {
    var before := st.arrays[t.varAccess];
    var mid := st.(arrays := st.arrays[t.varAccess := Reversed(Values(t.unshiftValues)) + before]);
    FrontInsertsPrependReversed(t.unshiftValues, t.varAccess, st);
    ReversedLength(Values(t.unshiftValues));
    RunForm(Expand(t), Statements(t.unshiftValues), t.topExpressionOfStatement, t.tempVarName, t.varAccess, st, mid);
  }

  /**
   * Lowering the same call as a statement and as a used value has the same
   * effect on every array; only the value form touches a number variable.
   */
  lemma StatementAndValueFormsAgree(t: CArrayUnshift, st: CState)
    requires SharedReceiver(t)
    requires t.varAccess in st.arrays
    ensures
      var asStatement := Run(Expand(t.(topExpressionOfStatement := true)), st);
      var asValue := Run(Expand(t.(topExpressionOfStatement := false)), st);
      && asStatement.Some? && asValue.Some?
      && asStatement.value.state.arrays == asValue.value.state.arrays
      && asStatement.value.state.numbers == st.numbers
      && asStatement.value.value == None
      && asValue.value.value == Some(|st.arrays[t.varAccess]| + |t.unshiftValues|)
  {
    UnshiftEffect(t.(topExpressionOfStatement := true), st);
    UnshiftEffect(t.(topExpressionOfStatement := false), st);
  }

  // ---------------------------------------------------------------------
  // The order of the inserted values

  /** `[3, 4].unshift(1, 2)` as lowered leaves `[2, 1, 3, 4]`, not `[1, 2, 3, 4]`. */
  lemma AsWrittenReversesArguments()
    ensures
      var t := CArrayUnshift(true, "", "arr", [CUnshiftValue("arr", "1"), CUnshiftValue("arr", "2")]);
      var st := CState(map["arr" := ["3", "4"]], map[]);
      && Run(Expand(t), st) == Some(Outcome(CState(map["arr" := ["2", "1", "3", "4"]], map[]), None))
      && Run(Expand(t), st) != Some(Outcome(CState(map["arr" := ["1", "2", "3", "4"]], map[]), None))
  {
    var t := CArrayUnshift(true, "", "arr", [CUnshiftValue("arr", "1"), CUnshiftValue("arr", "2")]);
    var st := CState(map["arr" := ["3", "4"]], map[]);
    UnshiftEffect(t, st);
    assert Values(t.unshiftValues) == ["1", "2"];
    assert Reversed(["1", "2"]) == ["2", "1"] by {
      assert ["1", "2"][1..] == ["2"];
      assert Reversed(["2"]) == ["2"];
    }
    assert ["2", "1"] + ["3", "4"] == ["2", "1", "3", "4"];
    assert map["arr" := ["3", "4"]]["arr" := ["2", "1", "3", "4"]] == map["arr" := ["2", "1", "3", "4"]];
    assert ["2", "1", "3", "4"] != ["1", "2", "3", "4"] by {
      assert ["2", "1", "3", "4"][0] != ["1", "2", "3", "4"][0];
    }
    assert map["arr" := ["2", "1", "3", "4"]]["arr"] != map["arr" := ["1", "2", "3", "4"]]["arr"];
  }

  /** The corrected lowering: value k is inserted at index `first + k`. */
  function InOrderStatements(us: seq<CUnshiftValue>, first: nat): (r: seq<CStmt>)
    ensures |r| == |us|
  {
    if us == [] then [] else [ArrayInsert(us[0].varAccess, first, us[0].value)] + InOrderStatements(us[1..], first + 1)
  }

  /** The corrected CArrayUnshift template: as Expand, with in-order inserts. */
  function ExpandInOrder(t: CArrayUnshift): (r: Expansion) {
    var inserts := InOrderStatements(t.unshiftValues, 0);
    if t.topExpressionOfStatement then
      Expansion([], InlineStatements(inserts))
    else
      Expansion(inserts + [SizeAssign(t.tempVarName, t.varAccess)], InlineValue(t.tempVarName))
  }

  lemma {:induction false} InOrderStatementsInsert(
    us: seq<CUnshiftValue>, arr: string, st: CState, front: seq<string>, rest: seq<string>)
    requires forall k :: 0 <= k < |us| ==> us[k].varAccess == arr
    requires arr in st.arrays && st.arrays[arr] == front + rest
    ensures ExecAll(InOrderStatements(us, |front|), st) ==
      Some(st.(arrays := st.arrays[arr := front + Values(us) + rest]))
  {
    if us == [] {
      assert front + Values(us) + rest == front + rest;
      assert st.arrays[arr := front + rest] == st.arrays;
    } else {
      var v := us[0].value;
      var front' := front + [v];
      var next := st.(arrays := st.arrays[arr := front' + rest]);
      var ss := InOrderStatements(us, |front|);
      assert ss[0] == ArrayInsert(arr, |front|, v);
      InsertBetween(arr, front, rest, v, st);
      assert Exec(ss[0], st) == Some(next);
      assert ss[1..] == InOrderStatements(us[1..], |front'|);
      assert ExecAll(ss, st) == ExecAll(ss[1..], next);
      InOrderStatementsInsert(us[1..], arr, next, front', rest);
      assert Values(us) == [v] + Values(us[1..]);
      assert front' + Values(us[1..]) + rest == front + Values(us) + rest;
      assert next.arrays[arr := front + Values(us) + rest] == st.arrays[arr := front + Values(us) + rest];
    }
  }

  lemma InsertBetween(arr: string, front: seq<string>, rest: seq<string>, v: string, st: CState)
    requires arr in st.arrays && st.arrays[arr] == front + rest
    ensures Exec(ArrayInsert(arr, |front|, v), st) == Some(st.(arrays := st.arrays[arr := front + [v] + rest]))
  {
  }

  /**
   * With the corrected template, the receiver holds the arguments in their
   * given order followed by its old contents, as section 23.1.3 of ECMA-262
   * specifies for `Array.prototype.unshift`; the size is as before.
   */
  lemma {:induction false} InOrderUnshiftEffect(t: CArrayUnshift, st: CState)
    requires SharedReceiver(t)
    requires t.varAccess in st.arrays
    ensures
      var before := st.arrays[t.varAccess];
      var size := |before| + |t.unshiftValues|;
      var arrays := st.arrays[t.varAccess := Values(t.unshiftValues) + before];
      Run(ExpandInOrder(t), st) ==
        if t.topExpressionOfStatement then Some(Outcome(CState(arrays, st.numbers), None))
        else Some(Outcome(CState(arrays, st.numbers[t.tempVarName := size]), Some(size)))
  {
    var before := st.arrays[t.varAccess];
    var mid := st.(arrays := st.arrays[t.varAccess := Values(t.unshiftValues) + before]);
    assert before == [] + before;
    InOrderStatementsInsert(t.unshiftValues, t.varAccess, st, [], before);
    assert [] + Values(t.unshiftValues) + before == Values(t.unshiftValues) + before;
    RunForm(ExpandInOrder(t), InOrderStatements(t.unshiftValues, 0), t.topExpressionOfStatement, t.tempVarName, t.varAccess, st, mid);
  }
}
