/**
 * What the session controller promises: undo and redo, edit recording,
 * the guarded start of a generation, the selection chain, escape, the
 * ticker, generation results, saving, and the invariant that keeps the
 * file picker out of reach.
 */
module SessionProps {
  import opened Wrappers
  import opened GoStrings
  import opened Parser
  import opened Prompts
  import opened Session

  /** A key press in the given state. */
  function Press(s: Session, key: string, effects: KeyEffects): Transition
    requires WellShaped(s)
  {
    Step(s, KeyMsg(key, effects))
  }

  // ---------------------------------------------------------------------
  // Undo and redo (src/tui.go:389-404)
  // ---------------------------------------------------------------------

  /** ctrl+z pops the focused area's undo stack into it and pushes the replaced value on its redo stack. */
  lemma Undo(s: Session, effects: KeyEffects)
    requires WellShaped(s) && s.state == Default
    ensures var t := Press(s, "ctrl+z", effects);
            var f, u := s.focused, s.undoHistory[s.focused];
            && t.cmds == []
            && (u != [] ==>
                  && t.next.inputs == s.inputs[f := u[|u| - 1]]
                  && t.next.undoHistory == s.undoHistory[f := u[..|u| - 1]]
                  && t.next.redoHistory == s.redoHistory[f := s.redoHistory[f] + [s.inputs[f]]]
                  && t.next.(inputs := s.inputs, undoHistory := s.undoHistory, redoHistory := s.redoHistory)
                     == s.(oKeyPressCount := 0))
            && (u == [] ==> t.next == s.(oKeyPressCount := 0))
  {
  }

  /** ctrl+y is the exact mirror of ctrl+z. */
  lemma Redo(s: Session, effects: KeyEffects)
    requires WellShaped(s) && s.state == Default
    ensures var t := Press(s, "ctrl+y", effects);
            var f, r := s.focused, s.redoHistory[s.focused];
            && t.cmds == []
            && (r != [] ==>
                  && t.next.inputs == s.inputs[f := r[|r| - 1]]
                  && t.next.redoHistory == s.redoHistory[f := r[..|r| - 1]]
                  && t.next.undoHistory == s.undoHistory[f := s.undoHistory[f] + [s.inputs[f]]]
                  && t.next.(inputs := s.inputs, undoHistory := s.undoHistory, redoHistory := s.redoHistory)
                     == s.(oKeyPressCount := 0))
            && (r == [] ==> t.next == s.(oKeyPressCount := 0))
  {
  }

  /** Undo followed by redo restores the buffer and both stacks. */
  lemma UndoThenRedo(s: Session, e1: KeyEffects, e2: KeyEffects)
    requires WellShaped(s) && s.state == Default && s.undoHistory[s.focused] != []
    ensures WellShaped(Press(s, "ctrl+z", e1).next)
    ensures Press(Press(s, "ctrl+z", e1).next, "ctrl+y", e2).next == s.(oKeyPressCount := 0)
  {
    var f, u, r := s.focused, s.undoHistory[s.focused], s.redoHistory[s.focused];
    Undo(s, e1);
    var s1 := Press(s, "ctrl+z", e1).next;
    Redo(s1, e2);
    var s2 := Press(s1, "ctrl+y", e2).next;
    assert (r + [s.inputs[f]])[..|r|] == r;
    assert u[..|u| - 1] + [u[|u| - 1]] == u;
    assert s2.inputs == s.inputs;
    assert s2.undoHistory == s.undoHistory;
    assert s2.redoHistory == s.redoHistory;
  }

  /** Redo followed by undo restores the buffer and both stacks. */
  lemma RedoThenUndo(s: Session, e1: KeyEffects, e2: KeyEffects)
    requires WellShaped(s) && s.state == Default && s.redoHistory[s.focused] != []
    ensures WellShaped(Press(s, "ctrl+y", e1).next)
    ensures Press(Press(s, "ctrl+y", e1).next, "ctrl+z", e2).next == s.(oKeyPressCount := 0)
  {
    var f, u, r := s.focused, s.undoHistory[s.focused], s.redoHistory[s.focused];
    Redo(s, e1);
    var s1 := Press(s, "ctrl+y", e1).next;
    Undo(s1, e2);
    var s2 := Press(s1, "ctrl+z", e2).next;
    assert (u + [s.inputs[f]])[..|u|] == u;
    assert r[..|r| - 1] + [r[|r| - 1]] == r;
    assert s2.inputs == s.inputs;
    assert s2.undoHistory == s.undoHistory;
    assert s2.redoHistory == s.redoHistory;
  }

  // ---------------------------------------------------------------------
  // Runs of edits, undos and redos (src/tui.go:389-404, 459-465)
  // ---------------------------------------------------------------------

  /** A text area with its undo and redo stacks, the top of each stack last. */
  datatype Area = Area(value: string, undo: seq<string>, redo: seq<string>)

  /** The focused area of a session. */
  function FocusedArea(s: Session): Area
    requires WellShaped(s)
  {
    Area(s.inputs[s.focused], s.undoHistory[s.focused], s.redoHistory[s.focused])
  }

  /** `s` with its focused area replaced by `a` and the o-counter reset; everything else is as in `s`. */
  function WithFocusedArea(s: Session, a: Area): (t: Session)
    requires WellShaped(s)
    ensures WellShaped(t) && t.state == s.state && t.focused == s.focused
  {
    var f := s.focused;
    s.(inputs := s.inputs[f := a.value],
       undoHistory := s.undoHistory[f := a.undo],
       redoHistory := s.redoHistory[f := a.redo],
       oKeyPressCount := 0)
  }

  /** An edit as it acts on the area: a new value pushes the old one and clears redo. */
  function AreaEdit(a: Area, v: string): Area {
    if v != a.value then Area(v, a.undo + [a.value], []) else a
  }

  /** ctrl+z as it acts on the area. */
  function AreaUndo(a: Area): Area {
    if |a.undo| > 0 then Area(a.undo[|a.undo| - 1], a.undo[..|a.undo| - 1], a.redo + [a.value]) else a
  }

  /** ctrl+y as it acts on the area. */
  function AreaRedo(a: Area): Area {
    if |a.redo| > 0 then Area(a.redo[|a.redo| - 1], a.undo + [a.value], a.redo[..|a.redo| - 1]) else a
  }

  /** Replacing the focused area twice keeps the second, and the area read back is the one put in. */
  lemma WithFocusedAreaTwice(s: Session, a: Area, b: Area)
    requires WellShaped(s)
    ensures FocusedArea(WithFocusedArea(s, a)) == a
    ensures WithFocusedArea(WithFocusedArea(s, a), b) == WithFocusedArea(s, b)
  {
    var f := s.focused;
    assert s.inputs[f := a.value][f := b.value] == s.inputs[f := b.value];
    assert s.undoHistory[f := a.undo][f := b.undo] == s.undoHistory[f := b.undo];
    assert s.redoHistory[f := a.redo][f := b.redo] == s.redoHistory[f := b.redo];
  }

  /** In the default state a key other than the commands acts on the focused area alone, as `AreaEdit`. */
  lemma PressEdits(s: Session, key: string, e: KeyEffects)
    requires WellShaped(s) && s.state == Default && !CommandKey(key)
    ensures Press(s, key, e) == Transition(WithFocusedArea(s, AreaEdit(FocusedArea(s), e.edited)), [])
  {
    var f := s.focused;
    assert s.inputs[f := s.inputs[f]] == s.inputs;
    assert s.undoHistory[f := s.undoHistory[f]] == s.undoHistory;
    assert s.redoHistory[f := s.redoHistory[f]] == s.redoHistory;
  }

  /** In the default state ctrl+z acts on the focused area alone, as `AreaUndo`. */
  lemma PressUndoes(s: Session, e: KeyEffects)
    requires WellShaped(s) && s.state == Default
    ensures Press(s, "ctrl+z", e) == Transition(WithFocusedArea(s, AreaUndo(FocusedArea(s))), [])
  {
    var f := s.focused;
    assert s.inputs[f := s.inputs[f]] == s.inputs;
    assert s.undoHistory[f := s.undoHistory[f]] == s.undoHistory;
    assert s.redoHistory[f := s.redoHistory[f]] == s.redoHistory;
  }

  /** In the default state ctrl+y acts on the focused area alone, as `AreaRedo`. */
  lemma PressRedoes(s: Session, e: KeyEffects)
    requires WellShaped(s) && s.state == Default
    ensures Press(s, "ctrl+y", e) == Transition(WithFocusedArea(s, AreaRedo(FocusedArea(s))), [])
  {
    var f := s.focused;
    assert s.inputs[f := s.inputs[f]] == s.inputs;
    assert s.undoHistory[f := s.undoHistory[f]] == s.undoHistory;
    assert s.redoHistory[f := s.redoHistory[f]] == s.redoHistory;
  }

  /** Presses of `key`, one per value of `values`, each leaving that value in the focused area. */
  function Typing(s: Session, key: string, e: KeyEffects, values: seq<string>): (t: Session)
    requires WellShaped(s) && s.state == Default && !CommandKey(key)
    ensures WellShaped(t) && t.state == Default && t.focused == s.focused
    decreases |values|
  {
    if values == [] then s
    else
      var before := Typing(s, key, e, values[..|values| - 1]);
      PressEdits(before, key, e.(edited := values[|values| - 1]));
      Press(before, key, e.(edited := values[|values| - 1])).next
  }

  /** `k` presses of ctrl+z. */
  function UndoTimes(s: Session, k: nat, e: KeyEffects): (t: Session)
    requires WellShaped(s) && s.state == Default
    ensures WellShaped(t) && t.state == Default && t.focused == s.focused
    decreases k
  {
    if k == 0 then s
    else
      PressUndoes(s, e);
      UndoTimes(Press(s, "ctrl+z", e).next, k - 1, e)
  }

  /** `k` presses of ctrl+y. */
  function RedoTimes(s: Session, k: nat, e: KeyEffects): (t: Session)
    requires WellShaped(s) && s.state == Default
    ensures WellShaped(t) && t.state == Default && t.focused == s.focused
    decreases k
  {
    if k == 0 then s
    else
      PressRedoes(s, e);
      RedoTimes(Press(s, "ctrl+y", e).next, k - 1, e)
  }

  /** Edits of the area, one per value. */
  function AreaTyping(a: Area, values: seq<string>): Area
    decreases |values|
  {
    if values == [] then a else AreaEdit(AreaTyping(a, values[..|values| - 1]), values[|values| - 1])
  }

  /** `k` undos of the area. */
  function AreaUndoTimes(a: Area, k: nat): Area
    decreases k
  {
    if k == 0 then a else AreaUndoTimes(AreaUndo(a), k - 1)
  }

  /** `k` redos of the area. */
  function AreaRedoTimes(a: Area, k: nat): Area
    decreases k
  {
    if k == 0 then a else AreaRedoTimes(AreaRedo(a), k - 1)
  }

  /** A run of key presses acts on the focused area alone, as the same run of edits on it. */
  lemma {:induction false} TypingOnArea(s: Session, key: string, e: KeyEffects, values: seq<string>)
    requires WellShaped(s) && s.state == Default && !CommandKey(key) && values != []
    ensures Typing(s, key, e, values) == WithFocusedArea(s, AreaTyping(FocusedArea(s), values))
    decreases |values|
  {
    var n := |values|;
    var front, v := values[..n - 1], values[n - 1];
    var before := Typing(s, key, e, front);
    PressEdits(before, key, e.(edited := v));
    if front == [] {
      assert before == s;
    } else {
      TypingOnArea(s, key, e, front);
      WithFocusedAreaTwice(s, AreaTyping(FocusedArea(s), front), AreaTyping(FocusedArea(s), values));
    }
  }

  /** `k > 0` presses of ctrl+z act on the focused area alone, as `k` undos of it. */
  lemma {:induction false} UndoTimesOnArea(s: Session, k: nat, e: KeyEffects)
    requires WellShaped(s) && s.state == Default && k > 0
    ensures UndoTimes(s, k, e) == WithFocusedArea(s, AreaUndoTimes(FocusedArea(s), k))
    decreases k
  {
    var a := FocusedArea(s);
    PressUndoes(s, e);
    var next := WithFocusedArea(s, AreaUndo(a));
    if k > 1 {
      UndoTimesOnArea(next, k - 1, e);
      WithFocusedAreaTwice(s, AreaUndo(a), AreaUndoTimes(AreaUndo(a), k - 1));
    }
  }

  /** `k > 0` presses of ctrl+y act on the focused area alone, as `k` redos of it. */
  lemma {:induction false} RedoTimesOnArea(s: Session, k: nat, e: KeyEffects)
    requires WellShaped(s) && s.state == Default && k > 0
    ensures RedoTimes(s, k, e) == WithFocusedArea(s, AreaRedoTimes(FocusedArea(s), k))
    decreases k
  {
    var a := FocusedArea(s);
    PressRedoes(s, e);
    var next := WithFocusedArea(s, AreaRedo(a));
    if k > 1 {
      RedoTimesOnArea(next, k - 1, e);
      WithFocusedAreaTwice(s, AreaRedo(a), AreaRedoTimes(AreaRedo(a), k - 1));
    }
  }

  function Reversed(xs: seq<string>): (r: seq<string>)
    ensures |r| == |xs|
  {
    if xs == [] then [] else Reversed(xs[1..]) + [xs[0]]
  }

  /**
   * The area at the `j`-th of the values it has held, `history`: the
   * earlier values on its undo stack above `base`, the later ones on its
   * redo stack with the next one on top.
   */
  function AreaAt(base: seq<string>, history: seq<string>, j: nat): Area
    requires j < |history|
  {
    Area(history[j], base + history[..j], Reversed(history[j + 1..]))
  }

  /** Each value of `history` differs from the one before it. */
  ghost predicate EachChanges(history: seq<string>) {
    forall i, j :: 0 <= i < j < |history| && j == i + 1 ==> history[i] != history[j]
  }

  /** `n` changing edits leave the area at the last of its `n + 1` values, with redo empty. */
  lemma {:induction false} AreaTypingHistory(a: Area, values: seq<string>)
    requires values != [] && EachChanges([a.value] + values)
    ensures AreaTyping(a, values) == AreaAt(a.undo, [a.value] + values, |values|)
    decreases |values|
  {
    var n := |values|;
    var history := [a.value] + values;
    assert history[n - 1] != history[n];
    assert values[n - 1] == history[n];
    var front := values[..n - 1];
    assert [a.value] + front == history[..n];
    if n == 1 {
      assert AreaTyping(a, front) == a;
      assert history[..1] == [a.value] && history[2..] == [];
    } else {
      assert EachChanges(history[..n]) by {
        forall i, j | 0 <= i < j < n && j == i + 1 ensures history[..n][i] != history[..n][j] {
          assert history[i] != history[j];
        }
      }
      AreaTypingHistory(a, front);
      assert a.undo + history[..n - 1] + [history[n - 1]] == a.undo + history[..n];
      assert history[n + 1..] == [];
    }
  }

  /** `k` undos from the `j`-th value reach the `(j - k)`-th. */
  lemma {:induction false} AreaUndoRun(base: seq<string>, history: seq<string>, j: nat, k: nat)
    requires k <= j < |history|
    ensures AreaUndoTimes(AreaAt(base, history, j), k) == AreaAt(base, history, j - k)
    decreases k
  {
    if k > 0 {
      var u := base + history[..j];
      assert u[..|u| - 1] == base + history[..j - 1];
      assert history[j..] == [history[j]] + history[j + 1..];
      AreaUndoRun(base, history, j - 1, k - 1);
    }
  }

  /** `k` redos from the `j`-th value reach the `(j + k)`-th. */
  lemma {:induction false} AreaRedoRun(base: seq<string>, history: seq<string>, j: nat, k: nat)
    requires j + k < |history|
    ensures AreaRedoTimes(AreaAt(base, history, j), k) == AreaAt(base, history, j + k)
    decreases k
  {
    if k > 0 {
      assert history[j + 1..] == [history[j + 1]] + history[j + 2..];
      var r := Reversed(history[j + 1..]);
      assert r[..|r| - 1] == Reversed(history[j + 2..]);
      assert base + history[..j] + [history[j]] == base + history[..j + 1];
      AreaRedoRun(base, history, j + 1, k - 1);
    }
  }

  /**
   * After `n` edits that each change the area, `k <= n` undos leave it
   * holding its value after the first `n - k` edits, with those earlier
   * values on its undo stack, and `k` redos then give back the area exactly
   * as the edits left it.
   */
  lemma UndoRedoRun(a: Area, values: seq<string>, k: nat)
    requires values != [] && EachChanges([a.value] + values) && k <= |values|
    ensures var history, n := [a.value] + values, |values|;
            var undone := AreaUndoTimes(AreaTyping(a, values), k);
            && undone.value == history[n - k]
            && undone.undo == a.undo + history[..n - k]
            && AreaRedoTimes(undone, k) == AreaTyping(a, values)
  {
    var history, n := [a.value] + values, |values|;
    var typed := AreaTyping(a, values);
    AreaTypingHistory(a, values);
    assert typed == AreaAt(a.undo, history, n);
    AreaUndoRun(a.undo, history, n, k);
    var undone := AreaUndoTimes(typed, k);
    var middle := AreaAt(a.undo, history, n - k);
    assert undone == middle;
    assert middle.value == history[n - k] && middle.undo == a.undo + history[..n - k];
    AreaRedoRun(a.undo, history, n - k, k);
    assert AreaRedoTimes(middle, k) == AreaAt(a.undo, history, n);
  }

  /**
   * The same run as key presses: `n` changing edits of the focused area,
   * then `k <= n` presses of ctrl+z, leave it holding its value after the
   * first `n - k` edits, the earlier values on its undo stack and the other
   * area untouched; `k` presses of ctrl+y then give back the session
   * exactly as the edits left it.
   */
  lemma PressUndoRedoRun(s: Session, key: string, e: KeyEffects, values: seq<string>,
                         k: nat, undoKeys: KeyEffects, redoKeys: KeyEffects)
    requires WellShaped(s) && s.state == Default && !CommandKey(key)
    requires values != [] && EachChanges([s.inputs[s.focused]] + values) && k <= |values|
    ensures var edited := Typing(s, key, e, values);
            var undone := UndoTimes(edited, k, undoKeys);
            var history, n, f := [s.inputs[s.focused]] + values, |values|, s.focused;
            && undone.inputs == s.inputs[f := history[n - k]]
            && undone.undoHistory == s.undoHistory[f := s.undoHistory[f] + history[..n - k]]
            && RedoTimes(undone, k, redoKeys) == edited
  {
    var a := FocusedArea(s);
    var typed := AreaTyping(a, values);
    var undoneArea := AreaUndoTimes(typed, k);
    UndoRedoRun(a, values, k);
    TypingOnArea(s, key, e, values);
    if k > 0 {
      var edited := WithFocusedArea(s, typed);
      UndoTimesOnArea(edited, k, undoKeys);
      WithFocusedAreaTwice(s, typed, undoneArea);
      var undone := WithFocusedArea(s, undoneArea);
      RedoTimesOnArea(undone, k, redoKeys);
      WithFocusedAreaTwice(s, undoneArea, AreaRedoTimes(undoneArea, k));
    }
  }

  /** An edit that changes the area, then ctrl+z, restores the area and its undo stack; the redo stack holds the edit. */
  lemma EditThenUndo(s: Session, key: string, e: KeyEffects, undoKeys: KeyEffects)
    requires WellShaped(s) && s.state == Default && !CommandKey(key)
    requires e.edited != s.inputs[s.focused]
    ensures var f := s.focused;
            var edited := Press(s, key, e).next;
            && WellShaped(edited) && edited.state == Default
            && Press(edited, "ctrl+z", undoKeys).next
               == s.(redoHistory := s.redoHistory[f := [e.edited]], oKeyPressCount := 0)
  {
    var f, a := s.focused, FocusedArea(s);
    PressEdits(s, key, e);
    var edited := WithFocusedArea(s, AreaEdit(a, e.edited));
    PressUndoes(edited, undoKeys);
    WithFocusedAreaTwice(s, AreaEdit(a, e.edited), AreaUndo(AreaEdit(a, e.edited)));
    var u := a.undo + [a.value];
    assert u[..|u| - 1] == a.undo;
    assert AreaUndo(AreaEdit(a, e.edited)) == Area(a.value, a.undo, [e.edited]);
    assert s.inputs[f := s.inputs[f]] == s.inputs;
    assert s.undoHistory[f := s.undoHistory[f]] == s.undoHistory;
  }

  // ---------------------------------------------------------------------
  // Editing, focus and the o-counter (src/tui.go:380-384, 444-465)
  // ---------------------------------------------------------------------

  /** The keys `updateDefault` handles itself, before the text area sees them. */
  predicate CommandKey(key: string) {
    key in {"f12", "ctrl+c", "ctrl+z", "ctrl+y", "ctrl+o", "ctrl+s", "ctrl+g", "tab", "o"}
  }

  /**
   * Any other key goes to the focused text area. A change pushes the old
   * value on that area's undo stack and clears its redo stack; no change
   * touches neither. The other area and its stacks stay as they were.
   */
  lemma EditRecording(s: Session, key: string, effects: KeyEffects)
    requires WellShaped(s) && s.state == Default && !CommandKey(key)
    ensures var t := Press(s, key, effects);
            var f, v := s.focused, effects.edited;
            && t.cmds == []
            && t.next.inputs[1 - f] == s.inputs[1 - f]
            && t.next.undoHistory[1 - f] == s.undoHistory[1 - f]
            && t.next.redoHistory[1 - f] == s.redoHistory[1 - f]
            && (v != s.inputs[f] ==>
                  && t.next.inputs == s.inputs[f := v]
                  && t.next.undoHistory[f] == s.undoHistory[f] + [s.inputs[f]]
                  && t.next.redoHistory[f] == []
                  && t.next.(inputs := s.inputs, undoHistory := s.undoHistory, redoHistory := s.redoHistory)
                     == s.(oKeyPressCount := 0))
            && (v == s.inputs[f] ==> t.next == s.(oKeyPressCount := 0))
  {
  }

  /** tab moves the focus to the other area and changes nothing else but the o-counter. */
  lemma TabSwitchesFocus(s: Session, effects: KeyEffects)
    requires WellShaped(s) && s.state == Default
    ensures Press(s, "tab", effects) == Transition(s.(focused := (s.focused + 1) % 2, oKeyPressCount := 0), [BlinkCmd])
  {
  }

  /** The fifth 'o' in a row asks for the debug log; an earlier one counts and is typed. */
  lemma OKeyCounter(s: Session, effects: KeyEffects)
    requires WellShaped(s) && s.state == Default && 0 <= s.oKeyPressCount < 5
    ensures var t := Press(s, "o", effects);
            && (s.oKeyPressCount == 4 ==> t == Transition(s.(oKeyPressCount := 0), [WriteLogCmd]))
            && (s.oKeyPressCount < 4 ==>
                  t == Transition(Edit(s.(oKeyPressCount := s.oKeyPressCount + 1), effects.edited), []))
  {
  }

  // ---------------------------------------------------------------------
  // Starting a generation (src/tui.go:430-442, 497-529, 545-561)
  // ---------------------------------------------------------------------

  /**
   * ctrl+g refuses an empty vocabulary or a missing API key with a status
   * and an error reset; otherwise it opens the model list. Whether a
   * generation is already running plays no part.
   */
  lemma GenerateGuard(s: Session, effects: KeyEffects)
    requires WellShaped(s) && s.state == Default
    ensures var t := Press(s, "ctrl+g", effects);
            && (s.inputs[InputIdx] == "" ==>
                  t == Transition(s.(oKeyPressCount := 0, status := InputEmpty),
                                  [ResetErrorCmd]))
            && (s.inputs[InputIdx] != "" && s.apiKey == "" ==>
                  t == Transition(s.(oKeyPressCount := 0,
                                     status := ApiKeyMissing),
                                  [ResetErrorCmd]))
            && (s.inputs[InputIdx] != "" && s.apiKey != "" ==>
                  t == Transition(s.(oKeyPressCount := 0, state := SelectModel, listItems := GenerationModels), []))
  {
  }

  /** enter on a model records its id and opens the question types; only GPT-5 pro warns. */
  lemma ModelChosen(s: Session, effects: KeyEffects)
    requires WellShaped(s) && s.state == SelectModel && s.listItems == GenerationModels
    requires effects.highlighted < |GenerationModels|
    ensures var i := effects.highlighted;
            Press(s, "enter", effects)
            == Transition(s.(selectedModel := GenerationModels[i].id, state := SelectQType, listItems := QTypes,
                             status := if i == 0 then HighCostWarning else s.status),
                          [])
  {
  }

  /**
   * enter on a question type records it; the fill-in type asks for the
   * number of sentences, the other two start generating with a count of 1.
   */
  lemma QuestionTypeChosen(s: Session, effects: KeyEffects)
    requires WellShaped(s) && s.state == SelectQType && s.listItems == QTypes
    requires effects.highlighted < |QTypes|
    ensures var i := effects.highlighted;
            var t := Press(s, "enter", effects);
            && (i == 0 ==>
                  t == Transition(s.(selectedQType := FillInBlank, state := EnterSentences,
                                     numInput := s.numSentences, status := EnterSentenceCount),
                                  []))
            && (i != 0 ==>
                  && t.next == s.(selectedQType := QTypes[i].id, state := Default, isGenerating := true,
                                  generationSeconds := 0, status := Generating)
                  && t.cmds == [GenerateCmd(s.apiKey, s.selectedModel,
                                            Shuffle(ParseBlock(s.inputs[InputIdx]), effects.draws),
                                            QTypes[i].id, 1),
                                TickCmd])
  {
    assert FillInBlank != EnglishDefinition && FillInBlank != DefinitionJudgement;
  }

  /** enter on the sentence count stores it and starts generating with `Atoi` of it. */
  lemma SentencesEntered(s: Session, effects: KeyEffects)
    requires WellShaped(s) && s.state == EnterSentences
    ensures var t := Press(s, "enter", effects);
            && t.next == s.(numSentences := s.numInput, state := Default, isGenerating := true,
                            generationSeconds := 0, status := Generating)
            && t.cmds == [GenerateCmd(s.apiKey, s.selectedModel,
                                      Shuffle(ParseBlock(s.inputs[InputIdx]), effects.draws),
                                      s.selectedQType, Atoi(s.numInput)),
                          TickCmd]
  {
  }

  // ---------------------------------------------------------------------
  // Escape (src/tui.go:298-301, 479-482, 532-536, 562-566)
  // ---------------------------------------------------------------------

  /** esc in any other state than the default one returns to it; in the three generation states it also stops generating. */
  lemma Escape(s: Session, effects: KeyEffects)
    requires WellShaped(s) && s.state != Default
    ensures var t := Press(s, "esc", effects);
            && t.next.state == Default
            && t.cmds == [ResetSuccessCmd]
            && (s.state in {SelectModel, SelectQType, EnterSentences} ==>
                  t.next == s.(isGenerating := false, state := Default, status := GenerationCancelled))
            && (s.state == SaveFilepath ==> t.next == s.(state := Default, status := SaveCancelled))
            && (s.state == FilePicker ==> t.next == s.(state := Default, status := FileSelectionCancelled))
  {
  }

  // ---------------------------------------------------------------------
  // The ticker (src/tui.go:320-326)
  // ---------------------------------------------------------------------

  /** A tick while generating adds one second and asks for exactly one more tick; otherwise it does nothing. */
  lemma Tick(s: Session)
    requires WellShaped(s)
    ensures var t := Step(s, TickMsg);
            && (s.isGenerating ==>
                  t == Transition(s.(generationSeconds := s.generationSeconds + 1,
                                     status := GeneratingFor(s.generationSeconds + 1)),
                                  [TickCmd]))
            && (!s.isGenerating ==> t == Transition(s, []))
  {
  }

  /** The session after `n` ticks, each answered by the next. */
  function Ticks(s: Session, n: nat): Session
    requires WellShaped(s)
    ensures WellShaped(Ticks(s, n))
    decreases n
  {
    if n == 0 then s else Ticks(Step(s, TickMsg).next, n - 1)
  }

  /** While generating, the tick chain sustains itself: `n` ticks count `n` seconds and keep the rest. */
  lemma {:induction false} TickChain(s: Session, n: nat)
    requires WellShaped(s) && s.isGenerating
    ensures Ticks(s, n).generationSeconds == s.generationSeconds + n
    ensures Ticks(s, n).isGenerating
    ensures Ticks(s, n).(generationSeconds := s.generationSeconds, status := s.status) == s
    decreases n
  {
    if n > 0 {
      Tick(s);
      TickChain(Step(s, TickMsg).next, n - 1);
    }
  }

  // ---------------------------------------------------------------------
  // Results of commands (src/tui.go:328-354)
  // ---------------------------------------------------------------------

  /**
   * A generation result always stops generating. Text replaces the output
   * area, without an undo entry, and returns to the default state; an
   * error keeps the buffers and the state.
   */
  lemma GenerationResult(s: Session, result: Result<string, string>)
    requires WellShaped(s)
    ensures var t := Step(s, GenerationResultMsg(result));
            && !t.next.isGenerating
            && t.next.undoHistory == s.undoHistory && t.next.redoHistory == s.redoHistory
            && (result.Success? ==>
                  t == Transition(s.(isGenerating := false, status := GenerationComplete,
                                     inputs := s.inputs[OutputIdx := result.value], state := Default),
                                  [ResetSuccessCmd]))
            && (result.Failure? ==>
                  t == Transition(s.(isGenerating := false, status := GenerationError(result.error)),
                                  [ResetErrorCmd]))
  {
  }

  /** A file read replaces the input area without an undo entry and names the file by its base name. */
  lemma FileRead(s: Session, content: string, path: string)
    requires WellShaped(s)
    ensures Step(s, FileReadMsg(content, path))
            == Transition(s.(inputs := s.inputs[InputIdx := content], inputFilePath := path,
                             status := LoadedFile(Base(path)), state := Default),
                          [ResetSuccessCmd])
  {
  }

  /** A written file returns to the default state and names the file by its base name; the buffers stay. */
  lemma FileWritten(s: Session, path: string)
    requires WellShaped(s)
    ensures Step(s, FileWriteMsg(path))
            == Transition(s.(status := SavedTo(Base(path)), state := Default), [ResetSuccessCmd])
  {
  }

  /** The debug log's outcome is shown, an error with an error reset; nothing else changes. */
  lemma DebugLogOutcome(s: Session, writeError: Option<string>)
    requires WellShaped(s)
    ensures var t := Step(s, DebugFileWrittenMsg(writeError));
            && (writeError.Some? ==> t == Transition(s.(status := DebugLogError(writeError.value)), [ResetErrorCmd]))
            && (writeError.None? ==> t == Transition(s.(status := DebugLogWritten), [ResetSuccessCmd]))
  {
  }

  /** In a reachable session, resetting the status brings back the help line and nothing else. */
  lemma ResetStatus(s: Session)
    requires Inv(s)
    ensures Step(s, ResetStatusMsg) == Transition(s.(status := Help), [])
  {
  }

  /** An error message is recorded and nothing else changes. */
  lemma ErrorRecorded(s: Session, error: string)
    requires WellShaped(s)
    ensures Step(s, ErrMsg(error)) == Transition(s.(err := Some(error)), [])
  {
  }

  /**
   * ctrl+o reads word.txt itself rather than opening the file picker: its
   * content replaces the input area without an undo entry, or the error
   * is shown and nothing else changes.
   */
  lemma LoadWordFile(s: Session, effects: KeyEffects)
    requires WellShaped(s) && s.state == Default
    ensures var t := Press(s, "ctrl+o", effects);
            && t.next.state == Default
            && (effects.wordFile.Success? ==>
                  t == Transition(s.(oKeyPressCount := 0, inputFilePath := WordFile,
                                     inputs := s.inputs[InputIdx := effects.wordFile.value],
                                     status := LoadedPath(WordFile)),
                                  [ResetSuccessCmd]))
            && (effects.wordFile.Failure? ==>
                  t == Transition(s.(oKeyPressCount := 0, status := WordFileError(effects.wordFile.error)),
                                  []))
  {
  }

  // ---------------------------------------------------------------------
  // Keys of every state (src/tui.go:281-294)
  // ---------------------------------------------------------------------

  /** ctrl+c quits from every state and changes nothing. */
  lemma CtrlCQuits(s: Session, effects: KeyEffects)
    requires WellShaped(s)
    ensures Press(s, "ctrl+c", effects) == Transition(s, [QuitCmd])
  {
  }

  /** f12 flips mouse reporting in every state; pressed twice it restores the flag and touches only the status. */
  lemma MouseToggleTwice(s: Session, e1: KeyEffects, e2: KeyEffects)
    requires WellShaped(s)
    ensures Press(s, "f12", e1).next.mouseEnabled == !s.mouseEnabled
    ensures WellShaped(Press(s, "f12", e1).next)
    ensures Press(Press(s, "f12", e1).next, "f12", e2).next
            == s.(status := if s.mouseEnabled then MouseEnabled else MouseDisabled)
  {
  }

  // ---------------------------------------------------------------------
  // Saving (src/tui.go:419-428, 473-478)
  // ---------------------------------------------------------------------

  /** ctrl+s asks for a path, proposing `SaveName` of the loaded file. */
  lemma SaveOpensPathInput(s: Session, effects: KeyEffects)
    requires WellShaped(s) && s.state == Default
    ensures Press(s, "ctrl+s", effects)
            == Transition(s.(oKeyPressCount := 0, state := SaveFilepath, pathInput := SaveName(s.inputFilePath),
                             status := EnterSavePath),
                          [])
  {
  }

  /** Without a loaded file the proposal is "result_problem.txt". */
  lemma SaveNameWithoutFile()
    ensures SaveName("") == "result_problem.txt"
  {
  }

  /** The proposal for a file is its name with one ".txt" dropped, then "_problem.txt". */
  lemma SaveNameOfFile(dir: string, name: string)
    requires name != "" && '/' !in name
    ensures SaveName(dir + "/" + name + ".txt") == name + "_problem.txt"
  {
    var file := name + ".txt";
    assert dir + "/" + name + ".txt" == dir + "/" + file;
    BaseAfterSlash(dir, file);
    assert file[|file| - 4..] == ".txt";
    var r := TrimSuffix(file, ".txt");
    assert r + ".txt" == file;
    assert r == (r + ".txt")[..|r|] == file[..|name|] == name;
  }

  /** After ctrl+o the proposal is "word_problem.txt". */
  lemma SaveNameOfWordFile()
    ensures SaveName(WordFile) == "word_problem.txt"
  {
    LastElementWhole(WordFile);
    assert HasSuffix(WordFile, ".txt");
    assert TrimSuffix(WordFile, ".txt") == "word";
  }

  /** enter with an empty path does nothing; with a path it writes the output area there. */
  lemma SaveConfirmed(s: Session, effects: KeyEffects)
    requires WellShaped(s) && s.state == SaveFilepath
    ensures var t := Press(s, "enter", effects);
            && (s.pathInput == "" ==> t == Transition(s, []))
            && (s.pathInput != "" ==>
                  t == Transition(s.(state := Default, status := Saving),
                                  [WriteFileCmd(s.pathInput, s.inputs[OutputIdx])]))
  {
  }

  // ---------------------------------------------------------------------
  // The reachable sessions (src/tui.go:159-175, 293-317, 405-417)
  // ---------------------------------------------------------------------

  /**
   * What every reachable session satisfies: the list shows the models while
   * a model is chosen and the question types while a type is chosen, the
   * o-counter stays below five, the clock is not negative, the default
   * status never changes, and the file picker is never entered (ctrl+o
   * reads word.txt itself).
   */
  predicate Inv(s: Session) {
    && WellShaped(s)
    && s.state != FilePicker
    && (s.state == SelectModel ==> s.listItems == GenerationModels)
    && (s.state == SelectQType ==> s.listItems == QTypes)
    && 0 <= s.oKeyPressCount < 5
    && s.generationSeconds >= 0
    && s.defaultStatus == Help
  }

  lemma InitialInv(apiKey: string)
    ensures Inv(Initial(apiKey))
  {
  }

  /** Every message keeps the invariant. */
  lemma StepPreservesInv(s: Session, msg: Msg)
    requires Inv(s)
    ensures Inv(Step(s, msg).next)
  {
    if msg.KeyMsg? {
      KeyPreservesInv(s, msg.key, msg.effects);
    }
  }

  lemma KeyPreservesInv(s: Session, key: string, effects: KeyEffects)
    requires Inv(s)
    ensures Inv(KeyStep(s, key, effects).next)
  {
    if key != "f12" && key != "ctrl+c" {
      match s.state
      case SaveFilepath =>
      case SelectModel => ListPreservesInv(s, key, effects);
      case SelectQType => ListPreservesInv(s, key, effects);
      case EnterSentences =>
      case Default => DefaultPreservesInv(s, key, effects);
    }
  }

  lemma DefaultPreservesInv(s: Session, key: string, effects: KeyEffects)
    requires Inv(s) && s.state == Default
    ensures Inv(DefaultStep(s, key, effects).next)
  {
    if key in {"ctrl+o", "ctrl+s", "ctrl+g"} {
      MenuKeyPreservesInv(s, key, effects);
    } else if key in {"ctrl+z", "ctrl+y"} {
      HistoryKeyPreservesInv(s, key, effects);
    } else {
      TypingPreservesInv(s, key, effects);
    }
  }

  /** The keys that load, save or start choosing a generation. */
  lemma MenuKeyPreservesInv(s: Session, key: string, effects: KeyEffects)
    requires Inv(s) && s.state == Default && key in {"ctrl+o", "ctrl+s", "ctrl+g"}
    ensures Inv(DefaultStep(s, key, effects).next)
  {
  }

  /** Undo and redo. */
  lemma HistoryKeyPreservesInv(s: Session, key: string, effects: KeyEffects)
    requires Inv(s) && s.state == Default && key in {"ctrl+z", "ctrl+y"}
    ensures Inv(DefaultStep(s, key, effects).next)
  {
  }

  /** tab, the o-counter and plain edits. */
  lemma TypingPreservesInv(s: Session, key: string, effects: KeyEffects)
    requires Inv(s) && s.state == Default && key !in {"ctrl+o", "ctrl+s", "ctrl+g", "ctrl+z", "ctrl+y"}
    ensures Inv(DefaultStep(s, key, effects).next)
  {
  }

  lemma ListPreservesInv(s: Session, key: string, effects: KeyEffects)
    requires Inv(s) && (s.state == SelectModel || s.state == SelectQType)
    ensures Inv(ListSelectionStep(s, key, effects).next)
  {
  }

  /** The session after a sequence of messages, each handled in turn. */
  function Run(s: Session, msgs: seq<Msg>): (r: Session)
    requires Inv(s)
    ensures Inv(r)
    decreases |msgs|
  {
    if msgs == [] then s
    else
      StepPreservesInv(s, msgs[0]);
      Run(Step(s, msgs[0]).next, msgs[1..])
  }

  /** No sequence of messages from the initial session reaches the file picker. */
  lemma FilePickerUnreachable(apiKey: string, msgs: seq<Msg>)
    ensures Run(Initial(apiKey), msgs).state != FilePicker
  {
    InitialInv(apiKey);
  }

  // ---------------------------------------------------------------------
  // What a generation asks for (src/tui.go:519-528, 552-561)
  // ---------------------------------------------------------------------

  /**
   * The entries a generation sends are the input's entries in some order,
   * and the user prompt built from them parses back to exactly them: the
   * model is asked about every entry of the input, each once.
   */
  lemma GenerationRequestRoundTrip(vocabBlock: string, draws: seq<nat>)
    ensures var parsed := Shuffle(ParseBlock(vocabBlock), draws);
            && multiset(parsed) == multiset(ParseBlock(vocabBlock))
            && ParseBlock(UserPrompt(parsed)) == parsed
  {
    var entries := ParseBlock(vocabBlock);
    var parsed := Shuffle(entries, draws);
    ParseBlockWellFormed(vocabBlock);
    forall k | 0 <= k < |parsed|
      ensures WellFormed(parsed[k])
    {
      assert parsed[k] in multiset(entries);
      var j :| 0 <= j < |entries| && entries[j] == parsed[k];
    }
    RoundTrip(parsed);
  }
}
