/**
 * The failed-dice picker of src/components/FailedRollSelector.tsx: the user
 * taps the dice of a roll that failed, then confirms the list or declares
 * that none failed. The selection is the list of tapped die indices in the
 * order they were first added. The zoom-in of the dice on mount is left to
 * the renderer.
 */
module FailedRollSelector {

  import opened Common

  datatype Event =
    | Tap(light: bool)
    | SuccessFeedback
    | PulseStarted(index: int)
    | FailedSelected(indices: seq<int>)
    | Skipped

  /** The selection when the picker mounts. */
  const InitialSelection: seq<int> := []

  predicate NoDuplicates(s: seq<int>)
  {
    forall i, j :: 0 <= i < j < |s| ==> s[i] != s[j]
  }

  /**
   * `toggleDieSelection`: a selected index is removed (with a light tap); an
   * unselected one is appended, with a tap and a pulse of that die.
   */
  function Toggle(selected: seq<int>, index: int): (r: (seq<int>, seq<Event>))
    ensures index in r.0 <==> index !in selected
    ensures forall j :: j != index ==> (j in r.0 <==> j in selected)
    ensures index in selected ==> r.1 == [Tap(true)]
    ensures index !in selected ==> r.0 == selected + [index] && r.1 == [Tap(false), PulseStarted(index)]
  {
    if Includes(selected, index) then (RemoveAll(selected, index), [Tap(true)])
    else (selected + [index], [Tap(false), PulseStarted(index)])
  }

  /** A pulse starts exactly when the tap adds the die. */
  lemma PulseOnlyOnAdd(selected: seq<int>, index: int)
    ensures PulseStarted(index) in Toggle(selected, index).1 <==> index !in selected
    ensures forall e :: e in Toggle(selected, index).1 && e.PulseStarted? ==> e.index == index && index !in selected
  {
  }

  /** Removing an index keeps the others in their order, so a list without duplicates keeps none. */
  lemma {:induction false} RemoveAllKeepsNoDuplicates(s: seq<int>, x: int)
    requires NoDuplicates(s)
    ensures NoDuplicates(RemoveAll(s, x))
  {
    if |s| > 0 {
      RemoveAllKeepsNoDuplicates(s[1..], x);
      var rest := RemoveAll(s[1..], x);
      if s[0] != x {
        assert s[0] !in s[1..];
        assert s[0] !in rest;
        assert RemoveAll(s, x) == [s[0]] + rest;
      }
    }
  }

  /** Toggling never lists a die twice. */
  lemma ToggleKeepsNoDuplicates(selected: seq<int>, index: int)
    requires NoDuplicates(selected)
    ensures NoDuplicates(Toggle(selected, index).0)
  {
    if index in selected {
      RemoveAllKeepsNoDuplicates(selected, index);
    }
  }

  /**
   * Toggling the same die twice restores the selection: exactly when it was
   * not selected, and as a set when it was (it moves to the end).
   */
  lemma ToggleTwiceRestores(selected: seq<int>, index: int)
    ensures var twice := Toggle(Toggle(selected, index).0, index).0;
      (forall j :: j in twice <==> j in selected)
      && (index !in selected ==> twice == selected)
  {
    if index !in selected {
      RemoveAllAppend(selected, [index], index);
      RemoveAllAbsent(selected, index);
      assert RemoveAll([index], index) == [];
    }
  }

  /** The selection after a series of taps, starting from `selected`. */
  function ToggleAll(selected: seq<int>, taps: seq<int>): seq<int>
    decreases |taps|
  {
    if |taps| == 0 then selected else ToggleAll(Toggle(selected, taps[0]).0, taps[1..])
  }

  /** After any taps a die is selected exactly when it started selected and was tapped an even number of times, or the other way round. */
  lemma {:induction false} SelectedIffOddTaps(selected: seq<int>, taps: seq<int>, j: int)
    ensures j in ToggleAll(selected, taps) <==> (j in selected) != (multiset(taps)[j] % 2 == 1)
    decreases |taps|
  {
    if |taps| > 0 {
      SelectedIffOddTaps(Toggle(selected, taps[0]).0, taps[1..], j);
      assert taps == [taps[0]] + taps[1..];
      assert multiset(taps) == multiset([taps[0]]) + multiset(taps[1..]);
    }
  }

  /** From the empty selection, the dice selected are exactly those tapped an odd number of times, each listed once. */
  lemma {:induction false} SelectionFromEmpty(taps: seq<int>)
    ensures forall j :: j in ToggleAll(InitialSelection, taps) <==> multiset(taps)[j] % 2 == 1
    ensures NoDuplicates(ToggleAll(InitialSelection, taps))
  {
    forall j
      ensures j in ToggleAll(InitialSelection, taps) <==> multiset(taps)[j] % 2 == 1
    {
      SelectedIffOddTaps(InitialSelection, taps, j);
    }
    ToggleAllKeepsNoDuplicates(InitialSelection, taps);
  }

  lemma {:induction false} ToggleAllKeepsNoDuplicates(selected: seq<int>, taps: seq<int>)
    requires NoDuplicates(selected)
    ensures NoDuplicates(ToggleAll(selected, taps))
    decreases |taps|
  {
    if |taps| > 0 {
      ToggleKeepsNoDuplicates(selected, taps[0]);
      ToggleAllKeepsNoDuplicates(Toggle(selected, taps[0]).0, taps[1..]);
    }
  }

  /** The confirm button is disabled while nothing is selected. */
  predicate ConfirmDisabled(selected: seq<int>)
  {
    |selected| == 0
  }

  /** `handleConfirm` behind its button: success feedback, then the current selection handed over as it stands. */
  function Confirm(selected: seq<int>): (events: seq<Event>)
    ensures events == [] <==> ConfirmDisabled(selected)
    ensures events != [] ==> events == [SuccessFeedback, FailedSelected(selected)]
  {
    if ConfirmDisabled(selected) then [] else [SuccessFeedback, FailedSelected(selected)]
  }

  /** `handleSkip`: a tap and the skip callback; the selection is left as it is. */
  function Skip(selected: seq<int>): (r: (seq<int>, seq<Event>))
    ensures r.0 == selected
    ensures Skipped in r.1 && forall e :: e in r.1 ==> !e.FailedSelected?
  {
    (selected, [Tap(false), Skipped])
  }

  /** A confirmed list names exactly the dice tapped an odd number of times, each once. */
  lemma ConfirmedListIsOddTaps(taps: seq<int>)
    ensures var selected := ToggleAll(InitialSelection, taps);
      forall e :: e in Confirm(selected) && e.FailedSelected? ==>
        NoDuplicates(e.indices) && forall j :: j in e.indices <==> multiset(taps)[j] % 2 == 1
  {
    SelectionFromEmpty(taps);
  }

  /**
   * Skipping after any taps reports the skip once and no failed dice, keeps
   * the odd-tapped selection, so a later confirm would hand over the same
   * list; a confirm never reports a skip.
   */
  lemma SkipKeepsSelection(taps: seq<int>)
    ensures var selected := ToggleAll(InitialSelection, taps);
      && (forall j :: j in Skip(selected).0 <==> multiset(taps)[j] % 2 == 1)
      && Confirm(Skip(selected).0) == Confirm(selected)
      && multiset(Skip(selected).1)[Skipped] == 1
      && (forall e :: e in Skip(selected).1 ==> !e.FailedSelected?)
      && Skipped !in Confirm(selected)
  {
    SelectionFromEmpty(taps);
  }
}
