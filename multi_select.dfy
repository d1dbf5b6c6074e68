/**
 * The multi-select variable hook: the dropdown's open flag and the list of selected values,
 * updated by one handler per custom DOM event, plus the handlers that filter the option list
 * by a search text and click every checkbox to clear or select all.
 */
module MultiSelectVariable {
  import opened JsText

  /** The `lmn_variable_updated` event pushed to the server. */
  datatype VariableUpdate = VariableUpdate(variable: string, value: seq<string>)

  predicate NoDup(s: seq<string>)
  {
    forall i, j :: 0 <= i < j < |s| ==> s[i] != s[j]
  }

  /** valueClicked on a plain list: splice out the first occurrence of v, or push v. */
  function Toggle(values: seq<string>, v: string): seq<string>
  {
    var index := IndexOf(values, v);
    if index > -1 then values[..index] + values[index + 1..] else values + [v]
  }

  /** A value already selected loses its first occurrence, and nothing else: the list is one
      shorter, the elements before and after it keep their order, one copy of v is gone. */
  lemma ToggleRemovesFirst(values: seq<string>, v: string)
    requires v in values
    ensures var r := Toggle(values, v);
            && |r| == |values| - 1
            && multiset(r) == multiset(values) - multiset{v}
            && exists i :: 0 <= i < |values| && values[i] == v && v !in values[..i]
                           && r == values[..i] + values[i + 1..]
  {
    var i := IndexOf(values, v);
    assert values == values[..i] + [v] + values[i + 1..];
  }

  /** A value not yet selected goes to the end. */
  lemma ToggleAppends(values: seq<string>, v: string)
    requires v !in values
    ensures Toggle(values, v) == values + [v]
    ensures multiset(Toggle(values, v)) == multiset(values) + multiset{v}
  {
  }

  /** On a list without duplicates, toggling flips exactly v's membership and adds no duplicate. */
  lemma ToggleKeepsNoDup(values: seq<string>, v: string)
    requires NoDup(values)
    ensures NoDup(Toggle(values, v))
    ensures v in Toggle(values, v) <==> v !in values
    ensures forall w :: w != v ==> (w in Toggle(values, v) <==> w in values)
  {
    var r := Toggle(values, v);
    if v in values {
      var i := IndexOf(values, v);
      assert values == values[..i] + [v] + values[i + 1..];
      RemoveKeepsNoDup(values, i);
      assert multiset(r) == multiset(values) - multiset{v};
      assert multiset(values)[v] == 1 by {
        NoDupOnce(values, i);
      }
    } else {
      ToggleAppends(values, v);
    }
  }

  /** Splicing one element out of a list without duplicates leaves none. */
  lemma RemoveKeepsNoDup(values: seq<string>, i: nat)
    requires NoDup(values) && i < |values|
    ensures NoDup(values[..i] + values[i + 1..])
  {
    var r := values[..i] + values[i + 1..];
    forall a, b | 0 <= a < b < |r|
      ensures r[a] != r[b]
    {
      var a', b' := if a < i then a else a + 1, if b < i then b else b + 1;
      assert r[a] == values[a'] && r[b] == values[b'];
    }
  }

  /** Without duplicates, a value at position i occurs once. */
  lemma NoDupOnce(s: seq<string>, i: nat)
    requires NoDup(s) && i < |s|
    ensures multiset(s)[s[i]] == 1
  {
    assert s == s[..i] + [s[i]] + s[i + 1..];
    assert s[i] !in s[..i] && s[i] !in s[i + 1..] by {
      forall j | 0 <= j < |s| && j != i
        ensures s[j] != s[i]
      {
      }
    }
    assert multiset(s[..i])[s[i]] == 0 && multiset(s[i + 1..])[s[i]] == 0;
  }

  /** Clicking an unselected value twice restores the list. */
  lemma ToggleTwiceAbsent(values: seq<string>, v: string)
    requires v !in values
    ensures Toggle(Toggle(values, v), v) == values
  {
    var once := values + [v];
    IndexOfSnocNew(values, v);
    assert once[..|values|] == values;
  }

  /** Clicking a selected value twice keeps the same values (as a multiset; without
      duplicates, as a set) but moves v from its place to the end. */
  lemma ToggleTwicePresent(values: seq<string>, v: string)
    requires NoDup(values) && v in values
    ensures var i := IndexOf(values, v);
            Toggle(Toggle(values, v), v) == values[..i] + values[i + 1..] + [v]
    ensures multiset(Toggle(Toggle(values, v), v)) == multiset(values)
  {
    var i := IndexOf(values, v);
    ToggleKeepsNoDup(values, v);
    ToggleRemovesFirst(values, v);
    ToggleAppends(Toggle(values, v), v);
  }

  /** The order is not restored in general: deselecting and reselecting "a" in ["a", "b"]
      leaves ["b", "a"]. */
  lemma ToggleTwiceReorders()
    ensures Toggle(Toggle(["a", "b"], "a"), "a") == ["b", "a"]
  {
    var once := Toggle(["a", "b"], "a");
    assert IndexOf(["a", "b"], "a") == 0;
    assert once == ["b"];
    assert "a" !in once;
    ToggleAppends(once, "a");
  }

  /** With a duplicate the second click removes again: ["a", "a"] becomes ["a"], then []. */
  lemma ToggleTwiceDuplicate()
    ensures Toggle(["a", "a"], "a") == ["a"]
    ensures Toggle(Toggle(["a", "a"], "a"), "a") == []
  {
    assert IndexOf(["a", "a"], "a") == 0;
    assert IndexOf(["a"], "a") == 0;
  }

  /** String.prototype.includes: t occurs in s. */
  function Includes(s: string, t: string): bool
    decreases |s|
  {
    t <= s || (s != [] && Includes(s[1..], t))
  }

  /** t is the slice of s that starts at i. */
  predicate OccursAt(s: string, t: string, i: int)
  {
    0 <= i && i + |t| <= |s| && s[i..i + |t|] == t
  }

  /** Includes means t is some slice of s. */
  lemma {:induction false} IncludesSlice(s: string, t: string)
    ensures Includes(s, t) <==> exists i :: OccursAt(s, t, i)
  {
    if t <= s {
      assert OccursAt(s, t, 0);
    } else if s != [] {
      IncludesSlice(s[1..], t);
      if exists i :: OccursAt(s[1..], t, i) {
        var i :| OccursAt(s[1..], t, i);
        assert s[i + 1..i + 1 + |t|] == s[1..][i..i + |t|];
        assert OccursAt(s, t, i + 1);
      }
      if exists i :: OccursAt(s, t, i) {
        var i :| OccursAt(s, t, i);
        if i > 0 {
          assert s[1..][i - 1..i - 1 + |t|] == s[i..i + |t|];
          assert OccursAt(s[1..], t, i - 1);
        }
      }
    }
  }

  /** The empty search text occurs in every text. */
  lemma IncludesEmpty(s: string)
    ensures Includes(s, "")
  {
  }

  datatype Display = ListItemShown | NoneShown

  /** An option of the dropdown list: its text and its style.display. */
  datatype ListItem = ListItem(textContent: string, display: Display)

  /** itemSearch on one item: shown iff its lowercased text includes the lowercased query. */
  function Searched(item: ListItem, query: string, toLower: string -> string): ListItem
  {
    item.(display := if Includes(toLower(item.textContent), toLower(query)) then ListItemShown else NoneShown)
  }

  /** An empty search shows every item, whatever it showed before. */
  lemma EmptySearchShowsAll(items: seq<ListItem>, toLower: string -> string)
    requires toLower("") == ""
    ensures forall i :: 0 <= i < |items| ==> Searched(items[i], "", toLower).display == ListItemShown
  {
    forall i | 0 <= i < |items|
      ensures Searched(items[i], "", toLower).display == ListItemShown
    {
      IncludesEmpty(toLower(items[i].textContent));
    }
  }

  /** A list input: its `type` attribute (absent or not) and its checked state. */
  datatype Input = Input(kind: Option<string>, checked: bool)

  predicate IsCheckbox(input: Input)
  {
    input.kind == Some("checkbox")
  }

  /** The indices the handler clicks, in document order: checkboxes whose checked state is
      `want` (true for clearSelection, false for selectAll). */
  function Clicks(inputs: seq<Input>, want: bool): seq<nat>
  {
    if inputs == [] then []
    else
      var last := inputs[|inputs| - 1];
      Clicks(inputs[..|inputs| - 1], want)
        + (if IsCheckbox(last) && last.checked == want then [|inputs| - 1] else [])
  }

  /** The inputs after the handler, a click on a checkbox flipping its checked state. */
  function Clicked(inputs: seq<Input>, want: bool): seq<Input>
  {
    seq(|inputs|, i requires 0 <= i < |inputs| =>
      if IsCheckbox(inputs[i]) && inputs[i].checked == want then inputs[i].(checked := !want) else inputs[i])
  }

  /** The handler clicks exactly the checkboxes in state `want`, each once, in order. */
  lemma {:induction false} ClicksExactly(inputs: seq<Input>, want: bool)
    ensures forall i: nat :: i in Clicks(inputs, want) <==>
              i < |inputs| && IsCheckbox(inputs[i]) && inputs[i].checked == want
    ensures forall a, b :: 0 <= a < b < |Clicks(inputs, want)| ==> Clicks(inputs, want)[a] < Clicks(inputs, want)[b]
  {
    if inputs != [] {
      var front := inputs[..|inputs| - 1];
      ClicksExactly(front, want);
      assert forall i :: 0 <= i < |front| ==> front[i] == inputs[i];
      var c := Clicks(front, want);
      forall a | 0 <= a < |c|
        ensures c[a] < |front|
      {
        assert c[a] in c;
      }
    }
  }

  /** Afterwards every checkbox is in the other state and no other input has changed. */
  lemma ClickedSettles(inputs: seq<Input>, want: bool)
    ensures |Clicked(inputs, want)| == |inputs|
    ensures forall i :: 0 <= i < |inputs| && IsCheckbox(inputs[i]) ==>
              IsCheckbox(Clicked(inputs, want)[i]) && Clicked(inputs, want)[i].checked == !want
    ensures forall i :: 0 <= i < |inputs| && !IsCheckbox(inputs[i]) ==> Clicked(inputs, want)[i] == inputs[i]
  {
  }

  /** Running the handler a second time clicks nothing. */
  lemma {:induction false} ClicksAfterClicked(inputs: seq<Input>, want: bool)
    ensures Clicks(Clicked(inputs, want), want) == []
  {
    if inputs != [] {
      var front := inputs[..|inputs| - 1];
      assert Clicked(inputs, want)[..|inputs| - 1] == Clicked(front, want);
      ClicksAfterClicked(front, want);
    }
  }

  /** One more input handled is one more step of Clicks. */
  lemma ClicksStep(inputs: seq<Input>, want: bool, i: nat)
    requires i < |inputs|
    ensures Clicks(inputs[..i + 1], want)
              == Clicks(inputs[..i], want) + (if IsCheckbox(inputs[i]) && inputs[i].checked == want then [i] else [])
  {
    assert inputs[..i + 1][..i] == inputs[..i];
  }

  /** The hook's state: whether the dropdown is open and the selected values. */
  class MultiSelectVariableHook {
    var open: bool
    var values: seq<string>

    /** mounted: closed, nothing selected. */
    constructor ()
      ensures !open && values == []
    {
      open := false;
      values := [];
    }

    /** dropdownOpen: the dropdown is open and the selection is the one the event carries. */
    method DropdownOpen(detailValues: seq<string>)
      modifies this
      ensures open && values == detailValues
    {
      open := true;
      values := detailValues;
    }

    /** valueClicked: deselect the value if selected, else select it. */
    method ValueClicked(value: string)
      modifies this`values
      ensures values == Toggle(old(values), value)
    {
      var index := IndexOf(values, value);
      if index > -1 {
        values := values[..index] + values[index + 1..];
      } else {
        values := values + [value];
      }
    }

    /** clickAway: when open, close and push the selection once; when closed, do nothing. */
    method ClickAway(varId: string) returns (pushed: seq<VariableUpdate>)
      modifies this`open
      ensures !open && values == old(values)
      ensures old(open) ==> pushed == [VariableUpdate(varId, values)]
      ensures !old(open) ==> pushed == []
    {
      pushed := [];
      if open {
        open := false;
        pushed := [VariableUpdate(varId, values)];
      }
    }

    /** itemSearch over the list's children, setting each one's display. */
    method ItemSearch(query: string, list: array<ListItem>, toLower: string -> string)
      modifies list
      ensures forall i :: 0 <= i < list.Length ==> list[i] == Searched(old(list[i]), query, toLower)
    {
      var textToSearch := toLower(query);
      for i := 0 to list.Length
        invariant forall j :: 0 <= j < i ==> list[j] == Searched(old(list[j]), query, toLower)
        invariant forall j :: i <= j < list.Length ==> list[j] == old(list[j])
      {
        if Includes(toLower(list[i].textContent), textToSearch) {
          list[i] := list[i].(display := ListItemShown);
        } else {
          list[i] := list[i].(display := NoneShown);
        }
      }
    }

    /** clearSelection: click every checked checkbox; the clicked indices are returned. */
    method ClearSelection(inputs: array<Input>) returns (clicked: seq<nat>)
      modifies inputs
      ensures inputs[..] == Clicked(old(inputs[..]), true)
      ensures clicked == Clicks(old(inputs[..]), true)
    {
      clicked := ClickAll(inputs, true);
    }

    /** selectAll: click every unchecked checkbox; the clicked indices are returned. */
    method SelectAll(inputs: array<Input>) returns (clicked: seq<nat>)
      modifies inputs
      ensures inputs[..] == Clicked(old(inputs[..]), false)
      ensures clicked == Clicks(old(inputs[..]), false)
    {
      clicked := ClickAll(inputs, false);
    }
  }

  /** The loop both handlers share: click each checkbox whose checked state is `want`. */
  method ClickAll(inputs: array<Input>, want: bool) returns (clicked: seq<nat>)
    modifies inputs
    ensures inputs[..] == Clicked(old(inputs[..]), want)
    ensures clicked == Clicks(old(inputs[..]), want)
  {
    ghost var before := inputs[..];
    clicked := [];
    for i := 0 to inputs.Length
      invariant forall j :: 0 <= j < i ==> inputs[j] == Clicked(before, want)[j]
      invariant forall j :: i <= j < inputs.Length ==> inputs[j] == before[j]
      invariant clicked == Clicks(before[..i], want)
    {
      ClicksStep(before, want, i);
      assert inputs[i] == before[i];
      if IsCheckbox(inputs[i]) && inputs[i].checked == want {
        inputs[i] := inputs[i].(checked := !inputs[i].checked);
        clicked := clicked + [i];
      }
    }
    assert before[..inputs.Length] == before;
  }
}
