/**
 * The folder summary's three view modes, in descending priority: loading,
 * empty, content. Each has an `enabled` flag; exactly the first enabled one
 * is shown.
 */
module Modes {
  import opened Mail

  datatype ModeName = Loading | Empty | Content

  datatype Mode = Mode(name: ModeName, enabled: bool)

  /** The `_modes` list as the summary starts: fixed order, nothing enabled. */
  const InitialModes: seq<Mode> := [Mode(Loading, false), Mode(Empty, false), Mode(Content, false)]

  /** The mode list has the fixed names in the fixed priority order. */
  predicate WellFormed(modes: seq<Mode>) {
    |modes| == 3 && modes[0].name == Loading && modes[1].name == Empty && modes[2].name == Content
  }

  /** Sets the `enabled` flag of every mode named `name` to `en`. */
  function Enable(modes: seq<Mode>, name: ModeName, en: bool): (r: seq<Mode>)
    ensures |r| == |modes|
    ensures forall i :: 0 <= i < |r| ==> r[i].name == modes[i].name
    ensures forall i :: 0 <= i < |r| && modes[i].name != name ==> r[i] == modes[i]
    ensures forall i :: 0 <= i < |r| && modes[i].name == name ==> r[i].enabled == en
  {
    if modes == [] then []
    else [if modes[0].name == name then modes[0].(enabled := en) else modes[0]] + Enable(modes[1..], name, en)
  }

  /** Whether each mode's elements are shown (not hidden) after `_setMode`. */
  function Visibility(modes: seq<Mode>): (v: seq<bool>)
    ensures |v| == |modes|
    ensures forall i :: 0 <= i < |v| && v[i] ==> modes[i].enabled
    ensures forall i, j :: 0 <= i < |v| && 0 <= j < |v| && v[i] && v[j] ==> i == j
  {
    seq(|modes|, i requires 0 <= i < |modes| => modes[i].enabled && forall j :: 0 <= j < i ==> !modes[j].enabled)
  }

  /** The first enabled mode in priority order, if any. */
  function Shown(modes: seq<Mode>): (r: Option<ModeName>)
    ensures modes != [] && modes[0].enabled ==> r == Some(modes[0].name)
    ensures (forall j :: 0 <= j < |modes| ==> !modes[j].enabled) ==> r.None?
  {
    if modes == [] then None
    else if modes[0].enabled then Some(modes[0].name)
    else Shown(modes[1..])
  }

  /** Mode names are pairwise distinct. */
  predicate DistinctNames(modes: seq<Mode>) {
    forall i, j :: 0 <= i < j < |modes| ==> modes[i].name != modes[j].name
  }

  /** The shown mode is the name of one of the modes. */
  lemma {:induction false} ShownIsAMode(modes: seq<Mode>)
    requires Shown(modes).Some?
    ensures exists j :: 0 <= j < |modes| && modes[j].name == Shown(modes).value && modes[j].enabled
  {
    if !modes[0].enabled {
      ShownIsAMode(modes[1..]);
      var j :| 0 <= j < |modes[1..]| && modes[1..][j].name == Shown(modes).value && modes[1..][j].enabled;
      assert modes[j + 1] == modes[1..][j];
    }
  }

  /**
   * A mode is visible exactly when it is the first enabled mode: at most one
   * mode is visible, and none is when none is enabled.
   */
  lemma {:induction false} VisibleIffShown(modes: seq<Mode>, i: nat)
    requires DistinctNames(modes)
    requires i < |modes|
    ensures Visibility(modes)[i] <==> Shown(modes) == Some(modes[i].name)
  {
    var tail := modes[1..];
    if modes[0].enabled {
      if i > 0 {
        assert modes[0].name != modes[i].name;
      }
    } else if i == 0 {
      if Shown(tail).Some? {
        ShownIsAMode(tail);
        var j :| 0 <= j < |tail| && tail[j].name == Shown(tail).value && tail[j].enabled;
        assert tail[j] == modes[j + 1];
      }
    } else {
      assert DistinctNames(tail) by {
        forall a, b | 0 <= a < b < |tail| ensures tail[a].name != tail[b].name {
          assert tail[a] == modes[a + 1] && tail[b] == modes[b + 1];
        }
      }
      VisibleIffShown(tail, i - 1);
      assert tail[i - 1] == modes[i];
      assert Visibility(modes)[i] == Visibility(tail)[i - 1] by {
        forall j | 0 <= j < i - 1 ensures tail[j] == modes[j + 1] { }
        assert (forall j :: 0 <= j < i ==> !modes[j].enabled)
           <==> (forall j :: 0 <= j < i - 1 ==> !tail[j].enabled);
      }
    }
  }

  /** Nothing is shown exactly when no mode is enabled. */
  lemma {:induction false} NoneShownIffNoneEnabled(modes: seq<Mode>)
    ensures Shown(modes) == None <==> forall i :: 0 <= i < |modes| ==> !modes[i].enabled
  {
    if modes != [] && !modes[0].enabled {
      NoneShownIffNoneEnabled(modes[1..]);
      assert forall i :: 1 <= i < |modes| ==> modes[i] == modes[1..][i - 1];
    }
  }

  /** On the three-mode list, the shown mode is found by three tests in priority order. */
  lemma ShownOfThree(modes: seq<Mode>)
    requires |modes| == 3
    ensures Shown(modes) ==
      if modes[0].enabled then Some(modes[0].name)
      else if modes[1].enabled then Some(modes[1].name)
      else if modes[2].enabled then Some(modes[2].name)
      else None
  {
    var m1 := modes[1..];
    var m2 := m1[1..];
    assert m1[0] == modes[1] && m2[0] == modes[2];
    assert m2[1..] == [];
    assert Shown(m2) == if m2[0].enabled then Some(m2[0].name) else Shown(m2[1..]);
  }

  /** Enabling a mode shows it unless a mode of higher priority is enabled. */
  lemma EnableShows(modes: seq<Mode>, k: nat)
    requires WellFormed(modes) && k < 3
    ensures Shown(Enable(modes, modes[k].name, true)) ==
            if exists j :: 0 <= j < k && modes[j].enabled then Shown(modes) else Some(modes[k].name)
  {
    var r := Enable(modes, modes[k].name, true);
    ShownOfThree(r);
    ShownOfThree(modes);
    assert r[0].enabled == (k == 0 || modes[0].enabled);
    assert r[1].enabled == (k == 1 || modes[1].enabled);
    assert r[2].enabled == (k == 2 || modes[2].enabled);
  }

  /** Well-formedness survives enabling or disabling a mode. */
  lemma EnableWellFormed(modes: seq<Mode>, name: ModeName, en: bool)
    requires WellFormed(modes)
    ensures WellFormed(Enable(modes, name, en)) && DistinctNames(Enable(modes, name, en))
  {
    var r := Enable(modes, name, en);
    assert r[0].name == Loading && r[1].name == Empty && r[2].name == Content;
  }
}
