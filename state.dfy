/**
 * The interface's selection model and navigation records (src/gui/state.rs).
 * The recommended-tweak list, a constant of the catalog, is a parameter.
 */
module GuiState {
  import opened Wrappers

  /** The screens the interface can show. */
  datatype ViewMode =
    | Tweaks
    | ConfirmApply
    | ConfirmUnsetAll
    | ConfirmRestorePoint
    | ConfirmLoadDefaults
    | SelectedTweaks

  /** The derived `Default` of `ViewMode`. */
  const DefaultViewMode: ViewMode := Tweaks

  /** What the tree view has selected and which categories are unfolded. */
  datatype SelectionState = SelectionState(
    selectedCategory: Option<string>,
    selectedTweak: Option<string>,
    expandedCategories: map<string, bool>)

  /** The derived `Default` of `SelectionState`: nothing selected, nothing unfolded. */
  const DefaultSelection: SelectionState := SelectionState(None, None, map[])

  /** A value snapshot pushed on the navigation history. */
  datatype NavigationEntry = NavigationEntry(
    mode: ViewMode,
    selectedCategory: Option<string>,
    selectedTweak: Option<string>,
    searchQuery: string)

  /** The checkbox state of every tweak and the text typed for parameterised tweaks. */
  datatype TweakStates = TweakStates(
    states: map<string, bool>,
    inputValues: map<string, string>)

  /**
   * `TweakStates::default`: one `insert(id, true)` per recommended id.
   * Exactly the recommended ids become keys, each checked, and no input
   * value is recorded.
   */
  method DefaultTweakStates(recommended: seq<string>) returns (t: TweakStates)
    ensures t.states.Keys == set i | 0 <= i < |recommended| :: recommended[i]
    ensures forall id :: id in recommended ==> id in t.states && t.states[id]
    ensures forall id :: id in t.states ==> t.states[id]
    ensures t.inputValues == map[]
    ensures |recommended| > 0 ==> |t.states| > 0
  {
    var states: map<string, bool> := map[];
    for i := 0 to |recommended|
      invariant states.Keys == set j | 0 <= j < i :: recommended[j]
      invariant forall id :: id in states ==> states[id]
    {
      states := states[recommended[i] := true];
    }
    if |recommended| > 0 {
      assert recommended[0] in states;
    }
    t := TweakStates(states, map[]);
  }
}
