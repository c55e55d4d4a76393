/**
 * The states page: the list of states the organization operates in, the
 * add form (a modal with a state selector), removal, and the colour theme
 * looked up from a state's name. `Date.now()` and `toISOString()` are the
 * parameters `newId` and `nowIso`.
 */
module States {
  import opened Base
  import opened Seqs
  import opened Text

  datatype State = State(
    id: string,
    name: string,
    code: string,
    providers: int,
    revenue: int,
    patients: int,
    services: int,
    addedAt: string)

  datatype StateOption = StateOption(name: string, code: string)

  /** The states the add form can offer. */
  const AvailableStates: seq<StateOption> := [
    StateOption("Florida", "FL"), StateOption("Texas", "TX"), StateOption("California", "CA"),
    StateOption("New York", "NY"), StateOption("Washington", "WA"), StateOption("Illinois", "IL"),
    StateOption("Georgia", "GA"), StateOption("Arizona", "AZ")
  ]

  /** The page's state: the list, whether the add modal is open, and the selected code. */
  datatype StatesPage = StatesPage(states: seq<State>, showAddModal: bool, selectedState: string)

  /** `availableStates.find(s => s.code === code)`. */
  function FindOption(code: string): (r: Option<StateOption>)
    ensures r.None? <==> forall i :: 0 <= i < |AvailableStates| ==> AvailableStates[i].code != code
    ensures r.Some? ==> r.value in AvailableStates && r.value.code == code
  {
    if exists i :: 0 <= i < |AvailableStates| && AvailableStates[i].code == code then
      var i :| 0 <= i < |AvailableStates| && AvailableStates[i].code == code;
      Some(AvailableStates[i])
    else None
  }

  /**
   * `handleAddState`: an unknown code changes nothing (the modal stays open);
   * a known one appends a state with that option's name and code and all
   * counters at 0, closes the modal and clears the selection. A code already
   * in the list is appended again.
   */
  function HandleAddState(page: StatesPage, newId: string, nowIso: string): (r: StatesPage)
    ensures FindOption(page.selectedState).None? ==> r == page
    ensures FindOption(page.selectedState).Some? ==>
              var opt := FindOption(page.selectedState).value;
              && r.states == page.states + [State(newId, opt.name, opt.code, 0, 0, 0, 0, nowIso)]
              && !r.showAddModal && r.selectedState == ""
  {
    match FindOption(page.selectedState)
    case None => page
    case Some(opt) =>
      StatesPage(page.states + [State(newId, opt.name, opt.code, 0, 0, 0, 0, nowIso)], false, "")
  }

  /** Some state of the list already has the code. */
  predicate HasCode(states: seq<State>, code: string) {
    exists i :: 0 <= i < |states| && states[i].code == code
  }

  /** The options the selector offers: the available states whose code is not in the list yet. */
  function OfferedOptions(states: seq<State>): (r: seq<StateOption>)
    ensures forall i :: 0 <= i < |r| ==> r[i] in AvailableStates && !HasCode(states, r[i].code)
    ensures forall i :: 0 <= i < |AvailableStates| && !HasCode(states, AvailableStates[i].code) ==>
              AvailableStates[i] in r
  {
    Filter(AvailableStates, (s: StateOption) => !HasCode(states, s.code))
  }

  /** No two states in the list share a code. */
  predicate CodesDistinct(states: seq<State>) {
    forall i, j :: 0 <= i < j < |states| ==> states[i].code != states[j].code
  }

  /** Adding an offered code keeps the codes distinct: the form, not the handler, prevents duplicates. */
  lemma OfferedAddKeepsCodesDistinct(page: StatesPage, k: nat, newId: string, nowIso: string)
    requires CodesDistinct(page.states)
    requires k < |OfferedOptions(page.states)| && page.selectedState == OfferedOptions(page.states)[k].code
    ensures |HandleAddState(page, newId, nowIso).states| == |page.states| + 1
    ensures CodesDistinct(HandleAddState(page, newId, nowIso).states)
  {
    var opt := OfferedOptions(page.states)[k];
    assert opt in AvailableStates;
    var i :| 0 <= i < |AvailableStates| && AvailableStates[i] == opt;
    assert FindOption(page.selectedState).Some?;
  }

  /** The handler itself accepts a code already present: the list then holds it twice. */
  lemma DuplicateCodeAccepted(page: StatesPage, newId: string, nowIso: string)
    requires FindOption(page.selectedState).Some? && HasCode(page.states, page.selectedState)
    ensures !CodesDistinct(HandleAddState(page, newId, nowIso).states)
  {
    var after := HandleAddState(page, newId, nowIso).states;
    var i :| 0 <= i < |page.states| && page.states[i].code == page.selectedState;
    assert after[i].code == after[|page.states|].code;
  }

  /** `handleRemoveState(id)`: drops exactly the states with the id, keeping the rest in order. */
  function RemoveState(states: seq<State>, id: string): (r: seq<State>)
    ensures |r| <= |states|
    ensures forall i :: 0 <= i < |r| ==> r[i].id != id
    ensures forall i :: 0 <= i < |states| && states[i].id != id ==> states[i] in r
  {
    Filter(states, (s: State) => s.id != id)
  }

  /** Adding a state under a fresh id and removing that id gives back the list. */
  lemma AddThenRemoveRestores(page: StatesPage, newId: string, nowIso: string)
    requires forall i :: 0 <= i < |page.states| ==> page.states[i].id != newId
    ensures RemoveState(HandleAddState(page, newId, nowIso).states, newId) == page.states
  {
    var keep := (s: State) => s.id != newId;
    var after := HandleAddState(page, newId, nowIso).states;
    FilterKeepsAll(page.states, keep);
    if after != page.states {
      assert after == page.states + [after[|page.states|]];
      FilterConcat(page.states, [after[|page.states|]], keep);
      assert Filter([after[|page.states|]], keep) == [];
    }
  }

  /** The submit button is disabled exactly while no state is selected. */
  predicate SubmitDisabled(page: StatesPage) {
    page.selectedState == ""
  }

  /** An enabled submit with an offered selection always adds a state. */
  lemma OfferedSelectionAdds(page: StatesPage, k: nat, newId: string, nowIso: string)
    requires k < |OfferedOptions(page.states)| && page.selectedState == OfferedOptions(page.states)[k].code
    ensures !SubmitDisabled(page)
    ensures |HandleAddState(page, newId, nowIso).states| == |page.states| + 1
  {
    var opt := OfferedOptions(page.states)[k];
    var i :| 0 <= i < |AvailableStates| && AvailableStates[i] == opt;
  }

  // ---------------------------------------------------------------------------
  // Colour theme of a state
  // ---------------------------------------------------------------------------

  datatype Theme = Theme(color: string, gradient: string)

  const StateThemes: map<string, Theme> := map[
    "florida" := Theme("text-orange-600", "from-orange-400 to-red-500"),
    "texas" := Theme("text-blue-600", "from-blue-400 to-blue-600"),
    "california" := Theme("text-yellow-600", "from-yellow-400 to-orange-500"),
    "newyork" := Theme("text-purple-600", "from-purple-400 to-pink-500"),
    "washington" := Theme("text-green-600", "from-green-400 to-teal-500")
  ]

  const DefaultTheme: Theme := Theme("text-gray-600", "from-gray-400 to-gray-600")

  /** The lookup key: the name lowercased, with every whitespace character removed. */
  function ThemeKey(name: string): (k: string)
    ensures |k| <= |name|
    ensures forall i :: 0 <= i < |k| ==> !IsWhitespace(k[i]) && !('A' <= k[i] <= 'Z')
  {
    var lower := ToLower(name);
    var key := RemoveWhitespace(lower);
    assert forall i :: 0 <= i < |key| ==> key[i] in lower;
    key
  }

  /** `getStateConfig`: the table entry for the key, or the gray default. */
  function ThemeOf(name: string): (t: Theme)
    ensures ThemeKey(name) in StateThemes ==> t == StateThemes[ThemeKey(name)]
    ensures ThemeKey(name) !in StateThemes ==> t == DefaultTheme
  {
    var key := ThemeKey(name);
    if key in StateThemes then StateThemes[key] else DefaultTheme
  }

  /** A key is already normalised: computing the key of a key changes nothing. */
  lemma ThemeKeyIdempotent(name: string)
    ensures ThemeKey(ThemeKey(name)) == ThemeKey(name)
  {
    var k := ThemeKey(name);
    assert ToLower(k) == k;
    RemoveWhitespaceKeeps(k);
  }

  /** The key of "New York" is "newyork": the space goes and the letters are lowered. */
  lemma NewYorkKey(name: string)
    requires name == "New York"
    ensures ThemeKey(name) == "newyork"
  {
    LowerNewYork(name);
    var a, b := "new", "york";
    LowercaseWord(a);
    LowercaseWord(b);
    assert ToLower(name) == a + [' '] + b;
    DropSpace(ToLower(name), a, b);
  }

  /** Lower-case ASCII letters are not whitespace. */
  lemma LowercaseWord(w: string)
    requires forall i :: 0 <= i < |w| ==> 'a' <= w[i] <= 'z'
    ensures forall i :: 0 <= i < |w| ==> !IsWhitespace(w[i])
  {
  }

  lemma LowerNewYork(name: string)
    requires name == "New York"
    ensures ToLower(name) == "new york"
  {
    var l := ToLower(name);
    assert l[0] == LowerChar('N') && l[4] == LowerChar('Y');
  }

  /** Removing whitespace from two words joined by one space joins them. */
  lemma DropSpace(s: string, a: string, b: string)
    requires s == a + [' '] + b
    requires forall i :: 0 <= i < |a| ==> !IsWhitespace(a[i])
    requires forall i :: 0 <= i < |b| ==> !IsWhitespace(b[i])
    ensures RemoveWhitespace(s) == a + b
  {
    RemoveWhitespaceConcat(a + [' '], b);
    RemoveWhitespaceConcat(a, [' ']);
    RemoveWhitespaceKeeps(a);
    RemoveWhitespaceKeeps(b);
    assert RemoveWhitespace([' ']) == [];
  }

  /** "New York" therefore finds the `newyork` theme. */
  lemma NewYorkTheme(name: string)
    requires name == "New York"
    ensures ThemeOf(name) == Theme("text-purple-600", "from-purple-400 to-pink-500")
  {
    NewYorkKey(name);
  }

  /** The key of "Illinois" is "illinois", which the table lacks. */
  lemma IllinoisKey(name: string)
    requires name == "Illinois"
    ensures ThemeKey(name) == "illinois"
  {
    var l := ToLower(name);
    assert l[0] == LowerChar('I');
    var lower := "illinois";
    assert l == lower;
    RemoveWhitespaceKeeps(lower);
  }

  /** A state outside the table, such as "Illinois", gets the gray default. */
  lemma UnlistedStateIsGray(name: string)
    requires name == "Illinois"
    ensures ThemeOf(name) == DefaultTheme
  {
    IllinoisKey(name);
  }
}
