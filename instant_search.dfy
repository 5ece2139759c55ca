/** The search box with autocomplete (src/components/InstantSearch.tsx): the
    focus flag and the highlighted suggestion change with each event. The
    text itself belongs to the parent (`value`/`onChange`); here it is a
    field that the events set. The calls of `onSearch` are recorded in
    order in `searches`. */
module InstantSearch {

  datatype Key = ArrowDown | ArrowUp | Enter | Escape | OtherKey

  // ---------------------------------------------------------------------------
  // The highlighted suggestion

  /** A highlight position for a list of `count` suggestions: one of them,
      or `-1` for none. */
  predicate InRange(index: int, count: int) {
    -1 <= index < count
  }

  /** ArrowDown: the next suggestion, staying on the last one. */
  function Down(index: int, count: int): int {
    if index < count - 1 then index + 1 else index
  }

  /** ArrowUp: the previous suggestion; from the first one, or from none,
      no suggestion is highlighted. */
  function Up(index: int): int {
    if index > 0 then index - 1 else -1
  }

  /** ArrowDown moves one place down, except on the last suggestion, and
      never leaves the list. */
  lemma DownStaysInRange(index: int, count: int)
    requires InRange(index, count)
    ensures InRange(Down(index, count), count)
    ensures index < count - 1 ==> Down(index, count) == index + 1
    ensures index == count - 1 ==> Down(index, count) == index
  {
  }

  /** ArrowUp moves one place up, ends on "none" from the top, and never
      leaves the list. */
  lemma UpStaysInRange(index: int, count: int)
    requires InRange(index, count)
    ensures InRange(Up(index), count)
    ensures Up(index) == -1 <==> index <= 0
    ensures index > 0 ==> Up(index) == index - 1
  {
  }

  /** ArrowUp undoes ArrowDown wherever ArrowDown moved. */
  lemma UpUndoesDown(index: int, count: int)
    requires InRange(index, count) && index < count - 1
    ensures Up(Down(index, count)) == index
  {
  }

  /** The highlight after `k` presses of ArrowDown from none. */
  function Downs(k: nat, count: int): int {
    if k == 0 then -1 else Down(Downs(k - 1, count), count)
  }

  /** `k` presses of ArrowDown from none highlight the `k`-th suggestion,
      or the last one when there are fewer. */
  lemma {:induction false} DownsFromNone(k: nat, count: nat)
    ensures Downs(k, count) == (if k < count then k else count) - 1
  {
    if k > 0 {
      DownsFromNone(k - 1, count);
    }
  }

  // ---------------------------------------------------------------------------
  // The component

  class SearchBox {
    /** The `showSuggestions` property. */
    const showSuggestions: bool
    /** Whether the parent passed an `onSearch` handler. */
    const hasOnSearch: bool
    var value: string
    var isFocused: bool
    var selectedIndex: int
    /** The suggestions of the last render, from `useSearchSuggestions`. */
    var suggestions: seq<string>
    /** The arguments of the `onSearch` calls so far. */
    var searches: seq<string>

    /** The highlight always names a suggestion of the list, or none. */
    predicate Valid()
      reads this
    {
      InRange(selectedIndex, |suggestions|)
    }

    /** `showSuggestionsDropdown`. */
    predicate DropdownShown()
      reads this
    {
      showSuggestions && isFocused && |value| >= 2 && |suggestions| > 0
    }

    constructor (showSuggestions: bool, hasOnSearch: bool, value: string, suggestions: seq<string>)
      ensures Valid()
      ensures this.showSuggestions == showSuggestions && this.hasOnSearch == hasOnSearch
      ensures this.value == value && this.suggestions == suggestions
      ensures !isFocused && selectedIndex == -1 && searches == []
    {
      this.showSuggestions := showSuggestions;
      this.hasOnSearch := hasOnSearch;
      this.value := value;
      this.suggestions := suggestions;
      isFocused := false;
      selectedIndex := -1;
      searches := [];
    }

    /** `onFocus`. */
    method Focus()
      requires Valid()
      modifies this
      ensures Valid() && isFocused
      ensures value == old(value) && selectedIndex == old(selectedIndex)
      ensures suggestions == old(suggestions) && searches == old(searches)
    {
      isFocused := true;
    }

    /** A mouse press outside the input and the dropdown. The handler acts
        only while the dropdown is rendered, since `suggestionsRef` is
        attached to the dropdown alone; otherwise the focus flag stays. */
    method ClickOutside()
      requires Valid()
      modifies this
      ensures Valid() && !DropdownShown()
      ensures old(DropdownShown()) ==> !isFocused
      ensures !old(DropdownShown()) ==> isFocused == old(isFocused)
      ensures value == old(value) && selectedIndex == old(selectedIndex)
      ensures suggestions == old(suggestions) && searches == old(searches)
    {
      if DropdownShown() {
        isFocused := false;
      }
    }

    /** Typing: the parent takes the new text, whose suggestions are
      `latest`, and the highlight is cleared. */
    method Change(text: string, latest: seq<string>)
      requires Valid()
      modifies this
      ensures Valid()
      ensures value == text && suggestions == latest && selectedIndex == -1
      ensures isFocused == old(isFocused) && searches == old(searches)
    {
      value := text;
      selectedIndex := -1;
      suggestions := latest;
    }

    /** `handleSelectSuggestion`: the suggestion becomes the text, the box
      loses focus and the highlight is cleared; `onSearch` runs on it. */
    method SelectSuggestion(suggestion: string)
      requires Valid()
      modifies this
      ensures Valid() && !DropdownShown()
      ensures value == suggestion && !isFocused && selectedIndex == -1
      ensures suggestions == old(suggestions)
      ensures searches == old(searches) + (if hasOnSearch then [suggestion] else [])
    {
      value := suggestion;
      isFocused := false;
      selectedIndex := -1;
      if hasOnSearch {
        searches := searches + [suggestion];
      }
    }

    /** `handleKeyDown`: nothing happens while the dropdown is hidden. */
    method KeyDown(key: Key)
      requires Valid()
      modifies this
      ensures Valid()
      ensures suggestions == old(suggestions)
      ensures !old(DropdownShown()) ==>
        value == old(value) && isFocused == old(isFocused)
        && selectedIndex == old(selectedIndex) && searches == old(searches)
      ensures old(DropdownShown()) && key == ArrowDown ==>
        selectedIndex == Down(old(selectedIndex), |suggestions|)
        && value == old(value) && isFocused && searches == old(searches)
      ensures old(DropdownShown()) && key == ArrowUp ==>
        selectedIndex == Up(old(selectedIndex))
        && value == old(value) && isFocused && searches == old(searches)
      ensures old(DropdownShown()) && key == Enter && old(selectedIndex) >= 0 ==>
        var s := old(suggestions[selectedIndex]);
        value == s && !isFocused && selectedIndex == -1
        && searches == old(searches) + (if hasOnSearch then [s] else [])
      ensures old(DropdownShown()) && key == Enter && old(selectedIndex) < 0 ==>
        value == old(value) && isFocused && selectedIndex == -1
        && searches == old(searches) + (if hasOnSearch then [old(value)] else [])
      ensures old(DropdownShown()) && key == Escape ==>
        value == old(value) && !isFocused && !DropdownShown()
        && selectedIndex == old(selectedIndex) && searches == old(searches)
      ensures old(DropdownShown()) && key == OtherKey ==>
        value == old(value) && isFocused
        && selectedIndex == old(selectedIndex) && searches == old(searches)
    {
      if !DropdownShown() {
        return;
      }
      match key
      case ArrowDown =>
        DownStaysInRange(selectedIndex, |suggestions|);
        selectedIndex := Down(selectedIndex, |suggestions|);
      case ArrowUp =>
        UpStaysInRange(selectedIndex, |suggestions|);
        selectedIndex := Up(selectedIndex);
      case Enter =>
        if selectedIndex >= 0 {
          SelectSuggestion(suggestions[selectedIndex]);
        } else if hasOnSearch {
          searches := searches + [value];
        }
      case Escape =>
        isFocused := false;
      case OtherKey =>
    }
  }
}
