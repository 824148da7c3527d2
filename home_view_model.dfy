/**
 * `HomeViewModel`: the selected tab and item of the home screen, mirrored
 * into the saved-state store so that they survive the process being killed.
 */
module HomeViewModels {

  const KEY_SELECTED_TAB := "selected_tab"
  const KEY_SELECTED_ITEM := "selected_item"

  /** `HomeUiState`; no item selected is -1. */
  datatype HomeUiState = HomeUiState(selectedTab: int, selectedItemIndex: int)

  /** The saved-state store, restricted to its integer entries. */
  type SavedState = map<string, int>

  /** The UI state read back from a saved-state store; a missing entry takes its default. */
  function Restored(saved: SavedState): (u: HomeUiState)
    ensures KEY_SELECTED_TAB !in saved ==> u.selectedTab == 0
    ensures KEY_SELECTED_TAB in saved ==> u.selectedTab == saved[KEY_SELECTED_TAB]
    ensures KEY_SELECTED_ITEM !in saved ==> u.selectedItemIndex == -1
    ensures KEY_SELECTED_ITEM in saved ==> u.selectedItemIndex == saved[KEY_SELECTED_ITEM]
  {
    HomeUiState(
      if KEY_SELECTED_TAB in saved then saved[KEY_SELECTED_TAB] else 0,
      if KEY_SELECTED_ITEM in saved then saved[KEY_SELECTED_ITEM] else -1)
  }

  /** The store after `selectTab(tab)`. */
  function TabSaved(saved: SavedState, tab: int): SavedState {
    saved[KEY_SELECTED_TAB := tab][KEY_SELECTED_ITEM := -1]
  }

  /** The store after `selectItem(item)`. */
  function ItemSaved(saved: SavedState, item: int): SavedState {
    saved[KEY_SELECTED_ITEM := item]
  }

  class HomeViewModel {
    var saved: SavedState
    var uiState: HomeUiState

    /** The UI state is always what a restart would restore from the store. */
    ghost predicate Valid()
      reads this
    {
      uiState == Restored(saved)
    }

    constructor (saved: SavedState)
      ensures Valid() && this.saved == saved
      ensures uiState == Restored(saved)
    {
      this.saved := saved;
      uiState := Restored(saved);
    }

    /** `selectTab`: the new tab, with the item selection cleared, in both places. */
    method SelectTab(tabIndex: int)
      requires Valid()
      modifies this
      ensures Valid()
      ensures saved == TabSaved(old(saved), tabIndex)
      ensures uiState == HomeUiState(tabIndex, -1)
    {
      saved := saved[KEY_SELECTED_TAB := tabIndex];
      uiState := uiState.(selectedTab := tabIndex, selectedItemIndex := -1);
      saved := saved[KEY_SELECTED_ITEM := -1];
    }

    /** `selectItem`: the new item; the tab stays. */
    method SelectItem(itemIndex: int)
      requires Valid()
      modifies this
      ensures Valid()
      ensures saved == ItemSaved(old(saved), itemIndex)
      ensures uiState == old(uiState).(selectedItemIndex := itemIndex)
    {
      saved := saved[KEY_SELECTED_ITEM := itemIndex];
      uiState := uiState.(selectedItemIndex := itemIndex);
    }
  }

  // ------------------------------------------------------ properties

  /** Selecting the same tab twice leaves the same store as selecting it once. */
  lemma SelectTabIdempotent(saved: SavedState, tab: int)
    ensures TabSaved(TabSaved(saved, tab), tab) == TabSaved(saved, tab)
  {
  }

  /** After `selectTab` both entries are present and hold exactly the UI state's fields. */
  lemma TabSavedHoldsBothFields(saved: SavedState, tab: int)
    ensures var s := TabSaved(saved, tab);
      KEY_SELECTED_TAB in s && s[KEY_SELECTED_TAB] == tab &&
      KEY_SELECTED_ITEM in s && s[KEY_SELECTED_ITEM] == -1
  {
  }

  /**
   * After `selectItem` on a store that never held a tab, the tab entry is
   * still missing: the saved entries equal the UI fields only up to the
   * defaults a restart applies.
   */
  lemma ItemSavedMayLackTab(item: int)
    ensures KEY_SELECTED_TAB !in ItemSaved(map[], item)
    ensures Restored(ItemSaved(map[], item)) == HomeUiState(0, item)
  {
  }
}
