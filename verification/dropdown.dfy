/**
 * The row action menu the companies and assistants pages share: at most
 * one menu is open, identified by its row's id (`openDropdown`, `null`
 * when `None`).
 */
module Dropdown {
  import opened Wrappers
  import opened JsValues

  /** `handleDropdownToggle(id)`: the open menu closes; any other id opens its own menu. */
  function Toggle(open: Option<Scalar>, id: Scalar): (r: Option<Scalar>)
    ensures r.None? <==> open == Some(id)
    ensures r.Some? ==> r.value == id
  {
    if open == Some(id) then None else Some(id)
  }

  /** Toggling the same id twice from a closed menu closes it again. */
  lemma ToggleTwice(id: Scalar)
    ensures Toggle(Toggle(None, id), id) == None
  {
  }

  /** Toggling another row's id moves the menu to that row. */
  lemma ToggleSwitches(a: Scalar, b: Scalar)
    requires a != b
    ensures Toggle(Toggle(None, a), b) == Some(b)
    ensures Toggle(Toggle(Toggle(None, a), b), b) == None
  {
  }

  /** A truthy id: the outside-click handler tests `openDropdown` for truthiness. */
  predicate TruthyId(x: Scalar) {
    match x
    case JStr(s) => s != ""
    case JNum(n) => n != 0
  }

  /**
   * The mouse-down handler: a click outside every menu closes the open one,
   * but only when its id is truthy, so a menu of row `0` or `""` stays open.
   */
  function ClickOutside(open: Option<Scalar>, insideMenu: bool): (r: Option<Scalar>)
    ensures insideMenu ==> r == open
    ensures !insideMenu && open.Some? && TruthyId(open.value) ==> r.None?
    ensures open.Some? && !TruthyId(open.value) ==> r == open
    ensures r.Some? ==> r == open
  {
    match open
    case Some(id) => if TruthyId(id) && !insideMenu then None else open
    case None => open
  }
}
