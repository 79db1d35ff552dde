/**
 * The two click behaviours the dashboard's collapsible sections and
 * expandable rows share: flipping one name in a set of expanded names
 * (copy the Set, then `delete` if present, else `add`), and a single
 * selection that a click on the selected item clears
 * (`setX(x === clicked ? null : clicked)`).
 */
module UiState {
  import opened Common

  /** The set after a click on `name`: its membership flips. */
  function Toggle(expanded: set<string>, name: string): (r: set<string>)
    ensures name in r <==> name !in expanded
    ensures forall other :: other != name ==> (other in r <==> other in expanded)
  {
    if name in expanded then expanded - {name} else expanded + {name}
  }

  /** Two clicks on the same name restore the set. */
  lemma ToggleInvolution(expanded: set<string>, name: string)
    ensures Toggle(Toggle(expanded, name), name) == expanded
  {
  }

  /** Clicks on different names commute. */
  lemma ToggleCommutes(expanded: set<string>, a: string, b: string)
    ensures Toggle(Toggle(expanded, a), b) == Toggle(Toggle(expanded, b), a)
  {
  }

  /** The selection after a click on `clicked`. */
  function SelectToggle<T(==)>(selected: Option<T>, clicked: T): (r: Option<T>)
    ensures selected == Some(clicked) ==> r == None
    ensures selected != Some(clicked) ==> r == Some(clicked)
  {
    if selected == Some(clicked) then None else Some(clicked)
  }

  /** Two clicks on the same item: a selected item ends selected again, any other ends with nothing selected. */
  lemma SelectToggleTwice<T>(selected: Option<T>, clicked: T)
    ensures SelectToggle(SelectToggle(selected, clicked), clicked)
      == (if selected == Some(clicked) then Some(clicked) else None)
  {
  }

  /** The selection after a sequence of clicks, in order. */
  function SelectClicks<T(==)>(selected: Option<T>, clicks: seq<T>): Option<T>
    decreases |clicks|
  {
    if |clicks| == 0 then selected else SelectToggle(SelectClicks(selected, clicks[..|clicks| - 1]), clicks[|clicks| - 1])
  }

  /** Clicking through one sequence and then another is clicking through both. */
  lemma {:induction false} SelectClicksAppend<T>(selected: Option<T>, a: seq<T>, b: seq<T>)
    ensures SelectClicks(selected, a + b) == SelectClicks(SelectClicks(selected, a), b)
    decreases |b|
  {
    if |b| > 0 {
      assert (a + b)[..|a + b| - 1] == a + b[..|b| - 1];
      SelectClicksAppend(selected, a, b[..|b| - 1]);
    } else {
      assert a + b == a;
    }
  }

  /** After some clicks nothing is selected, or the item clicked last: never an earlier one. */
  lemma SelectClicksLast<T>(selected: Option<T>, clicks: seq<T>)
    requires |clicks| > 0
    ensures SelectClicks(selected, clicks) == None || SelectClicks(selected, clicks) == Some(clicks[|clicks| - 1])
  {
  }

  /**
   * k clicks on one item: it ends selected exactly when k is odd and it was
   * not selected before, or k is even and it was.
   */
  lemma {:induction false} SelectClicksRepeat<T>(selected: Option<T>, clicked: T, k: nat)
    requires k > 0
    ensures SelectClicks(selected, seq(k, i => clicked)) ==
      (if (selected == Some(clicked)) == (k % 2 == 0) then Some(clicked) else None)
    decreases k
  {
    var clicks := seq(k, i => clicked);
    assert clicks[..k - 1] == seq(k - 1, i => clicked);
    if k > 1 {
      SelectClicksRepeat(selected, clicked, k - 1);
    }
  }
}
