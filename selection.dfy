/**
 * The selected movie id. `handleSelectMovieId(id)` passes the updater
 * `selectedId => selectedId === id ? null : id`; `handleCloseMovie` sets null.
 */
module Selection {
  import opened Optional

  /** Clicking a result: deselects it when it is the selected one, selects it otherwise. */
  function Toggle(selected: Option<string>, id: string): (r: Option<string>)
    ensures r == None <==> selected == Some(id)
    ensures r != None ==> r == Some(id)
  {
    if selected == Some(id) then None else Some(id)
  }

  /** Toggling the same id twice clears the selection exactly when it was not that id before. */
  lemma ToggleTwice(selected: Option<string>, id: string)
    ensures Toggle(Toggle(selected, id), id) == None <==> selected != Some(id)
    ensures selected == Some(id) ==> Toggle(Toggle(selected, id), id) == selected
  {
    var once := Toggle(selected, id);
    if selected == Some(id) {
      assert once == None;
    } else {
      assert once == Some(id);
    }
  }

  /** Clicking results in turn selects the last one clicked, unless it was clicked twice in a row. */
  lemma ToggleOther(selected: Option<string>, a: string, b: string)
    requires a != b
    ensures Toggle(Toggle(selected, a), b) == Some(b)
  {
    var once := Toggle(selected, a);
    assert once != Some(b);
  }
}
