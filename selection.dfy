/**
 * The checkbox lists of the user and role forms: a list of selected ids
 * that a checkbox change extends or filters.
 */
module Selection {
  import opened Seqs

  function Not(id: int): int -> bool
  {
    (x: int) => x != id
  }

  /**
   * A checkbox change: checking appends the id (even if it is already
   * there), unchecking removes every occurrence and keeps the order of the
   * rest.
   */
  function Toggle(selected: seq<int>, id: int, checked: bool): (r: seq<int>)
    ensures checked ==> r == selected + [id]
    ensures !checked ==> (forall x :: x in r <==> x in selected && x != id) && |r| <= |selected|
    ensures !checked ==> r == Filter(selected, Not(id))
  {
    if checked then selected + [id]
    else
      forall x ensures x in Filter(selected, Not(id)) <==> x in selected && x != id {
        FilterMembership(selected, Not(id), x);
      }
      Filter(selected, Not(id))
  }

  /** `watch(field) || []`: a selection the form never set reads as empty. */
  function Current(ids: Option<seq<int>>): (r: seq<int>)
    ensures ids.None? ==> r == []
    ensures ids.Some? ==> r == ids.value
  {
    if ids.Some? then ids.value else []
  }

  /** After a change the box shows exactly what was chosen, and no other box changes. */
  lemma ToggleShows(selected: seq<int>, id: int, checked: bool, other: int)
    ensures (id in Toggle(selected, id, checked)) == checked
    ensures other != id ==> (other in Toggle(selected, id, checked) <==> other in selected)
  {
  }

  /** Checking an unchecked box and unchecking it again gives the selection back. */
  lemma {:induction false} CheckThenUncheck(selected: seq<int>, id: int)
    requires id !in selected
    ensures Toggle(Toggle(selected, id, true), id, false) == selected
  {
    FilterAppend(selected, [id], Not(id));
    FilterAll(selected, Not(id));
  }

  /** Unchecking twice is unchecking once. */
  lemma UncheckIdempotent(selected: seq<int>, id: int)
    ensures Toggle(Toggle(selected, id, false), id, false) == Toggle(selected, id, false)
  {
    FilterAll(Toggle(selected, id, false), Not(id));
  }
}
