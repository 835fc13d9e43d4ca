/** Index navigation over a page flow: an optional table from page index to entry, with
    bounded lookups of the first, previous and next page. The entry type is left open. */
module PageFlow {
  import opened Common

  datatype FlowManager<E> = FlowManager(flow: Option<map<int, E>>)

  function Lookup<E>(m: map<int, E>, i: int): Option<E> {
    if i in m then Some(m[i]) else None
  }

  /** `getFlowCount`. */
  function GetFlowCount<E>(fm: FlowManager<E>): (n: nat)
    ensures fm.flow.None? ==> n == 0
    ensures fm.flow.Some? ==> n == |fm.flow.value|
  {
    match fm.flow
    case None => 0
    case Some(m) => |m|
  }

  /** `getInitialEntry`: the entry at index 0. */
  function GetInitialEntry<E>(fm: FlowManager<E>): (r: Option<E>)
    ensures r.Some? <==> fm.flow.Some? && 0 in fm.flow.value
    ensures r.Some? ==> r.value == fm.flow.value[0]
  {
    match fm.flow
    case None => None
    case Some(m) => Lookup(m, 0)
  }

  /** `getPreviousEntry`: nothing before index 0, otherwise the entry at `index - 1`. */
  function GetPreviousEntry<E>(fm: FlowManager<E>, index: int): (r: Option<E>)
    ensures r.Some? <==> fm.flow.Some? && index - 1 >= 0 && index - 1 in fm.flow.value
    ensures r.Some? ==> r.value == fm.flow.value[index - 1]
  {
    match fm.flow
    case None => None
    case Some(m) => if index - 1 < 0 then None else Lookup(m, index - 1)
  }

  /** `getNextEntry`: nothing from the count on, otherwise the entry at `index + 1`. */
  function GetNextEntry<E>(fm: FlowManager<E>, index: int): (r: Option<E>)
    ensures r.Some? <==> fm.flow.Some? && index + 1 < GetFlowCount(fm) && index + 1 in fm.flow.value
    ensures r.Some? ==> r.value == fm.flow.value[index + 1]
  {
    match fm.flow
    case None => None
    case Some(m) => if index + 1 >= |m| then None else Lookup(m, index + 1)
  }

  /** Without a flow every accessor answers nothing. */
  lemma NoFlowAnswersNothing<E>(fm: FlowManager<E>, index: int)
    requires fm.flow.None?
    ensures GetFlowCount(fm) == 0 && GetInitialEntry(fm).None?
    ensures GetPreviousEntry(fm, index).None? && GetNextEntry(fm, index).None?
  {
  }

  /** Going back from page 1 reaches the initial entry. */
  lemma PreviousOfSecondIsInitial<E>(fm: FlowManager<E>)
    ensures GetPreviousEntry(fm, 1) == GetInitialEntry(fm)
  {
  }

  /** Forward then back: on a flow indexed `0 .. count - 1`, the page after `i` has `i` as
      its previous page, and both steps find an entry. */
  lemma NextThenPrevious<E>(fm: FlowManager<E>, i: int)
    requires fm.flow.Some?
    requires forall k :: 0 <= k < |fm.flow.value| ==> k in fm.flow.value
    requires 0 <= i && i + 1 < GetFlowCount(fm)
    ensures GetNextEntry(fm, i) == Some(fm.flow.value[i + 1])
    ensures GetPreviousEntry(fm, i + 1) == Some(fm.flow.value[i])
  {
  }

  /** The last page has no next page, whatever the table holds. */
  lemma LastHasNoNext<E>(fm: FlowManager<E>)
    ensures GetNextEntry(fm, GetFlowCount(fm) - 1).None?
  {
  }
}
