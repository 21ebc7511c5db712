/** Choosing services before booking (`Index.tsx` and `Services.tsx`): a click toggles a
    service id in the selection, the running total prices the selected ids against the loaded
    services, and scheduling opens only with a non-empty selection. */
module ServiceSelection {
  import opened Wrappers
  import opened Seqs
  import opened Tables

  /** `id => id !== serviceId`. */
  function NotId(id: Id): Id -> bool {
    (x: Id) => x != id
  }

  /** `handleServiceToggle`: a selected id is removed, every occurrence of it; any other id is
      appended at the end. */
  function Toggle(selected: seq<Id>, id: Id): (r: seq<Id>)
    ensures id in selected ==> |r| < |selected|
    ensures id !in selected ==> |r| == |selected| + 1 && r[|selected|] == id
  {
    if id in selected then
      FilterKeepsAll(selected, NotId(id));
      Filter(selected, NotId(id))
    else selected + [id]
  }

  /** Toggling flips the membership of the clicked id and leaves every other id as it was:
      the selection as a set is the symmetric difference with `{id}`. */
  lemma {:induction false} ToggleMembership(selected: seq<Id>, id: Id, x: Id)
    ensures x in Toggle(selected, id) <==> (x == id) != (x in selected)
  {
    if id in selected {
      FilterMembership(selected, NotId(id), x);
    }
  }

  /** A selection built by toggling never holds an id twice. */
  predicate Distinct(selected: seq<Id>) {
    forall i, j :: 0 <= i < j < |selected| ==> selected[i] != selected[j]
  }

  lemma {:induction false} FilterKeepsDistinct(xs: seq<Id>, p: Id -> bool)
    requires Distinct(xs)
    ensures Distinct(Filter(xs, p))
    decreases |xs|
  {
    if xs != [] {
      var init, last := xs[..|xs| - 1], xs[|xs| - 1];
      FilterKeepsDistinct(init, p);
      FilterMembership(init, p, last);
    }
  }

  lemma {:induction false} ToggleKeepsDistinct(selected: seq<Id>, id: Id)
    requires Distinct(selected)
    ensures Distinct(Toggle(selected, id))
  {
    if id in selected {
      FilterKeepsDistinct(selected, NotId(id));
    }
  }

  /** Toggling twice restores which ids are selected. */
  lemma {:induction false} ToggleTwiceRestoresMembership(selected: seq<Id>, id: Id, x: Id)
    ensures x in Toggle(Toggle(selected, id), id) <==> x in selected
  {
    ToggleMembership(selected, id, x);
    ToggleMembership(Toggle(selected, id), id, x);
  }

  /** … but not their order: a selected id toggled twice moves to the end. */
  lemma ToggleTwiceReorders()
    ensures Toggle(Toggle(["a", "b"], "a"), "a") == ["b", "a"]
  {
    assert Filter(["a", "b"], NotId("a")) == ["b"] by {
      assert ["a", "b"][..1] == ["a"];
      assert ["a"][..0] == [];
    }
  }

  /** In a selection without duplicates, removing an id removes the one place it holds. */
  lemma {:induction false} ToggleOffDeletes(selected: seq<Id>, i: nat)
    requires Distinct(selected) && i < |selected|
    ensures Toggle(selected, selected[i]) == selected[..i] + selected[i + 1..]
  {
    var id := selected[i];
    var head, tail := selected[..i], selected[i + 1..];
    assert selected == head + [id] + tail;
    FilterAppend(head + [id], tail, NotId(id));
    FilterAppend(head, [id], NotId(id));
    FilterAll(head, NotId(id));
    FilterAll(tail, NotId(id));
    assert [id][..0] == [];
  }

  function HasId(id: Id): Service -> bool {
    (s: Service) => s.id == id
  }

  /** `services.find(s => s.id === id)?.price || 0`. */
  function PriceOf(services: seq<Service>, id: Id): (price: real)
    ensures (forall i :: 0 <= i < |services| ==> services[i].id != id) ==> price == 0.0
    ensures (exists i :: 0 <= i < |services| && services[i].id == id) ==>
              exists i :: 0 <= i < |services| && services[i].id == id && services[i].price == price
  {
    match Find(services, HasId(id))
    case None => 0.0
    case Some(s) => s.price
  }

  function Pricer(services: seq<Service>): Id -> real {
    (id: Id) => PriceOf(services, id)
  }

  /** `getTotalPrice` of the home page: the selected ids' prices added up. */
  function Total(services: seq<Service>, selected: seq<Id>): real {
    Sum(selected, Pricer(services))
  }

  /** `getTotalPrice` of the services page: 0 until the services have loaded. */
  function LoadedTotal(services: Option<seq<Service>>, selected: seq<Id>): (t: real)
    ensures services.None? ==> t == 0.0
    ensures services.Some? ==> t == Total(services.value, selected)
  {
    if services.None? then 0.0 else Total(services.value, selected)
  }

  /** The total follows the clicks: selecting an id adds its price, and deselecting an id of
      a duplicate-free selection takes its price off again. */
  lemma {:induction false} TotalAfterToggle(services: seq<Service>, selected: seq<Id>, id: Id)
    requires Distinct(selected)
    ensures id !in selected ==> Total(services, Toggle(selected, id)) == Total(services, selected) + PriceOf(services, id)
    ensures id in selected ==> Total(services, Toggle(selected, id)) == Total(services, selected) - PriceOf(services, id)
  {
    if id in selected {
      var i :| 0 <= i < |selected| && selected[i] == id;
      ToggleOffDeletes(selected, i);
      SumRemove(selected, Pricer(services), i);
    } else {
      SumAppend(selected, [id], Pricer(services));
      assert [id][..0] == [];
    }
  }

  /** An id no loaded service carries adds nothing: the total of a selection is the total of
      its known ids. */
  lemma {:induction false} UnknownIdsAddNothing(services: seq<Service>, selected: seq<Id>, id: Id)
    requires forall i :: 0 <= i < |services| ==> services[i].id != id
    ensures Total(services, selected + [id]) == Total(services, selected)
  {
    SumAppend(selected, [id], Pricer(services));
    assert [id][..0] == [];
  }

  /** The home page's state: the selection and whether the calendar is open. */
  datatype Page = Page(selected: seq<Id>, showScheduling: bool)

  /** `handleProceedToScheduling` on the home page: the calendar opens only for a non-empty
      selection; otherwise the page is left as it was (an error toast is shown). */
  function ProceedToScheduling(p: Page): (q: Page)
    ensures q.selected == p.selected
    ensures q.showScheduling <==> p.showScheduling || |p.selected| > 0
  {
    if |p.selected| == 0 then p else p.(showScheduling := true)
  }

  /** The end of a booking (`onScheduled`) and a successful sign-out both empty the selection
      and close the calendar; a failed sign-out changes nothing. */
  function Scheduled(p: Page): (q: Page)
    ensures q.selected == [] && !q.showScheduling
  {
    Page([], false)
  }

  function SignOut(p: Page, failed: bool): (q: Page)
    ensures failed ==> q == p
    ensures !failed ==> q == Scheduled(p)
  {
    if failed then p else Page([], false)
  }

  /** After a booking or a sign-out the next booking starts from nothing: the total is 0 and
      proceeding is refused until a service is chosen. */
  lemma {:induction false} ResetBlocksProceeding(services: seq<Service>, p: Page)
    ensures Total(services, Scheduled(p).selected) == 0.0
    ensures ProceedToScheduling(Scheduled(p)) == Scheduled(p)
  {
  }

  /** The services page's button: enabled exactly for a non-empty selection. */
  predicate ProceedEnabled(selected: seq<Id>) {
    |selected| > 0
  }

  /** `handleProceedToScheduling` on the services page: the selection as it stands is handed
      to the calendar, or nothing when it is empty. */
  function Proceed(selected: seq<Id>): (handed: Option<seq<Id>>)
    ensures handed.Some? <==> ProceedEnabled(selected)
    ensures handed.Some? ==> handed.value == selected
  {
    if |selected| == 0 then None else Some(selected)
  }
}
