/**
 * Multiple selection and deletion of displayed orders. A selection mode flag
 * and a set of selected identifiers live beside the rendered gallery items
 * and cards; clicks toggle membership, and deletions (confirmed by the user,
 * then sent to the order store) remove every rendered element carrying a
 * deleted identifier.
 */
module Selection {
  import opened Wrappers
  import opened Text
  import opened Commandes

  datatype ElementKind = GalleryItem | Card

  /**
   * A rendered order: the container (`view`) it sits in, its kind, its
   * `data-commande-id` (absent when the order had no id), and whether it
   * carries the `selected` class.
   */
  datatype Element = Element(view: string, kind: ElementKind, id: Option<Id>, selected: bool)

  /** `e` matches the selector `[data-commande-id="x"]` for some `x` in `ids`. */
  predicate Tagged(e: Element, ids: set<Id>) {
    e.id.Some? && e.id.value in ids
  }

  /** `els` with every element tagged with one of `ids` removed, the others kept in order. */
  function Without(els: seq<Element>, ids: set<Id>): (r: seq<Element>)
    ensures |r| <= |els|
    ensures forall i :: 0 <= i < |r| ==> !Tagged(r[i], ids)
    ensures forall e :: e in r ==> e in els
  {
    if els == [] then []
    else
      var last := els[|els| - 1];
      Without(els[..|els| - 1], ids) + (if Tagged(last, ids) then [] else [last])
  }

  /** Removal distributes over concatenation, so the survivors keep their relative order. */
  lemma {:induction false} WithoutConcat(a: seq<Element>, b: seq<Element>, ids: set<Id>)
    ensures Without(a + b, ids) == Without(a, ids) + Without(b, ids)
    decreases |b|
  {
    if b == [] {
      assert a + b == a;
    } else {
      assert (a + b)[..|a + b| - 1] == a + b[..|b| - 1];
      WithoutConcat(a, b[..|b| - 1], ids);
    }
  }

  /** An element that is not tagged survives removal. */
  lemma {:induction false} WithoutKeeps(els: seq<Element>, ids: set<Id>, i: int)
    requires 0 <= i < |els| && !Tagged(els[i], ids)
    ensures els[i] in Without(els, ids)
    decreases |els|
  {
    if i < |els| - 1 {
      WithoutKeeps(els[..|els| - 1], ids, i);
    }
  }

  /** Removing one set of identifiers and then another is removing their union. */
  lemma {:induction false} WithoutComposes(els: seq<Element>, a: set<Id>, b: set<Id>)
    ensures Without(Without(els, a), b) == Without(els, a + b)
    decreases |els|
  {
    if els != [] {
      var init := els[..|els| - 1];
      var last := els[|els| - 1];
      WithoutComposes(init, a, b);
      var tail := if Tagged(last, a) then [] else [last];
      WithoutConcat(Without(init, a), tail, b);
      if !Tagged(last, a) {
        assert Without(tail, b) == Without([], b) + (if Tagged(last, b) then [] else [last]);
      }
    }
  }

  /** Removing nothing keeps every element. */
  lemma {:induction false} WithoutNothing(els: seq<Element>)
    ensures Without(els, {}) == els
    decreases |els|
  {
    if els != [] {
      WithoutNothing(els[..|els| - 1]);
      assert els[..|els| - 1] + [els[|els| - 1]] == els;
    }
  }

  /** The `selected` class as `updateSelectionUI` leaves it when selection mode is off. */
  function Unmark(e: Element): Element {
    if e.kind == GalleryItem then e.(selected := false) else e
  }

  function Unmarked(els: seq<Element>): (r: seq<Element>)
    ensures |r| == |els|
    ensures forall i :: 0 <= i < |r| ==> r[i] == Unmark(els[i])
  {
    seq(|els|, i requires 0 <= i < |els| => Unmark(els[i]))
  }

  /** The set after `toggleCommandeSelection(id)`: `id` leaves it if present, and joins it otherwise. */
  function Toggled(ids: set<Id>, id: Id): (r: set<Id>)
    ensures id in ids ==> |r| == |ids| - 1
    ensures id !in ids ==> |r| == |ids| + 1
  {
    if id in ids then ids - {id} else ids + {id}
  }

  /** Toggling changes the membership of that one identifier and of no other. */
  lemma ToggledFlipsOnlyId(ids: set<Id>, id: Id)
    ensures id in Toggled(ids, id) <==> id !in ids
    ensures forall x :: x != id ==> (x in Toggled(ids, id) <==> x in ids)
  {
  }

  /** Toggling the same identifier twice restores the set. */
  lemma ToggleTwice(ids: set<Id>, id: Id)
    ensures Toggled(Toggled(ids, id), id) == ids
  {
    if id in ids {
      assert ids - {id} + {id} == ids;
    } else {
      assert ids + {id} - {id} == ids;
    }
  }

  /** The period pages whose list is reloaded after a deletion. */
  const PeriodPages := ["aujourdhui", "semaine", "mois"]

  /**
   * The period to reload after a deletion, from the id of the active
   * period page (absent when no period page is active): the first "page-" is
   * removed and the rest must name a period.
   */
  function ReloadTarget(activePage: Option<string>): (r: Option<string>)
    ensures r.Some? ==> activePage.Some? && r.value in PeriodPages
    ensures r.Some? ==> r.value == RemoveFirst(activePage.value, "page-")
  {
    if activePage.None? || activePage.value == [] then None
    else
      var key := RemoveFirst(activePage.value, "page-");
      if key in PeriodPages then Some(key) else None
  }

  /** Each period page reloads its own period. */
  lemma PeriodPageReloadsItself(k: string)
    requires k in PeriodPages
    ensures ReloadTarget(Some("page-" + k)) == Some(k)
  {
    var s := "page-" + k;
    assert IsPrefix("page-", s) && s[5..] == k;
  }

  const BulkDeleted := "Commandes supprimées avec succès."
  const BulkDeleteFailed := "Erreur lors de la suppression des commandes: "
  const Deleted := "Commande supprimée avec succès."
  const DeleteFailed := "Erreur lors de la suppression de la commande: "
  const NotConnected := "Base de données non connectée. Suppression impossible."
  const MissingId := "Impossible de supprimer : identifiant manquant."

  /**
   * The page state behind selection and deletion: the selection flag and set,
   * the rendered elements, the `active` class of each selection toggle button,
   * what the delete buttons and their counters show, and whether the detail
   * modal is open.
   */
  class SelectionState {
    var selectionMode: bool
    var selectedIds: set<Id>
    var displayed: seq<Element>
    var toggleActive: seq<bool>
    var deleteShown: bool
    var countShown: nat
    var modalOpen: bool

    /**
     * Out of selection mode nothing is selected and no gallery item is
     * marked; the delete buttons show only in mode with something selected,
     * and the counters show the size of the set.
     */
    ghost predicate Valid()
      reads this
    {
      && (!selectionMode ==> selectedIds == {} && forall e :: e in displayed ==> Unmark(e) == e)
      && deleteShown == (selectionMode && |selectedIds| > 0)
      && countShown == |selectedIds|
    }

    /** The page as loaded, with `buttons` selection toggle buttons and nothing rendered yet. */
    constructor (buttons: nat)
      ensures Valid()
      ensures !selectionMode && selectedIds == {} && displayed == [] && !modalOpen
      ensures toggleActive == seq(buttons, _ => false)
    {
      selectionMode := false;
      selectedIds := {};
      displayed := [];
      toggleActive := seq(buttons, _ => false);
      deleteShown := false;
      countShown := 0;
      modalOpen := false;
    }

    /**
     * `updateSelectionUI`: shows the delete buttons and counters, and out of
     * selection mode unmarks every gallery item and empties the set.
     */
    method UpdateSelectionUI()
      modifies this
      ensures Valid()
      ensures selectionMode == old(selectionMode)
      ensures selectedIds == (if selectionMode then old(selectedIds) else {})
      ensures displayed == (if selectionMode then old(displayed) else Unmarked(old(displayed)))
      ensures deleteShown == (selectionMode && |old(selectedIds)| > 0)
      ensures toggleActive == old(toggleActive) && modalOpen == old(modalOpen)
    {
      deleteShown := selectionMode && |selectedIds| > 0;
      countShown := |selectedIds|;
      if !selectionMode {
        var i := 0;
        while i < |displayed|
          invariant 0 <= i <= |displayed| == |old(displayed)|
          invariant forall j :: 0 <= j < i ==> displayed[j] == Unmark(old(displayed)[j])
          invariant forall j :: i <= j < |displayed| ==> displayed[j] == old(displayed)[j]
          invariant selectionMode == old(selectionMode) && selectedIds == old(selectedIds)
          invariant toggleActive == old(toggleActive) && modalOpen == old(modalOpen)
          invariant deleteShown == (selectionMode && |old(selectedIds)| > 0)
        {
          if displayed[i].kind == GalleryItem && displayed[i].selected {
            displayed := displayed[i := displayed[i].(selected := false)];
          }
          i := i + 1;
        }
        selectedIds := {};
        countShown := 0;
      }
    }

    /**
     * A click on toggle button `b`: its `active` class flips, selection mode
     * takes the new value, and the set is emptied.
     */
    method ToggleMode(b: nat)
      requires b < |toggleActive|
      modifies this
      ensures Valid()
      ensures toggleActive == old(toggleActive)[b := !old(toggleActive)[b]]
      ensures selectionMode == !old(toggleActive)[b]
      ensures selectedIds == {}
      ensures displayed == (if selectionMode then old(displayed) else Unmarked(old(displayed)))
      ensures modalOpen == old(modalOpen)
    {
      toggleActive := toggleActive[b := !toggleActive[b]];
      selectionMode := toggleActive[b];
      selectedIds := {};
      UpdateSelectionUI();
    }

    /** `toggleCommandeSelection(id, element)`, where the element is `displayed[i]`. */
    method ToggleSelection(id: Id, i: nat)
      requires i < |displayed|
      modifies this
      ensures Valid()
      ensures selectionMode == old(selectionMode)
      ensures selectedIds == (if selectionMode then Toggled(old(selectedIds), id) else {})
      ensures var marked := old(displayed)[i := old(displayed)[i].(selected := id !in old(selectedIds))];
              displayed == (if selectionMode then marked else Unmarked(marked))
      ensures toggleActive == old(toggleActive) && modalOpen == old(modalOpen)
    {
      if id in selectedIds {
        selectedIds := selectedIds - {id};
        displayed := displayed[i := displayed[i].(selected := false)];
      } else {
        selectedIds := selectedIds + {id};
        displayed := displayed[i := displayed[i].(selected := true)];
      }
      UpdateSelectionUI();
    }

    /**
     * A click on `displayed[i]`: in selection mode a gallery item with an id
     * toggles that id; any other click opens the detail modal.
     */
    method ClickItem(i: nat)
      requires Valid() && i < |displayed|
      modifies this
      ensures Valid()
      ensures selectionMode == old(selectionMode) && toggleActive == old(toggleActive)
      ensures var e := old(displayed)[i];
              if old(selectionMode) && e.kind == GalleryItem && e.id.Some? then
                && selectedIds == Toggled(old(selectedIds), e.id.value)
                && displayed == old(displayed)[i := e.(selected := e.id.value !in old(selectedIds))]
                && modalOpen == old(modalOpen)
              else
                selectedIds == old(selectedIds) && displayed == old(displayed) && modalOpen
    {
      var e := displayed[i];
      if selectionMode && e.kind == GalleryItem && e.id.Some? {
        ToggleSelection(e.id.value, i);
      } else {
        modalOpen := true;
      }
    }

    /**
     * `displayGalleryCommandes`: the container `view` is emptied, then gets one
     * unmarked gallery item per order, in order. Formatting the amount of an
     * order whose `montant` is null throws, so the items before that order stay
     * and `thrown` reports the exception to the caller.
     */
    method ShowGallery(view: string, orders: seq<Commande>) returns (thrown: bool)
      requires Valid()
      modifies this
      ensures Valid()
      ensures thrown <==> exists i :: 0 <= i < |orders| && orders[i].montant.None?
      ensures displayed == OtherViews(old(displayed), view) + GalleryOf(view, orders[..RenderedCount(orders)])
      ensures selectionMode == old(selectionMode) && selectedIds == old(selectedIds)
      ensures toggleActive == old(toggleActive) && modalOpen == old(modalOpen)
    {
      var shown := OtherViews(displayed, view);
      var i := 0;
      while i < |orders|
        invariant 0 <= i <= |orders|
        invariant forall j :: 0 <= j < i ==> orders[j].montant.Some?
        invariant shown == OtherViews(displayed, view) + GalleryOf(view, orders[..i])
      {
        if orders[i].montant.None? {
          displayed := shown;
          return true;
        }
        assert GalleryOf(view, orders[..i + 1]) == GalleryOf(view, orders[..i]) + [Element(view, GalleryItem, orders[i].id, false)];
        shown := shown + [Element(view, GalleryItem, orders[i].id, false)];
        i := i + 1;
      }
      assert orders[..i] == orders;
      displayed := shown;
      thrown := false;
    }

    /** Removes every rendered element whose `data-commande-id` is `id`. */
    method RemoveDisplayed(id: Id)
      requires Valid()
      modifies this
      ensures Valid()
      ensures displayed == Without(old(displayed), {id})
      ensures selectionMode == old(selectionMode) && selectedIds == old(selectedIds)
      ensures toggleActive == old(toggleActive) && modalOpen == old(modalOpen)
    {
      var kept: seq<Element> := [];
      var i := 0;
      while i < |displayed|
        invariant 0 <= i <= |displayed|
        invariant kept == Without(displayed[..i], {id})
      {
        assert displayed[..i + 1][..i] == displayed[..i];
        if !Tagged(displayed[i], {id}) {
          kept := kept + [displayed[i]];
        }
        i := i + 1;
      }
      assert displayed[..|displayed|] == displayed;
      displayed := kept;
    }

    /** `ids.forEach(...)`: removes the elements of each identifier in turn, in any order. */
    method RemoveAllDisplayed(ids: set<Id>)
      requires Valid()
      modifies this
      ensures Valid()
      ensures displayed == Without(old(displayed), ids)
      ensures selectionMode == old(selectionMode) && selectedIds == old(selectedIds)
      ensures toggleActive == old(toggleActive) && modalOpen == old(modalOpen)
    {
      var remaining := ids;
      var removed: set<Id> := {};
      WithoutNothing(displayed);
      while remaining != {}
        invariant remaining + removed == ids && remaining !! removed
        invariant Valid()
        invariant displayed == Without(old(displayed), removed)
        invariant selectionMode == old(selectionMode) && selectedIds == old(selectedIds)
        invariant toggleActive == old(toggleActive) && modalOpen == old(modalOpen)
        decreases |remaining|
      {
        var id :| id in remaining;
        RemoveDisplayed(id);
        WithoutComposes(old(displayed), removed, {id});
        remaining := remaining - {id};
        removed := removed + {id};
      }
    }

    /**
     * A click on a delete button with the user's answer to the confirmation,
     * whether the store is connected, the store's answer to the delete and
     * the id of the active period page. Returns the identifiers sent to the
     * store, the toast shown, and the period reloaded.
     */
    method DeleteSelected(confirmed: bool, connected: bool, outcome: RemoteOutcome, activePage: Option<string>)
      returns (request: Option<set<Id>>, toast: Option<Toast>, reload: Option<string>)
      requires Valid()
      modifies this
      ensures Valid()
      ensures toggleActive == old(toggleActive) && modalOpen == old(modalOpen)
      ensures request.Some? <==> |old(selectedIds)| > 0 && confirmed && connected
      ensures request.Some? ==> request.value == old(selectedIds)
      ensures old(selectedIds) == {} || !confirmed ==> toast.None?
      ensures |old(selectedIds)| > 0 && confirmed && !connected ==> toast == Some(Toast(NotConnected, ErrorToast))
      ensures request.Some? && outcome.Err? ==>
                toast == Some(Toast(BulkDeleteFailed + outcome.message, ErrorToast))
      ensures request.None? || outcome.Err? ==>
                && selectionMode == old(selectionMode) && selectedIds == old(selectedIds)
                && displayed == old(displayed) && reload.None?
      ensures request.Some? && outcome.Ok? ==>
                && displayed == Unmarked(Without(old(displayed), old(selectedIds)))
                && !selectionMode && selectedIds == {}
                && reload == ReloadTarget(activePage)
                && toast == Some(Toast(BulkDeleted, SuccessToast))
    {
      request, toast, reload := None, None, None;
      var ids := selectedIds;
      if |ids| == 0 || !confirmed {
        return;
      }
      if !connected {
        toast := Some(Toast(NotConnected, ErrorToast));
        return;
      }
      request := Some(ids);
      if outcome.Err? {
        toast := Some(Toast(BulkDeleteFailed + outcome.message, ErrorToast));
        return;
      }
      RemoveAllDisplayed(ids);
      selectionMode := false;
      UpdateSelectionUI();
      reload := ReloadTarget(activePage);
      toast := Some(Toast(BulkDeleted, SuccessToast));
    }

    /**
     * `handleDeleteCommande` for the order shown in the modal, whose id may
     * be missing. A successful delete removes its elements and closes the
     * modal but leaves the selection set as it was.
     */
    method DeleteOne(id: Option<Id>, confirmed: bool, connected: bool, outcome: RemoteOutcome,
                     activePage: Option<string>)
      returns (request: Option<Id>, toast: Option<Toast>, reload: Option<string>)
      requires Valid()
      modifies this
      ensures Valid()
      ensures selectionMode == old(selectionMode) && selectedIds == old(selectedIds)
      ensures toggleActive == old(toggleActive)
      ensures request.Some? <==> id.Some? && confirmed && connected
      ensures request.Some? ==> request == id
      ensures id.None? ==> toast == Some(Toast(MissingId, ErrorToast))
      ensures id.Some? && !confirmed ==> toast.None?
      ensures id.Some? && confirmed && !connected ==> toast == Some(Toast(NotConnected, ErrorToast))
      ensures request.Some? && outcome.Err? ==> toast == Some(Toast(DeleteFailed + outcome.message, ErrorToast))
      ensures request.None? || outcome.Err? ==>
                displayed == old(displayed) && modalOpen == old(modalOpen) && reload.None?
      ensures request.Some? && outcome.Ok? ==>
                && displayed == Without(old(displayed), {id.value})
                && !modalOpen
                && reload == ReloadTarget(activePage)
                && toast == Some(Toast(Deleted, SuccessToast))
    {
      request, toast, reload := None, None, None;
      if id.None? {
        toast := Some(Toast(MissingId, ErrorToast));
        return;
      }
      if !confirmed {
        return;
      }
      if !connected {
        toast := Some(Toast(NotConnected, ErrorToast));
        return;
      }
      request := id;
      if outcome.Err? {
        toast := Some(Toast(DeleteFailed + outcome.message, ErrorToast));
        return;
      }
      RemoveDisplayed(id.value);
      modalOpen := false;
      reload := ReloadTarget(activePage);
      toast := Some(Toast(Deleted, SuccessToast));
    }
  }

  /** The elements outside container `view`. */
  function OtherViews(els: seq<Element>, view: string): (r: seq<Element>)
    ensures forall i :: 0 <= i < |r| ==> r[i].view != view
    ensures forall e :: e in r ==> e in els
    ensures forall e :: e in els && e.view != view ==> e in r
  {
    if els == [] then []
    else
      var last := els[|els| - 1];
      assert els == els[..|els| - 1] + [last];
      OtherViews(els[..|els| - 1], view) + (if last.view == view then [] else [last])
  }

  /** Clearing a container distributes over concatenation, so the other containers' elements keep their order. */
  lemma {:induction false} OtherViewsConcat(a: seq<Element>, b: seq<Element>, view: string)
    ensures OtherViews(a + b, view) == OtherViews(a, view) + OtherViews(b, view)
    decreases |b|
  {
    if b == [] {
      assert a + b == a;
    } else {
      assert (a + b)[..|a + b| - 1] == a + b[..|b| - 1];
      OtherViewsConcat(a, b[..|b| - 1], view);
    }
  }

  /** A sequence with no element of container `view` is kept whole. */
  lemma {:induction false} OtherViewsKeepsOthers(els: seq<Element>, view: string)
    requires forall i :: 0 <= i < |els| ==> els[i].view != view
    ensures OtherViews(els, view) == els
    decreases |els|
  {
    if els != [] {
      OtherViewsKeepsOthers(els[..|els| - 1], view);
      assert els[..|els| - 1] + [els[|els| - 1]] == els;
    }
  }

  /** One fresh, unmarked gallery item per order shown in `view`, carrying the order's id. */
  function GalleryOf(view: string, orders: seq<Commande>): (r: seq<Element>)
    ensures |r| == |orders|
    ensures forall i :: 0 <= i < |r| ==> r[i] == Element(view, GalleryItem, orders[i].id, false)
  {
    seq(|orders|, i requires 0 <= i < |orders| => Element(view, GalleryItem, orders[i].id, false))
  }

  /**
   * How many orders `displayGalleryCommandes` renders: all of them, or those
   * before the first one whose null `montant` makes the rendering throw.
   */
  function RenderedCount(orders: seq<Commande>): (n: nat)
    ensures n <= |orders|
    ensures forall j :: 0 <= j < n ==> orders[j].montant.Some?
    ensures n < |orders| ==> orders[n].montant.None?
  {
    if orders == [] || orders[0].montant.None? then 0
    else 1 + RenderedCount(orders[1..])
  }

  /**
   * A successful bulk delete turns selection mode off but leaves the `active`
   * class on the toggle button that turned it on, so the next click on that
   * button turns the class off and selection mode stays off.
   */
  method BulkDeleteLeavesToggleActive() returns (modeAfterClick: bool)
    ensures !modeAfterClick
  {
    var page := new SelectionState(1);
    var thrown := page.ShowGallery("gallery-aujourdhui", [Commande(Some("42"), "C-7", Some(5000.0), None, 0)]);
    page.ToggleMode(0);
    assert page.selectionMode && page.displayed[0].id == Some("42");
    page.ClickItem(0);
    assert page.selectedIds == {"42"};
    var request, toast, reload := page.DeleteSelected(true, true, Ok, None);
    assert page.toggleActive[0];
    page.ToggleMode(0);
    modeAfterClick := page.selectionMode;
  }
}
