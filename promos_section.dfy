/** The promotions screen: the list of promos with their linked products,
    the active badge, and the delete confirmation flow. The store is the one
    the promotion dialog saves to. */
module PromosSection {
  import opened Wrappers
  import opened Seqs
  import opened Schema
  import opened PromoModal

  // ---------------------------------------------------------------- badge

  /** `isPromoActive`. Instants are milliseconds since the epoch as the date
      parser returns them; None stands for an unparsable date (NaN), against
      which every comparison is false. */
  predicate IsPromoActive(activa: bool, now: int, inicio: Option<int>, fin: Option<int>) {
    activa && inicio.Some? && fin.Some? && now >= inicio.value && now <= fin.value
  }

  /** A promo switched off is never active; a switched-on one is active
      exactly while `now` lies in its window, both ends included. */
  lemma ActiveIff(activa: bool, now: int, inicio: int, fin: int)
    ensures !activa ==> !IsPromoActive(activa, now, Some(inicio), Some(fin))
    ensures activa ==> (IsPromoActive(activa, now, Some(inicio), Some(fin)) <==> inicio <= now <= fin)
    ensures activa && inicio <= fin ==>
      IsPromoActive(activa, inicio, Some(inicio), Some(fin)) && IsPromoActive(activa, fin, Some(inicio), Some(fin))
  {
  }

  /** An unparsable start or end date keeps the badge on "Inactiva". */
  lemma InvalidDateInactive(activa: bool, now: int, inicio: Option<int>, fin: Option<int>)
    requires inicio.None? || fin.None?
    ensures !IsPromoActive(activa, now, inicio, fin)
  {
  }

  /** The active instants form one interval: active at two instants means
      active at every instant in between. */
  lemma ActiveBetween(activa: bool, t1: int, t: int, t2: int, inicio: Option<int>, fin: Option<int>)
    requires IsPromoActive(activa, t1, inicio, fin) && IsPromoActive(activa, t2, inicio, fin)
    requires t1 <= t <= t2
    ensures IsPromoActive(activa, t, inicio, fin)
  {
  }

  // ----------------------------------------------------------------- list

  /** A listed promo: its row, its product ids and their count. */
  datatype PromoWithProducts = PromoWithProducts(row: PromoRow, productos: seq<string>, productosCount: nat)

  /** One promo with the outcome of its `promo_productos` query; a failed
      query (no data) lists no product: `productos?.map(...) || []` and
      `productos?.length || 0`. */
  function WithProducts(row: PromoRow, query: Option<seq<string>>): (r: PromoWithProducts)
    ensures r.row == row
    ensures r.productosCount == |r.productos|
    ensures r.productos == if query.Some? then query.value else []
  {
    var productos := if query.Some? then query.value else [];
    PromoWithProducts(row, productos, |productos|)
  }

  /** `loadPromos` against the store: None when the promos query fails,
      otherwise every promo (in the order the query returns them) with the
      products of its links; `linkFaults[k]` says the k-th link query fails. */
  function LoadPromos(db: PromoStore, promosFails: bool, linkFaults: seq<bool>): (r: Option<seq<PromoWithProducts>>)
    ensures promosFails <==> r.None?
    ensures r.Some? ==> |r.value| == |db.promos|
    ensures r.Some? ==> forall k :: 0 <= k < |r.value| ==>
      r.value[k] == WithProducts(db.promos[k], if FaultAt(linkFaults, k) then None else Some(ProductosOf(db.links, db.promos[k].id)))
  {
    if promosFails then None
    else Some(seq(|db.promos|, (k: int) requires 0 <= k < |db.promos| =>
      WithProducts(db.promos[k], if FaultAt(linkFaults, k) then None else Some(ProductosOf(db.links, db.promos[k].id)))))
  }

  /** Every listed count is the length of the listed id list, and the ids
      are exactly the products linked to the promo when its query succeeds. */
  lemma CountIsLength(db: PromoStore, promosFails: bool, linkFaults: seq<bool>, k: nat)
    requires LoadPromos(db, promosFails, linkFaults).Some?
    requires k < |db.promos| && !FaultAt(linkFaults, k)
    ensures LoadPromos(db, promosFails, linkFaults).value[k].productosCount ==
      |LoadPromos(db, promosFails, linkFaults).value[k].productos|
    ensures forall x :: x in LoadPromos(db, promosFails, linkFaults).value[k].productos <==>
      PromoLink(db.promos[k].id, x) in db.links
  {
  }

  /** The dialog's success callback reloads the list: after an edit is saved,
      the reloaded list shows the edited promo with exactly the selected
      products, in selection order. */
  lemma SavedEditListed(db: PromoStore, id: string, data: PromoData, sel: seq<string>,
                        newId: string, f: SubmitFaults, k: nat)
    requires Submit(db, Some(id), data, sel, newId, f).0.Saved?
    requires k < |Submit(db, Some(id), data, sel, newId, f).1.promos|
    requires Submit(db, Some(id), data, sel, newId, f).1.promos[k].id == id
    ensures LoadPromos(Submit(db, Some(id), data, sel, newId, f).1, false, []).value[k].productos == sel
    ensures LoadPromos(Submit(db, Some(id), data, sel, newId, f).1, false, []).value[k].productosCount == |sel|
  {
    EditReplacesLinks(db, id, data, sel, newId, f, id);
  }

  // --------------------------------------------------------------- delete

  /** `delete().eq("id", id)` on the promos table. */
  function DeletePromo(rows: seq<PromoRow>, id: string): (r: seq<PromoRow>)
    ensures forall x :: x in r <==> x in rows && x.id != id
    ensures IsSubseq(r, rows)
  {
    FilterIsSubseq(rows, (x: PromoRow) => x.id != id);
    Filter(rows, (x: PromoRow) => x.id != id)
  }

  /** The promotions screen's state. `promoToDelete` is the pending id
      (`null` as None); `store` is the store it reads and deletes from. */
  class PromosScreen {
    var promos: seq<PromoWithProducts>
    var loading: bool
    var modalOpen: bool
    var selectedPromo: Option<PromoWithProducts>
    var deleteDialogOpen: bool
    var promoToDelete: Option<string>
    var store: PromoStore

    constructor (db: PromoStore)
      ensures promos == [] && loading && !modalOpen && selectedPromo.None?
      ensures !deleteDialogOpen && promoToDelete.None? && store == db
    {
      promos := [];
      loading := true;
      modalOpen := false;
      selectedPromo := None;
      deleteDialogOpen := false;
      promoToDelete := None;
      store := db;
    }

    /** `loadPromos`: a failed promos query keeps the old list. */
    method Load(promosFails: bool, linkFaults: seq<bool>)
      modifies this
      ensures promos == (var r := LoadPromos(store, promosFails, linkFaults); if r.Some? then r.value else old(promos))
      ensures !loading
      ensures modalOpen == old(modalOpen) && selectedPromo == old(selectedPromo)
      ensures deleteDialogOpen == old(deleteDialogOpen) && promoToDelete == old(promoToDelete)
      ensures store == old(store)
    {
      loading := true;
      var r := LoadPromos(store, promosFails, linkFaults);
      if r.Some? {
        promos := r.value;
      }
      loading := false;
    }

    /** `handleEdit`: the dialog opens on that promo. */
    method HandleEdit(p: PromoWithProducts)
      modifies this
      ensures selectedPromo == Some(p) && modalOpen
      ensures promos == old(promos) && loading == old(loading)
      ensures deleteDialogOpen == old(deleteDialogOpen) && promoToDelete == old(promoToDelete)
      ensures store == old(store)
    {
      selectedPromo := Some(p);
      modalOpen := true;
    }

    /** "Nueva Promo": the dialog opens with no promo. */
    method NewPromo()
      modifies this
      ensures selectedPromo.None? && modalOpen
      ensures promos == old(promos) && loading == old(loading)
      ensures deleteDialogOpen == old(deleteDialogOpen) && promoToDelete == old(promoToDelete)
      ensures store == old(store)
    {
      selectedPromo := None;
      modalOpen := true;
    }

    /** `confirmDelete`: record the id and open the confirmation. */
    method ConfirmDelete(id: string)
      modifies this
      ensures promoToDelete == Some(id) && deleteDialogOpen
      ensures promos == old(promos) && loading == old(loading)
      ensures modalOpen == old(modalOpen) && selectedPromo == old(selectedPromo)
      ensures store == old(store)
    {
      promoToDelete := Some(id);
      deleteDialogOpen := true;
    }

    /** `handleDelete`. With no pending id (null or empty) nothing happens.
      Otherwise the delete runs; when it succeeds the list is reloaded; in
      every case the confirmation closes and the pending id is cleared. */
    method HandleDelete(deleteFails: bool, promosFails: bool, linkFaults: seq<bool>)
      modifies this
      ensures old(promoToDelete).None? || old(promoToDelete).value == "" ==>
        promos == old(promos) && loading == old(loading) && deleteDialogOpen == old(deleteDialogOpen) &&
        promoToDelete == old(promoToDelete) && store == old(store)
      ensures old(promoToDelete).Some? && old(promoToDelete).value != "" ==>
        !deleteDialogOpen && promoToDelete.None? &&
        store == (if deleteFails then old(store)
                  else old(store).(promos := DeletePromo(old(store).promos, old(promoToDelete).value))) &&
        promos == (if deleteFails then old(promos)
                   else var r := LoadPromos(store, promosFails, linkFaults); if r.Some? then r.value else old(promos))
      ensures modalOpen == old(modalOpen) && selectedPromo == old(selectedPromo)
    {
      if promoToDelete.None? || promoToDelete.value == "" {
        return;
      }
      var id := promoToDelete.value;
      if !deleteFails {
        store := store.(promos := DeletePromo(store.promos, id));
        Load(promosFails, linkFaults);
      }
      deleteDialogOpen := false;
      promoToDelete := None;
    }
  }

  /** After a successful delete and reload, the deleted promo is no longer
      listed, and every other promo still is. */
  lemma DeletedNotListed(db: PromoStore, id: string, linkFaults: seq<bool>)
    ensures forall p :: p in LoadPromos(db.(promos := DeletePromo(db.promos, id)), false, linkFaults).value ==>
      p.row.id != id
    ensures |LoadPromos(db.(promos := DeletePromo(db.promos, id)), false, linkFaults).value| ==
      |db.promos| - |Filter(db.promos, (x: PromoRow) => x.id == id)|
  {
    var after := DeletePromo(db.promos, id);
    var listed := LoadPromos(db.(promos := after), false, linkFaults).value;
    forall p | p in listed
      ensures p.row.id != id
    {
      var k :| 0 <= k < |listed| && listed[k] == p;
      assert after[k] in after;
    }
    FilterComplement(db.promos, (x: PromoRow) => x.id != id, (x: PromoRow) => x.id == id);
  }
}
