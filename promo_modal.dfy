/** The promotion dialog: the product search, the selection of linked
    products (an insertion-ordered set of ids), the form filled on open, and
    the save that writes the promo and then replaces all of its product links. */
module PromoModal {
  import opened Wrappers
  import opened Text
  import opened Seqs

  // ------------------------------------------------------------- entities

  /** A product as the dialog loads it; the code column may be `null`. */
  datatype Producto = Producto(id: string, descripcion: string, codigo: JsOpt<string>, precio: real)

  /** A promo handed to the dialog, with the ids of its linked products. */
  datatype Promo = Promo(
    id: Option<string>,
    nombre: string,
    descripcion: JsOpt<string>,
    descuento: real,
    fechaInicio: string,
    fechaFin: string,
    activa: bool,
    productos: Option<seq<string>>)

  /** The dialog's text fields, as typed. */
  datatype PromoForm = PromoForm(
    nombre: string,
    descripcion: string,
    descuento: string,
    fechaInicio: string,
    fechaFin: string,
    activa: bool)

  const EmptyForm := PromoForm("", "", "", "", "", true)

  // ------------------------------------------------------------ selection

  /** No id occurs twice: the shape of a JavaScript `Set` kept in insertion order. */
  ghost predicate Distinct(s: seq<string>) {
    forall i, j :: 0 <= i < j < |s| ==> s[i] != s[j]
  }

  /** `new Set(ids)` in iteration order: the first occurrence of each id. */
  function Dedup(ids: seq<string>): (r: seq<string>)
    ensures Distinct(r)
    ensures forall x :: x in r <==> x in ids
  {
    if ids == [] then []
    else
      var r := Dedup(ids[..|ids| - 1]);
      assert forall x :: x in ids <==> x in ids[..|ids| - 1] || x == ids[|ids| - 1] by {
        assert ids == ids[..|ids| - 1] + [ids[|ids| - 1]];
      }
      if ids[|ids| - 1] in r then r else r + [ids[|ids| - 1]]
  }

  /** `set.delete(id)`. */
  function Remove(s: seq<string>, id: string): (r: seq<string>)
    requires Distinct(s)
    ensures Distinct(r)
    ensures forall x :: x in r <==> x in s && x != id
  {
    if s == [] then []
    else if s[0] == id then Remove(s[1..], id)
    else
      var rest := Remove(s[1..], id);
      assert s[0] !in s[1..];
      [s[0]] + rest
  }

  /** Deleting an id that was not there leaves the set as it was. */
  lemma {:induction false} RemoveAbsent(s: seq<string>, id: string)
    requires Distinct(s) && id !in s
    ensures Remove(s, id) == s
  {
    if s != [] {
      RemoveAbsent(s[1..], id);
    }
  }

  /** Deleting the id just added gives back the set before the add. */
  lemma {:induction false} RemoveAppended(s: seq<string>, id: string)
    requires Distinct(s) && id !in s
    ensures Distinct(s + [id])
    ensures Remove(s + [id], id) == s
  {
    assert Distinct(s + [id]);
    if s == [] {
      assert Remove([id], id) == Remove([], id);
    } else {
      assert (s + [id])[1..] == s[1..] + [id];
      RemoveAppended(s[1..], id);
    }
  }

  /** `toggleProducto`: delete the id when it is selected, add it otherwise. */
  function Toggled(s: seq<string>, id: string): (r: seq<string>)
    requires Distinct(s)
    ensures Distinct(r)
    ensures id in r <==> id !in s
    ensures forall x :: x != id ==> (x in r <==> x in s)
  {
    if id in s then Remove(s, id)
    else
      assert Distinct(s + [id]);
      s + [id]
  }

  /** Toggling twice restores the selected set; when the id was not selected
      the selection comes back in its old order too. */
  lemma ToggleTwice(s: seq<string>, id: string)
    requires Distinct(s)
    ensures forall x :: x in Toggled(Toggled(s, id), id) <==> x in s
    ensures id !in s ==> Toggled(Toggled(s, id), id) == s
  {
    if id !in s {
      RemoveAppended(s, id);
    }
  }

  // --------------------------------------------------------------- search

  predicate DescripcionMatches(p: Producto, term: string) {
    Includes(ToLower(p.descripcion), ToLower(term))
  }

  /** The search reaches `p.codigo.toLowerCase()` only when the description
      does not match, and that call throws a `TypeError` on a missing code. */
  predicate CodigoThrows(p: Producto, term: string) {
    !DescripcionMatches(p, term) && !p.codigo.Val?
  }

  predicate MatchesTerm(p: Producto, term: string) {
    DescripcionMatches(p, term) || (p.codigo.Val? && Includes(ToLower(p.codigo.v), ToLower(term)))
  }

  /** `filteredProductos`, evaluated product by product in loaded order:
      `None` when the filter throws, which happens exactly when some product
      with no code fails the description test; otherwise the products whose
      lowercased description or code contains the lowercased term, in order. */
  function FilteredProductos(ps: seq<Producto>, term: string): (r: Option<seq<Producto>>)
    ensures r.None? <==> exists p :: p in ps && CodigoThrows(p, term)
    ensures r.Some? ==> r.value == Filter(ps, p => MatchesTerm(p, term))
    ensures r.Some? ==> forall p :: p in r.value <==>
      p in ps && (Includes(ToLower(p.descripcion), ToLower(term))
                  || (p.codigo.Val? && Includes(ToLower(p.codigo.v), ToLower(term))))
  {
    if ps == [] then Some([])
    else if CodigoThrows(ps[0], term) then None
    else match FilteredProductos(ps[1..], term)
      case None =>
        assert forall p :: p in ps[1..] ==> p in ps;
        None
      case Some(rest) =>
        assert forall p :: p in ps ==> p == ps[0] || p in ps[1..];
        Some((if MatchesTerm(ps[0], term) then [ps[0]] else []) + rest)
  }

  /** An empty search term shows every product, and never reaches a code. */
  lemma {:induction false} EmptyTermKeepsAll(ps: seq<Producto>)
    ensures FilteredProductos(ps, "") == Some(ps)
  {
    forall p | p in ps
      ensures MatchesTerm(p, "") && !CodigoThrows(p, "")
    {
      IncludesEmpty(ToLower(p.descripcion));
    }
    FilterAll(ps, p => MatchesTerm(p, ""));
  }

  // ---------------------------------------------------------------- open

  /** `x || ""` on a stored text. */
  function OrEmpty(d: JsOpt<string>): (r: string)
    ensures d.Val? ==> r == d.v
    ensures !d.Val? ==> r == ""
  {
    if d.Val? then d.v else ""
  }

  /** The form filled from a promo: its fields copied, the dates cut at the
      first 'T', the discount through the given number-to-text conversion. */
  function FormOf(p: Promo, show: real -> string): (f: PromoForm)
    ensures f.nombre == p.nombre && f.activa == p.activa && f.descuento == show(p.descuento)
    ensures f.descripcion == OrEmpty(p.descripcion)
    ensures StartsWith(p.fechaInicio, f.fechaInicio) && 'T' !in f.fechaInicio
    ensures StartsWith(p.fechaFin, f.fechaFin) && 'T' !in f.fechaFin
  {
    PromoForm(p.nombre, OrEmpty(p.descripcion), show(p.descuento),
      BeforeFirst(p.fechaInicio, 'T'), BeforeFirst(p.fechaFin, 'T'), p.activa)
  }

  /** A date already without a time part is copied whole. */
  lemma DateWithoutTimeKept(p: Promo, show: real -> string)
    requires 'T' !in p.fechaInicio && 'T' !in p.fechaFin
    ensures FormOf(p, show).fechaInicio == p.fechaInicio
    ensures FormOf(p, show).fechaFin == p.fechaFin
  {
  }

  /** The selection a promo opens with: its product ids, as a set. */
  function SelectionOf(p: Promo): (r: seq<string>)
    ensures Distinct(r)
    ensures p.productos.Some? ==> forall x :: x in r <==> x in p.productos.value
    ensures p.productos.None? ==> r == []
  {
    if p.productos.Some? then Dedup(p.productos.value) else []
  }

  /** `promo?.id` is truthy: the save edits that promo instead of creating one. */
  function EditedId(promo: Option<Promo>): (r: Option<string>)
    ensures r.Some? <==> promo.Some? && promo.value.id.Some? && promo.value.id.value != ""
    ensures r.Some? ==> r.value == promo.value.id.value
  {
    if promo.Some? && promo.value.id.Some? && promo.value.id.value != "" then promo.value.id else None
  }

  // --------------------------------------------------------------- store

  /** The promo columns as written: the discount through `parseFloat` (None
      for NaN) and the dates through the ISO conversion, both given. */
  datatype PromoData = PromoData(
    nombre: string,
    descripcion: string,
    descuento: Option<real>,
    fechaInicio: string,
    fechaFin: string,
    activa: bool)

  function DataOf(f: PromoForm, parse: string -> Option<real>, iso: string -> string): (d: PromoData)
    ensures d.nombre == f.nombre && d.descripcion == f.descripcion && d.activa == f.activa
    ensures d.descuento == parse(f.descuento)
    ensures d.fechaInicio == iso(f.fechaInicio) && d.fechaFin == iso(f.fechaFin)
  {
    PromoData(f.nombre, f.descripcion, parse(f.descuento), iso(f.fechaInicio), iso(f.fechaFin), f.activa)
  }

  datatype PromoRow = PromoRow(id: string, data: PromoData)
  datatype PromoLink = PromoLink(promo: string, producto: string)

  /** The `promos` and `promo_productos` tables. */
  datatype PromoStore = PromoStore(promos: seq<PromoRow>, links: seq<PromoLink>)

  /** Which of the save's store calls fail: the promo write (update or
      insert), the delete of the old links, the insert of the new ones. */
  datatype SubmitFaults = SubmitFaults(save: bool, delete: bool, insert: bool)

  datatype SubmitOutcome = Saved(promoId: string) | Failed

  /** The products linked to promo `id`, in table order. */
  function ProductosOf(links: seq<PromoLink>, id: string): (r: seq<string>)
    ensures forall x :: x in r <==> PromoLink(id, x) in links
  {
    if links == [] then []
    else
      assert forall l :: l in links <==> l == links[0] || l in links[1..];
      (if links[0].promo == id then [links[0].producto] else []) + ProductosOf(links[1..], id)
  }

  lemma {:induction false} ProductosOfAppend(a: seq<PromoLink>, b: seq<PromoLink>, id: string)
    ensures ProductosOf(a + b, id) == ProductosOf(a, id) + ProductosOf(b, id)
  {
    if a == [] {
      assert a + b == b;
    } else {
      assert (a + b)[1..] == a[1..] + b;
      ProductosOfAppend(a[1..], b, id);
    }
  }

  /** `delete().eq("promo_id", id)` on the links table. */
  function Deleted(links: seq<PromoLink>, id: string): (r: seq<PromoLink>)
    ensures forall l :: l in r <==> l in links && l.promo != id
  {
    Filter(links, (l: PromoLink) => l.promo != id)
  }

  /** After the delete, no link of promo `id` is left, and the others keep
      their products. */
  lemma {:induction false} ProductosOfDeleted(links: seq<PromoLink>, id: string, q: string)
    ensures ProductosOf(Deleted(links, id), q) ==
      if q == id then [] else ProductosOf(links, q)
  {
    if links != [] {
      ProductosOfDeleted(links[1..], id, q);
      var p := (l: PromoLink) => l.promo != id;
      assert Deleted(links, id) == if p(links[0]) then [links[0]] + Deleted(links[1..], id) else Deleted(links[1..], id);
    }
  }

  /** A promo no link refers to has no products. */
  lemma ProductosOfAbsent(links: seq<PromoLink>, id: string)
    requires forall l :: l in links ==> l.promo != id
    ensures ProductosOf(links, id) == []
  {
  }

  /** One link per selected id, in selection order: the rows inserted. */
  function LinksFor(id: string, sel: seq<string>): (r: seq<PromoLink>)
    ensures |r| == |sel|
  {
    if sel == [] then [] else [PromoLink(id, sel[0])] + LinksFor(id, sel[1..])
  }

  lemma {:induction false} ProductosOfLinksFor(id: string, sel: seq<string>, q: string)
    ensures ProductosOf(LinksFor(id, sel), q) == if q == id then sel else []
  {
    if sel != [] {
      var ls := LinksFor(id, sel);
      assert ls == [PromoLink(id, sel[0])] + LinksFor(id, sel[1..]);
      assert ls[1..] == LinksFor(id, sel[1..]);
      ProductosOfLinksFor(id, sel[1..], q);
      assert ProductosOf(ls, q) == (if q == id then [sel[0]] else []) + ProductosOf(ls[1..], q);
      assert sel == [sel[0]] + sel[1..];
    }
  }

  /** The `update(...).eq("id", id)` of the promo row. */
  function UpdateRows(rows: seq<PromoRow>, id: string, data: PromoData): (r: seq<PromoRow>)
    ensures |r| == |rows|
    ensures forall k :: 0 <= k < |r| ==>
      r[k] == if rows[k].id == id then PromoRow(id, data) else rows[k]
  {
    if rows == [] then []
    else [if rows[0].id == id then PromoRow(id, data) else rows[0]] + UpdateRows(rows[1..], id, data)
  }

  /** The final step of the save: insert the selected links, only when there
      is at least one. */
  function InsertLinks(db: PromoStore, id: string, sel: seq<string>, fails: bool): (r: (SubmitOutcome, PromoStore))
    ensures |sel| == 0 ==> r == (Saved(id), db)
    ensures |sel| > 0 && fails ==> r == (Failed, db)
    ensures |sel| > 0 && !fails ==> r == (Saved(id), db.(links := db.links + LinksFor(id, sel)))
  {
    if |sel| > 0 then
      if fails then (Failed, db) else (Saved(id), db.(links := db.links + LinksFor(id, sel)))
    else (Saved(id), db)
  }

  /** `handleSubmit` against the store. Editing: update the promo row,
      delete every link of the promo, then insert the selected ones. Creating:
      insert the promo under the store-assigned `newId`, then insert the
      selected links. The first failing call stops the rest; what the earlier
      calls wrote stays written. */
  function Submit(db: PromoStore, edited: Option<string>, data: PromoData, sel: seq<string>,
                  newId: string, f: SubmitFaults): (r: (SubmitOutcome, PromoStore))
    ensures f.save ==> r == (Failed, db)
    ensures r.0.Saved? ==> r.0.promoId == (if edited.Some? then edited.value else newId)
  {
    if edited.Some? then
      if f.save then (Failed, db)
      else
        var id := edited.value;
        var updated := db.(promos := UpdateRows(db.promos, id, data));
        if f.delete then (Failed, updated)
        else InsertLinks(updated.(links := Deleted(updated.links, id)), id, sel, f.insert)
    else
      if f.save then (Failed, db)
      else InsertLinks(db.(promos := db.promos + [PromoRow(newId, data)]), newId, sel, f.insert)
  }

  /** A successful edit replaces the promo's links with exactly the
      selection, in selection order, and leaves every other promo's links as
      they were. */
  lemma EditReplacesLinks(db: PromoStore, id: string, data: PromoData, sel: seq<string>,
                          newId: string, f: SubmitFaults, q: string)
    requires Submit(db, Some(id), data, sel, newId, f).0.Saved?
    ensures ProductosOf(Submit(db, Some(id), data, sel, newId, f).1.links, q) ==
      if q == id then sel else ProductosOf(db.links, q)
  {
    var kept := Deleted(db.links, id);
    ProductosOfDeleted(db.links, id, q);
    if |sel| > 0 {
      ProductosOfAppend(kept, LinksFor(id, sel), q);
      ProductosOfLinksFor(id, sel, q);
    }
  }

  /** A successful creation links the new promo to exactly the selection,
      given that the store hands out an id no link refers to yet. */
  lemma CreateLinksSelection(db: PromoStore, data: PromoData, sel: seq<string>,
                             newId: string, f: SubmitFaults, q: string)
    requires forall l :: l in db.links ==> l.promo != newId
    requires Submit(db, None, data, sel, newId, f).0.Saved?
    ensures ProductosOf(Submit(db, None, data, sel, newId, f).1.links, q) ==
      if q == newId then sel else ProductosOf(db.links, q)
  {
    ProductosOfAbsent(db.links, newId);
    if |sel| > 0 {
      ProductosOfAppend(db.links, LinksFor(newId, sel), q);
      ProductosOfLinksFor(newId, sel, q);
    }
  }

  /** With nothing selected no link is inserted, so the insert's failure
      cannot matter, and no link appears that was not there before. */
  lemma EmptySelectionNoInsert(db: PromoStore, edited: Option<string>, data: PromoData,
                               newId: string, f: SubmitFaults)
    ensures Submit(db, edited, data, [], newId, f) == Submit(db, edited, data, [], newId, f.(insert := !f.insert))
    ensures forall l :: l in Submit(db, edited, data, [], newId, f).1.links ==> l in db.links
  {
  }

  /** The old links go before the new ones arrive: when the insert fails
      after the delete, the edited promo is left with no products. */
  lemma FailedInsertLeavesNoLinks(db: PromoStore, id: string, data: PromoData, sel: seq<string>,
                                  newId: string, f: SubmitFaults)
    requires !f.save && !f.delete && f.insert && |sel| > 0
    ensures Submit(db, Some(id), data, sel, newId, f).0 == Failed
    ensures ProductosOf(Submit(db, Some(id), data, sel, newId, f).1.links, id) == []
  {
    ProductosOfDeleted(db.links, id, id);
  }

  /** An edit touches only the edited promo's row, and writes the new data there. */
  lemma EditWritesOnlyThatRow(db: PromoStore, id: string, data: PromoData, sel: seq<string>,
                              newId: string, f: SubmitFaults)
    requires !f.save
    ensures |Submit(db, Some(id), data, sel, newId, f).1.promos| == |db.promos|
    ensures forall k :: 0 <= k < |db.promos| ==>
      Submit(db, Some(id), data, sel, newId, f).1.promos[k] ==
        if db.promos[k].id == id then PromoRow(id, data) else db.promos[k]
  {
  }

  // --------------------------------------------------------------- dialog

  /** The dialog's state: whether it is open, the form, the selection, the
      search box, the loaded products and the store it saves to. */
  class PromoDialog {
    var open: bool
    var promo: Option<Promo>
    var form: PromoForm
    var selected: seq<string>
    var searchTerm: string
    var productos: seq<Producto>
    var loading: bool
    var store: PromoStore

    ghost predicate Valid()
      reads this
    {
      Distinct(selected)
    }

    constructor (db: PromoStore)
      ensures Valid()
      ensures !open && promo.None? && form == EmptyForm && selected == [] && searchTerm == ""
      ensures productos == [] && !loading && store == db
    {
      open := false;
      promo := None;
      form := EmptyForm;
      selected := [];
      searchTerm := "";
      productos := [];
      loading := false;
      store := db;
    }

    /** `resetForm`: the empty form, no selection, an empty search term. */
    method ResetForm()
      modifies this
      ensures Valid()
      ensures form == EmptyForm && selected == [] && searchTerm == ""
      ensures open == old(open) && promo == old(promo) && productos == old(productos)
      ensures loading == old(loading) && store == old(store)
    {
      form := EmptyForm;
      selected := [];
      searchTerm := "";
    }

    /** Opening the dialog, with or without a promo to edit. `loaded` is the
      product list the load returns (None when it fails, which keeps the old
      list). A promo fills the form and the selection and keeps the search
      term; no promo resets the form. */
    method Open(p: Option<Promo>, show: real -> string, loaded: Option<seq<Producto>>)
      modifies this
      ensures Valid()
      ensures open && promo == p && loading == old(loading) && store == old(store)
      ensures productos == if loaded.Some? then loaded.value else old(productos)
      ensures p.Some? ==>
        form == FormOf(p.value, show) && selected == SelectionOf(p.value) && searchTerm == old(searchTerm)
      ensures p.None? ==> form == EmptyForm && selected == [] && searchTerm == ""
    {
      open := true;
      promo := p;
      if loaded.Some? {
        productos := loaded.value;
      }
      if p.Some? {
        form := FormOf(p.value, show);
        selected := SelectionOf(p.value);
      } else {
        ResetForm();
      }
    }

    /** `toggleProducto`. */
    method Toggle(id: string)
      requires Valid()
      modifies this
      ensures Valid()
      ensures selected == Toggled(old(selected), id)
      ensures open == old(open) && promo == old(promo) && form == old(form)
      ensures searchTerm == old(searchTerm) && productos == old(productos)
      ensures loading == old(loading) && store == old(store)
    {
      selected := Toggled(selected, id);
    }

    /** Typing in the search box. */
    method Search(term: string)
      modifies this
      ensures searchTerm == term
      ensures open == old(open) && promo == old(promo) && form == old(form) && selected == old(selected)
      ensures productos == old(productos) && loading == old(loading) && store == old(store)
    {
      searchTerm := term;
    }

    /** The products the list shows; `None` when the filter throws on a
      product without a code. */
    function Shown(): (r: Option<seq<Producto>>)
      reads this
      ensures r.None? <==> exists x :: x in productos && CodigoThrows(x, searchTerm)
      ensures r.Some? ==> forall x :: x in r.value <==> x in productos && MatchesTerm(x, searchTerm)
    {
      FilteredProductos(productos, searchTerm)
    }

    /** `handleSubmit`: the store takes the effect of `Submit`; a save closes
      the dialog and a failure leaves it open; loading is off at the end. */
    method HandleSubmit(parse: string -> Option<real>, iso: string -> string,
                        newId: string, f: SubmitFaults) returns (outcome: SubmitOutcome)
      modifies this
      ensures (outcome, store) ==
        Submit(old(store), EditedId(old(promo)), DataOf(old(form), parse, iso), old(selected), newId, f)
      ensures open == (if outcome.Saved? then false else old(open))
      ensures !loading
      ensures promo == old(promo) && form == old(form) && selected == old(selected)
      ensures searchTerm == old(searchTerm) && productos == old(productos)
    {
      loading := true;
      var r := Submit(store, EditedId(promo), DataOf(form, parse, iso), selected, newId, f);
      outcome := r.0;
      store := r.1;
      if outcome.Saved? {
        open := false;
      }
      loading := false;
    }
  }
}
