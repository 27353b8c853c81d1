/** The data hook's writes: the product update that clears emptied fields,
    the plan update that carries its `activo` flag over to the plan's default
    associations, the default associations created for a new product, and the
    two configuration upserts. Every store call takes a fault flag; a failed
    call throws, and the hook records its message in `error`. */
module SupabaseData {
  import opened Wrappers
  import opened Seqs
  import opened Schema

  /** A row or a partial update as the JavaScript object it is: column name to value. */
  type Record = map<string, JsValue>

  // ---------------------------------------------------------------- updateProducto

  /** `Object.fromEntries(Object.entries(u).map(([k, v]) => [k, v === undefined ? null : v]))`. */
  function Normalise(u: Record): (r: Record)
    ensures r.Keys == u.Keys
    ensures forall k :: k in u ==> r[k] == if u[k].VUndefined? then VNull else u[k]
    ensures forall k :: k in r ==> !r[k].VUndefined?
  {
    map k | k in u :: if u[k].VUndefined? then VNull else u[k]
  }

  lemma NormaliseIdempotent(u: Record)
    ensures Normalise(Normalise(u)) == Normalise(u)
  {
  }

  /** What reaches the store: JSON serialisation drops the keys whose value is `undefined`. */
  function Serialised(u: Record): (r: Record)
    ensures r.Keys <= u.Keys
    ensures forall k :: k in u ==> (k in r <==> !u[k].VUndefined?)
    ensures forall k :: k in r ==> r[k] == u[k]
  {
    map k | k in u && !u[k].VUndefined? :: u[k]
  }

  /** An `update(u)` of one row: the sent columns take their new values. */
  function ApplyUpdate(row: Record, u: Record): (r: Record)
    ensures r.Keys == row.Keys + Serialised(u).Keys
    ensures forall k :: k in Serialised(u) ==> r[k] == u[k]
    ensures forall k :: k in row && k !in Serialised(u) ==> r[k] == row[k]
  {
    row + Serialised(u)
  }

  /** With the normalisation, every key of the update is written: an emptied
      field is cleared to `null`, and the columns not mentioned keep their values. */
  lemma NormalisedUpdateWritesEveryKey(row: Record, u: Record)
    ensures ApplyUpdate(row, Normalise(u)).Keys == row.Keys + u.Keys
    ensures forall k :: k in u ==> ApplyUpdate(row, Normalise(u))[k] == if u[k].VUndefined? then VNull else u[k]
    ensures forall k :: k in row && k !in u ==> ApplyUpdate(row, Normalise(u))[k] == row[k]
  {
    assert Serialised(Normalise(u)) == Normalise(u);
  }

  /** Without it, an emptied field would keep its stored value. */
  lemma RawUpdateKeepsEmptied(row: Record, u: Record, k: string)
    requires k in row && k in u && u[k].VUndefined?
    ensures ApplyUpdate(row, u)[k] == row[k]
  {
  }

  /** The `productos` table as column maps, by id: `.update(...).eq('id', id)`
      touches the row with that id, if any. */
  function UpdateRows(rows: map<nat, Record>, id: nat, u: Record): (r: map<nat, Record>)
    ensures r.Keys == rows.Keys
    ensures id in rows ==> r[id] == ApplyUpdate(rows[id], u)
    ensures forall j :: j in rows && j != id ==> r[j] == rows[j]
  {
    if id in rows then rows[id := ApplyUpdate(rows[id], u)] else rows
  }

  // ---------------------------------------------------------------- updatePlan

  /** The columns of a partial plan update; `None` for a key not present. */
  datatype PlanUpdate = PlanUpdate(nombre: Option<string>, activo: Option<bool>)

  function UpdatePlans(planes: seq<Plan>, id: nat, u: PlanUpdate): (r: seq<Plan>)
    ensures |r| == |planes|
    ensures forall k :: 0 <= k < |planes| ==> r[k] == if planes[k].id != id then planes[k] else
      planes[k].(nombre := u.nombre.GetOr(planes[k].nombre), activo := u.activo.GetOr(planes[k].activo))
  {
    seq(|planes|, k requires 0 <= k < |planes| =>
      if planes[k].id != id then planes[k]
      else planes[k].(nombre := u.nombre.GetOr(planes[k].nombre), activo := u.activo.GetOr(planes[k].activo)))
  }

  /** `update({ activo }).eq('fk_id_plan', plan)` on the default associations. */
  function SyncActivo(ds: seq<DefaultAssoc>, plan: nat, activo: bool): (r: seq<DefaultAssoc>)
    ensures |r| == |ds|
    ensures forall k :: 0 <= k < |ds| ==> r[k] == if ds[k].plan == plan then ds[k].(activo := activo) else ds[k]
  {
    seq(|ds|, k requires 0 <= k < |ds| => if ds[k].plan == plan then ds[k].(activo := activo) else ds[k])
  }

  /** The store's tables this hook writes. */
  datatype Store = Store(
    tables: Tables,
    productoRows: map<nat, Record>,
    configuracion: seq<Configuracion>,
    web: map<nat, Record>)

  datatype Configuracion = Configuracion(id: nat, telefono: JsOpt<string>)

  /** `updatePlan`: whether it returns normally, and the store after it. A
      failed sync is logged and swallowed. */
  function UpdatePlanEffect(s: Store, id: nat, u: PlanUpdate, updateFails: bool, syncFails: bool): (bool, Store)
  {
    if updateFails then (false, s)
    else
      var t := s.tables.(planes := UpdatePlans(s.tables.planes, id, u));
      if u.activo.Some? && !syncFails then (true, s.(tables := t.(defaults := SyncActivo(t.defaults, id, u.activo.value))))
      else (true, s.(tables := t))
  }

  /** A successful update with `activo` gives that flag to every default
      association of the plan and leaves the others alone. */
  lemma UpdatePlanSyncsDefaults(s: Store, id: nat, b: bool, nombre: Option<string>)
    ensures var (ok, t) := UpdatePlanEffect(s, id, PlanUpdate(nombre, Some(b)), false, false);
      var ds := s.tables.defaults;
      ok && |t.tables.defaults| == |ds|
      && (forall k :: 0 <= k < |ds| && ds[k].plan == id ==> t.tables.defaults[k].activo == b)
      && (forall k :: 0 <= k < |ds| && ds[k].plan != id ==> t.tables.defaults[k] == ds[k])
      && (forall k :: 0 <= k < |ds| ==> t.tables.defaults[k].(activo := ds[k].activo) == ds[k])
  {
  }

  /** A failed sync does not fail the update: the plan is still updated, and
      only the associations are left as they were. */
  lemma SyncFailureKeepsUpdate(s: Store, id: nat, u: PlanUpdate)
    ensures var (ok, t) := UpdatePlanEffect(s, id, u, false, true);
      ok && t.tables.planes == UpdatePlans(s.tables.planes, id, u) && t.tables.defaults == s.tables.defaults
  {
  }

  /** An update without `activo` never touches the associations. */
  lemma NoActivoNoSync(s: Store, id: nat, nombre: Option<string>, syncFails: bool)
    ensures UpdatePlanEffect(s, id, PlanUpdate(nombre, None), false, syncFails).1.tables.defaults == s.tables.defaults
  {
  }

  // ---------------------------------------------------------------- default associations

  /** The plan-to-categories map built from the `planes_categorias` rows, in
      row order: a plan's list holds its categories in the order they appear. */
  function CategoryMap(pcs: seq<PlanCategoria>): map<nat, seq<nat>>
    decreases |pcs|
  {
    if pcs == [] then map[]
    else
      var n := |pcs| - 1;
      var m := CategoryMap(pcs[..n]);
      var pc := pcs[n];
      m[pc.plan := (if pc.plan in m then m[pc.plan] else []) + [pc.categoria]]
  }

  /** A plan has an entry exactly when a row names it, and a category sits in
      its list exactly when a row pairs the two. */
  lemma {:induction false} CategoryMapSpec(pcs: seq<PlanCategoria>, plan: nat, c: nat)
    ensures plan in CategoryMap(pcs) <==> exists k :: 0 <= k < |pcs| && pcs[k].plan == plan
    ensures plan in CategoryMap(pcs) ==> (c in CategoryMap(pcs)[plan] <==> PlanCategoria(plan, c) in pcs)
    decreases |pcs|
  {
    if pcs != [] {
      var n := |pcs| - 1;
      CategoryMapSpec(pcs[..n], plan, c);
      assert pcs == pcs[..n] + [pcs[n]];
      if plan in CategoryMap(pcs[..n]) {
        var k :| 0 <= k < n && pcs[..n][k].plan == plan;
        assert pcs[k].plan == plan;
      }
      if exists k :: 0 <= k < n && pcs[k].plan == plan {
        var k :| 0 <= k < n && pcs[k].plan == plan;
        assert pcs[..n][k].plan == plan;
      }
    }
  }

  /** `createDefaultAssociationsForProduct`'s deciding flags, read as JavaScript truthiness. */
  predicate OnlyEspecial(p: Producto) {
    TruthyBool(p.aplicaPlanEspecial) && !TruthyBool(p.aplicaTodosPlan) && !TruthyBool(p.aplicaSoloCategoria)
  }

  /** The ids of the active plans, in table order. */
  function ActivePlanIds(planes: seq<Plan>): (r: seq<nat>)
    ensures forall id :: id in r <==> exists k :: 0 <= k < |planes| && planes[k].activo && planes[k].id == id
  {
    if planes == [] then []
    else (if planes[0].activo then [planes[0].id] else []) + ActivePlanIds(planes[1..])
  }

  function ConCategoria(activos: seq<nat>, m: map<nat, seq<nat>>): seq<nat> {
    Filter(activos, (id: nat) => id in m)
  }

  function SinCategoria(activos: seq<nat>, m: map<nat, seq<nat>>): seq<nat> {
    Filter(activos, (id: nat) => id !in m)
  }

  /** The plans with categories whose list contains `c`. */
  function DeCategoria(activos: seq<nat>, m: map<nat, seq<nat>>, c: nat): seq<nat> {
    Filter(ConCategoria(activos, m), (id: nat) => id in m && c in m[id])
  }

  /** The two parts are disjoint and together hold every active plan once. */
  lemma PartitionOfActivePlans(activos: seq<nat>, m: map<nat, seq<nat>>)
    ensures forall id :: id in activos <==> id in ConCategoria(activos, m) || id in SinCategoria(activos, m)
    ensures forall id :: !(id in ConCategoria(activos, m) && id in SinCategoria(activos, m))
    ensures |ConCategoria(activos, m)| + |SinCategoria(activos, m)| == |activos|
  {
    FilterComplement(activos, (id: nat) => id in m, (id: nat) => id !in m);
  }

  /** `planesParaAsociar`. */
  function PlanesParaAsociar(p: Producto, activos: seq<nat>, m: map<nat, seq<nat>>): seq<nat> {
    if TruthyBool(p.aplicaTodosPlan) then
      SinCategoria(activos, m) + (if TruthyNat(p.categoria) then DeCategoria(activos, m, p.categoria.v) else [])
    else if TruthyBool(p.aplicaSoloCategoria) && TruthyNat(p.categoria) then DeCategoria(activos, m, p.categoria.v)
    else []
  }

  /** With `aplica_todos_plan`: every active plan without categories, and,
      when the product has a category, every active plan listing it. */
  lemma TodosSelection(p: Producto, activos: seq<nat>, pcs: seq<PlanCategoria>, id: nat)
    requires TruthyBool(p.aplicaTodosPlan)
    ensures var hasCats := exists k :: 0 <= k < |pcs| && pcs[k].plan == id;
      id in PlanesParaAsociar(p, activos, CategoryMap(pcs)) <==>
        id in activos && (!hasCats || (TruthyNat(p.categoria) && PlanCategoria(id, p.categoria.v) in pcs))
  {
    CategoryMapSpec(pcs, id, if p.categoria.Val? then p.categoria.v else 0);
  }

  /** Otherwise, with `aplica_solo_categoria` and a category: exactly the
      active plans listing that category. */
  lemma SoloCategoriaSelection(p: Producto, activos: seq<nat>, pcs: seq<PlanCategoria>, id: nat)
    requires !TruthyBool(p.aplicaTodosPlan) && TruthyBool(p.aplicaSoloCategoria) && TruthyNat(p.categoria)
    ensures id in PlanesParaAsociar(p, activos, CategoryMap(pcs)) <==>
      id in activos && PlanCategoria(id, p.categoria.v) in pcs
  {
    CategoryMapSpec(pcs, id, p.categoria.v);
    if PlanCategoria(id, p.categoria.v) in pcs {
      var k :| 0 <= k < |pcs| && pcs[k] == PlanCategoria(id, p.categoria.v);
      assert pcs[k].plan == id;
    }
  }

  /** With neither flag, or with `aplica_solo_categoria` but no category, nothing is selected. */
  lemma NoFlagSelectsNothing(p: Producto, activos: seq<nat>, m: map<nat, seq<nat>>)
    requires !TruthyBool(p.aplicaTodosPlan) && !(TruthyBool(p.aplicaSoloCategoria) && TruthyNat(p.categoria))
    ensures PlanesParaAsociar(p, activos, m) == []
  {
  }

  /** The column default of `producto_planes_default.activo`, which the insert leaves out. */
  const ActivoColumnDefault := true

  /** One `{fk_id_producto, fk_id_plan}` row per selected plan. */
  function DefaultRows(producto: nat, planes: seq<nat>, start: nat): (r: seq<DefaultAssoc>)
    ensures |r| == |planes|
    ensures forall k :: 0 <= k < |planes| ==>
      r[k] == DefaultAssoc(start + k, Val(producto), Null, planes[k], ActivoColumnDefault)
  {
    seq(|planes|, k requires 0 <= k < |planes| =>
      DefaultAssoc(start + k, Val(producto), Null, planes[k], ActivoColumnDefault))
  }

  /** The store calls of `createDefaultAssociationsForProduct` that may fail. */
  datatype DefaultsFaults = DefaultsFaults(planesFetch: bool, categoriasFetch: bool, insert: bool)

  /** `createDefaultAssociationsForProduct`: whether it returns normally, and the store after it. */
  function DefaultsEffect(t: Tables, p: Producto, f: DefaultsFaults): (bool, Tables) {
    if OnlyEspecial(p) then (true, t)
    else if f.planesFetch || f.categoriasFetch then (false, t)
    else
      var sel := PlanesParaAsociar(p, ActivePlanIds(t.planes), CategoryMap(t.planesCategorias));
      if sel == [] then (true, t)
      else if f.insert then (false, t)
      else (true, t.(defaults := t.defaults + DefaultRows(p.id, sel, t.nextId), nextId := t.nextId + |sel|))
  }

  /** A product that only applies to special plans gets no default associations. */
  lemma OnlyEspecialAddsNothing(t: Tables, p: Producto, f: DefaultsFaults)
    requires OnlyEspecial(p)
    ensures DefaultsEffect(t, p, f) == (true, t)
  {
  }

  /** Every inserted row names the product and a selected plan, and nothing
      but the association table and the id counter changes; a failure
      changes nothing. */
  lemma DefaultsEffectRows(t: Tables, p: Producto, f: DefaultsFaults)
    ensures var (ok, u) := DefaultsEffect(t, p, f);
      var sel := PlanesParaAsociar(p, ActivePlanIds(t.planes), CategoryMap(t.planesCategorias));
      && u.(defaults := t.defaults, nextId := t.nextId) == t
      && (!ok ==> u == t)
      && (u != t ==> |u.defaults| == |t.defaults| + |sel| && u.defaults[..|t.defaults|] == t.defaults
                     && forall k :: |t.defaults| <= k < |u.defaults| ==>
                          u.defaults[k].producto == Val(p.id) && u.defaults[k].plan in sel)
  {
    var (ok, u) := DefaultsEffect(t, p, f);
    var sel := PlanesParaAsociar(p, ActivePlanIds(t.planes), CategoryMap(t.planesCategorias));
    if u != t {
      forall k | |t.defaults| <= k < |u.defaults|
        ensures u.defaults[k].producto == Val(p.id) && u.defaults[k].plan in sel
      {
        assert u.defaults[k] == DefaultRows(p.id, sel, t.nextId)[k - |t.defaults|];
      }
    }
  }

  // ---------------------------------------------------------------- configuration upserts

  /** `updateConfiguracion(telefono)`: the row returned (`None` when it throws)
      and the table after it. With no row (`PGRST116`) one is inserted;
      otherwise the first row's id is updated. A select that fails for any
      other reason throws before anything is written. */
  function ConfigEffect(rows: seq<Configuracion>, nextId: nat, telefono: string, selectFails: bool, writeFails: bool)
    : (r: (Option<Configuracion>, seq<Configuracion>))
  {
    if selectFails then (None, rows)
    else if rows == [] then
      if writeFails then (None, rows)
      else (Some(Configuracion(nextId, Val(telefono))), [Configuracion(nextId, Val(telefono))])
    else if writeFails then (None, rows)
    else
      var id := rows[0].id;
      (Some(Configuracion(id, Val(telefono))),
       seq(|rows|, k requires 0 <= k < |rows| => if rows[k].id == id then rows[k].(telefono := Val(telefono)) else rows[k]))
  }

  /** After a successful upsert the first row holds the number, and it is the
      row returned; other ids are untouched. The upsert succeeds exactly when
      neither the select nor the write fails, and a failure changes nothing. */
  lemma ConfigUpsert(rows: seq<Configuracion>, nextId: nat, telefono: string, selectFails: bool, writeFails: bool)
    ensures var (r, after) := ConfigEffect(rows, nextId, telefono, selectFails, writeFails);
      && (r.Some? <==> !selectFails && !writeFails)
      && (r.Some? ==> |after| >= 1 && after[0] == r.value && r.value.telefono == Val(telefono))
      && (r.None? ==> after == rows)
      && (r.Some? && rows == [] ==> after == [r.value] && r.value.id == nextId)
      && (r.Some? && rows != [] ==>
            |after| == |rows| && r.value.id == rows[0].id
            && forall k :: 0 <= k < |rows| && rows[k].id != rows[0].id ==> after[k] == rows[k])
  {
  }

  /** The id of the only web-configuration row. */
  const WebConfigId: nat := 1

  /** `updateConfiguracionWeb(updates)`: the row returned and the table after
      it. With no row 1 (`PGRST116`), `{ id: 1, ...updates }` is inserted;
      otherwise row 1 is updated. Any other select error throws before
      anything is written. */
  function WebEffect(web: map<nat, Record>, u: Record, selectFails: bool, writeFails: bool)
    : (r: (Option<Record>, map<nat, Record>))
  {
    if selectFails then (None, web)
    else if WebConfigId !in web then
      if writeFails then (None, web)
      else
        var row := Serialised(map["id" := VNum(WebConfigId)] + u);
        (Some(row), web[WebConfigId := row])
    else if writeFails then (None, web)
    else
      var row := ApplyUpdate(web[WebConfigId], u);
      (Some(row), web[WebConfigId := row])
  }

  /** After a successful upsert, row 1 exists, is the row returned and holds
      every sent value; no other row changes. The upsert succeeds exactly when
      neither the select nor the write fails, and a failure changes nothing. */
  lemma WebUpsert(web: map<nat, Record>, u: Record, selectFails: bool, writeFails: bool)
    ensures var (r, after) := WebEffect(web, u, selectFails, writeFails);
      && (r.Some? <==> !selectFails && !writeFails)
      && (r.Some? ==>
            WebConfigId in after && after[WebConfigId] == r.value
            && forall k :: k in u && !u[k].VUndefined? ==> k in r.value && r.value[k] == u[k])
      && (r.None? ==> after == web)
      && (forall j :: j != WebConfigId ==> (j in after <==> j in web) && (j in web ==> after[j] == web[j]))
      && (r.Some? && WebConfigId !in web && "id" !in u ==> r.value["id"] == VNum(WebConfigId))
  {
  }

  // ---------------------------------------------------------------- the hook

  const ErrorUpdateProducto := "Error al actualizar producto"
  const ErrorUpdatePlan := "Error al actualizar plan"
  const ErrorDefaults := "Error al crear asociaciones por defecto para el producto"
  const ErrorConfig := "Error al actualizar configuraci\U{00F3}n"
  const ErrorConfigWeb := "Error al actualizar configuraci\U{00F3}n web"

  /** The hook: the store it writes, the copies it reloads after each write,
      and its error message. */
  class DataHook {
    var store: Store
    var productos: map<nat, Record>
    var planes: seq<Plan>
    var defaults: seq<DefaultAssoc>
    var configuracion: Option<Configuracion>
    var configuracionWeb: Option<Record>
    var error: string

    constructor (s: Store)
      ensures store == s && error == ""
      ensures productos == s.productoRows && planes == s.tables.planes && defaults == s.tables.defaults
    {
      store := s;
      productos := s.productoRows;
      planes := s.tables.planes;
      defaults := s.tables.defaults;
      configuracion := None;
      configuracionWeb := None;
      error := "";
    }

    /** `updateProducto(id, updates)`. */
    method UpdateProducto(id: nat, updates: Record, fails: bool) returns (ok: bool)
      modifies this`store, this`productos, this`error
      ensures ok == !fails
      ensures ok ==> store == old(store).(productoRows := UpdateRows(old(store).productoRows, id, Normalise(updates)))
      ensures ok ==> productos == store.productoRows && error == old(error)
      ensures !ok ==> store == old(store) && productos == old(productos) && error == ErrorUpdateProducto
    {
      var sent := Normalise(updates);
      if fails {
        error := ErrorUpdateProducto;
        return false;
      }
      store := store.(productoRows := UpdateRows(store.productoRows, id, sent));
      productos := store.productoRows;
      return true;
    }

    /** `updatePlan(id, updates)`. */
    method UpdatePlan(id: nat, u: PlanUpdate, updateFails: bool, syncFails: bool) returns (ok: bool)
      modifies this`store, this`planes, this`defaults, this`error
      ensures (ok, store) == UpdatePlanEffect(old(store), id, u, updateFails, syncFails)
      ensures ok ==> planes == store.tables.planes && error == old(error)
      ensures ok && u.activo.Some? && !syncFails ==> defaults == store.tables.defaults
      ensures ok && (u.activo.None? || syncFails) ==> defaults == old(defaults)
      ensures !ok ==> planes == old(planes) && defaults == old(defaults) && error == ErrorUpdatePlan
    {
      if updateFails {
        error := ErrorUpdatePlan;
        return false;
      }
      store := store.(tables := store.tables.(planes := UpdatePlans(store.tables.planes, id, u)));
      if u.activo.Some? {
        if !syncFails {
          store := store.(tables := store.tables.(defaults := SyncActivo(store.tables.defaults, id, u.activo.value)));
          defaults := store.tables.defaults;
        }
      }
      planes := store.tables.planes;
      return true;
    }

    /** `createDefaultAssociationsForProduct(producto)`. */
    method CreateDefaultAssociationsForProduct(p: Producto, f: DefaultsFaults) returns (ok: bool)
      modifies this`store, this`defaults, this`error
      ensures (ok, store.tables) == DefaultsEffect(old(store.tables), p, f)
      ensures store.(tables := old(store.tables)) == old(store)
      ensures ok && !OnlyEspecial(p) ==> defaults == store.tables.defaults
      ensures ok && OnlyEspecial(p) ==> defaults == old(defaults)
      ensures !ok ==> defaults == old(defaults) && error == ErrorDefaults
      ensures ok ==> error == old(error)
    {
      if OnlyEspecial(p) {
        return true;
      }
      if f.planesFetch {
        error := ErrorDefaults;
        return false;
      }
      var activos := ActivePlanIds(store.tables.planes);
      if f.categoriasFetch {
        error := ErrorDefaults;
        return false;
      }
      var m := BuildCategoryMap(store.tables.planesCategorias);
      var sel := PlanesParaAsociar(p, activos, m);
      if sel != [] {
        if f.insert {
          error := ErrorDefaults;
          return false;
        }
        var t := store.tables;
        store := store.(tables := t.(defaults := t.defaults + DefaultRows(p.id, sel, t.nextId), nextId := t.nextId + |sel|));
      }
      defaults := store.tables.defaults;
      return true;
    }

    /** `updateConfiguracion(telefono)`. */
    method UpdateConfiguracion(telefono: string, selectFails: bool, writeFails: bool) returns (r: Option<Configuracion>)
      modifies this`store, this`configuracion, this`error
      ensures var (rr, rows) := ConfigEffect(old(store.configuracion), old(store.tables.nextId), telefono, selectFails, writeFails);
        r == rr && store.configuracion == rows
      ensures r.Some? ==> configuracion == r && error == old(error)
      ensures r.None? ==> configuracion == old(configuracion) && error == ErrorConfig
      ensures store.(configuracion := old(store.configuracion), tables := store.tables.(nextId := old(store.tables.nextId))) == old(store)
      ensures store.tables.nextId == old(store.tables.nextId) + if r.Some? && old(store.configuracion) == [] then 1 else 0
    {
      var rows := store.configuracion;
      if selectFails {
        error := ErrorConfig;
        return None;
      }
      if rows == [] {
        if writeFails {
          error := ErrorConfig;
          return None;
        }
        var row := Configuracion(store.tables.nextId, Val(telefono));
        store := store.(configuracion := [row], tables := store.tables.(nextId := store.tables.nextId + 1));
        configuracion := Some(row);
        return Some(row);
      }
      if writeFails {
        error := ErrorConfig;
        return None;
      }
      var id := rows[0].id;
      store := store.(configuracion := seq(|rows|, k requires 0 <= k < |rows| =>
        if rows[k].id == id then rows[k].(telefono := Val(telefono)) else rows[k]));
      r := Some(Configuracion(id, Val(telefono)));
      configuracion := r;
    }

    /** `updateConfiguracionWeb(updates)`. */
    method UpdateConfiguracionWeb(u: Record, selectFails: bool, writeFails: bool) returns (r: Option<Record>)
      modifies this`store, this`configuracionWeb, this`error
      ensures (r, store.web) == WebEffect(old(store.web), u, selectFails, writeFails)
      ensures store.(web := old(store.web)) == old(store)
      ensures r.Some? ==> configuracionWeb == r && error == old(error)
      ensures r.None? ==> configuracionWeb == old(configuracionWeb) && error == ErrorConfigWeb
    {
      var web := store.web;
      var row: Record;
      if selectFails {
        error := ErrorConfigWeb;
        return None;
      }
      if WebConfigId !in web {
        if writeFails {
          error := ErrorConfigWeb;
          return None;
        }
        row := Serialised(map["id" := VNum(WebConfigId)] + u);
      } else {
        if writeFails {
          error := ErrorConfigWeb;
          return None;
        }
        row := ApplyUpdate(web[WebConfigId], u);
      }
      store := store.(web := web[WebConfigId := row]);
      configuracionWeb := Some(row);
      r := Some(row);
    }
  }

  /** The `forEach` that builds the plan-to-categories map. */
  method BuildCategoryMap(pcs: seq<PlanCategoria>) returns (m: map<nat, seq<nat>>)
    ensures m == CategoryMap(pcs)
  {
    m := map[];
    var i := 0;
    while i < |pcs|
      invariant 0 <= i <= |pcs|
      invariant m == CategoryMap(pcs[..i])
    {
      var pc := pcs[i];
      if pc.plan !in m {
        m := m[pc.plan := []];
      }
      m := m[pc.plan := m[pc.plan] + [pc.categoria]];
      assert pcs[..i + 1][..i] == pcs[..i];
      i := i + 1;
    }
    assert pcs[..i] == pcs;
  }
}
