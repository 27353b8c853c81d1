/** The default plan associations screen: the bulk "associate every product
    with a plan" run, the association form (validation, payload, edit and
    type switch) and the filtered, paginated list. */
module ProductosPlanes {
  import opened Wrappers
  import opened Text
  import opened Seqs
  import opened Schema

  // ---------------------------------------------------------------- bulk run

  /** The counters and the membership set of `handleMassAssociate`, and the
      products inserted so far, in order. */
  datatype MassState = MassState(added: nat, skipped: nat, errors: nat, associated: set<nat>, inserted: seq<nat>)

  /** The loop's state after a prefix: still running, or stopped by the abort rule. */
  datatype MassRun = Running(st: MassState) | Stopped(st: MassState)

  /** One iteration for product `id`, whose insert fails when `fails`. */
  function MassStep(st: MassState, id: nat, fails: bool): (r: MassRun)
    ensures r.st.added + r.st.skipped == st.added + st.skipped + 1
    ensures r.Stopped? <==> id !in st.associated && fails && st.errors + 1 > 5 && st.added == 0
    ensures r.Stopped? ==> r.st.added == st.added && r.st.skipped == st.skipped + 1
    ensures r.st.inserted == if id !in st.associated && !fails then st.inserted + [id] else st.inserted
  {
    if id in st.associated then Running(st.(skipped := st.skipped + 1))
    else if !fails then
      Running(st.(added := st.added + 1, associated := st.associated + {id}, inserted := st.inserted + [id]))
    else
      var t := st.(errors := st.errors + 1, skipped := st.skipped + 1);
      if t.errors > 5 && t.added == 0 then Stopped(t) else Running(t)
  }

  /** The loop over `ids`, from state `init`; the `k`-th insert fails when `faults` says so. */
  function MassLoop(ids: seq<nat>, init: MassState, faults: seq<bool>): MassRun
    decreases |ids|
  {
    if ids == [] then Running(init)
    else
      var n := |ids| - 1;
      var r := MassLoop(ids[..n], init, faults);
      if r.Stopped? then r else MassStep(r.st, ids[n], FaultAt(faults, n))
  }

  /** The loop over one more id runs one more step, unless it had stopped. */
  lemma MassLoopPrefix(ids: seq<nat>, i: nat, init: MassState, faults: seq<bool>)
    requires i < |ids|
    ensures MassLoop(ids[..i + 1], init, faults) ==
      var r := MassLoop(ids[..i], init, faults);
      if r.Stopped? then r else MassStep(r.st, ids[i], FaultAt(faults, i))
  {
    assert ids[..i + 1][..i] == ids[..i];
    assert ids[..i + 1][i] == ids[i];
  }

  /** The product ids already associated with the plan, as the run reads them:
      the truthy product ids of the plan's rows. */
  function AlreadyAssociated(defaults: seq<DefaultAssoc>, plan: nat): (s: set<nat>)
    ensures forall id :: id in s <==> exists k :: 0 <= k < |defaults| && defaults[k].plan == plan
                                                && TruthyNat(defaults[k].producto) && defaults[k].producto.v == id
  {
    set k | 0 <= k < |defaults| && defaults[k].plan == plan && TruthyNat(defaults[k].producto) :: defaults[k].producto.v
  }

  function Ids(ps: seq<Producto>): (ids: seq<nat>)
    ensures |ids| == |ps| && forall k :: 0 <= k < |ps| ==> ids[k] == ps[k].id
  {
    seq(|ps|, k requires 0 <= k < |ps| => ps[k].id)
  }

  const Fresh := MassState(0, 0, 0, {}, [])

  /** How a bulk run ends. */
  datatype MassOutcome =
    | NoPlanSelected
    | Cancelled
    | FetchFailed
    | Finished(run: MassRun)

  /** `handleMassAssociate`, given the selected plan (`None` for ""), the
      confirmation answer and the store's behaviour. */
  function MassAssociate(plan: Option<nat>, confirmed: bool, fetchFails: bool,
                         defaults: seq<DefaultAssoc>, ids: seq<nat>, faults: seq<bool>): MassOutcome
  {
    if plan.None? then NoPlanSelected
    else if !confirmed then Cancelled
    else if fetchFails then FetchFailed
    else Finished(MassLoop(ids, Fresh.(associated := AlreadyAssociated(defaults, plan.value)), faults))
  }

  /** The invariants of the loop: every processed product is counted once as
      added or skipped; every failure is also a skip; only products missing
      from the set are inserted, each once, and they join the set. */
  ghost predicate MassInvariant(st: MassState, init: MassState, processed: nat) {
    && st.added + st.skipped == init.added + init.skipped + processed
    && st.errors - init.errors <= st.skipped - init.skipped
    && st.errors >= init.errors && st.skipped >= init.skipped
    && st.added == init.added + |st.inserted| - |init.inserted|
    && |st.inserted| >= |init.inserted| && st.inserted[..|init.inserted|] == init.inserted
    && (forall k :: |init.inserted| <= k < |st.inserted| ==> st.inserted[k] !in init.associated)
    && (forall j, k :: |init.inserted| <= j < k < |st.inserted| ==> st.inserted[j] != st.inserted[k])
    && st.associated == init.associated + set k | |init.inserted| <= k < |st.inserted| :: st.inserted[k]
  }

  lemma TailSnoc(xs: seq<nat>, n: nat, x: nat)
    requires n <= |xs|
    ensures (set k | n <= k < |xs + [x]| :: (xs + [x])[k]) == (set k | n <= k < |xs| :: xs[k]) + {x}
  {
    var ys := xs + [x];
    assert ys[|xs|] == x;
    forall k | n <= k < |xs| ensures ys[k] == xs[k] {
    }
  }

  lemma MassStepKeeps(st: MassState, init: MassState, processed: nat, id: nat, fails: bool)
    requires MassInvariant(st, init, processed)
    ensures MassInvariant(MassStep(st, id, fails).st, init, processed + 1)
  {
    var t := MassStep(st, id, fails).st;
    if id !in st.associated && !fails {
      var n := |init.inserted|;
      assert t.inserted == st.inserted + [id];
      forall k | n <= k < |st.inserted| ensures st.inserted[k] in st.associated {
      }
      TailSnoc(st.inserted, n, id);
    }
  }

  /** The loop keeps its invariant, however the inserts and the abort rule go. */
  lemma {:induction false} MassLoopInvariant(ids: seq<nat>, init: MassState, faults: seq<bool>)
    ensures var r := MassLoop(ids, init, faults);
      exists processed: nat :: processed <= |ids| && MassInvariant(r.st, init, processed)
                               && (r.Running? ==> processed == |ids|)
  {
    if ids == [] {
      assert MassInvariant(init, init, 0);
    } else {
      var n := |ids| - 1;
      MassLoopInvariant(ids[..n], init, faults);
      var r := MassLoop(ids[..n], init, faults);
      var processed: nat :| processed <= n && MassInvariant(r.st, init, processed) && (r.Running? ==> processed == n);
      if r.Running? {
        MassStepKeeps(r.st, init, processed, ids[n], FaultAt(faults, n));
        assert MassInvariant(MassLoop(ids, init, faults).st, init, processed + 1);
      } else {
        assert MassInvariant(MassLoop(ids, init, faults).st, init, processed);
      }
    }
  }

  /** A completed run counts every product exactly once, as added or skipped;
      the added ones are exactly the inserted ones, none of which was already
      associated, and none twice. */
  lemma MassCompleted(ids: seq<nat>, associated: set<nat>, faults: seq<bool>)
    requires MassLoop(ids, Fresh.(associated := associated), faults).Running?
    ensures var st := MassLoop(ids, Fresh.(associated := associated), faults).st;
      && st.added + st.skipped == |ids|
      && st.added == |st.inserted| && st.errors <= st.skipped
      && (forall k :: 0 <= k < |st.inserted| ==> st.inserted[k] !in associated)
      && (forall j, k :: 0 <= j < k < |st.inserted| ==> st.inserted[j] != st.inserted[k])
  {
    MassLoopInvariant(ids, Fresh.(associated := associated), faults);
  }

  /** The abort rule: a run that goes on has had a success or at most five
      failures; a stopped run stopped at its sixth failure, before any success. */
  lemma {:induction false} MassAbortRule(ids: seq<nat>, associated: set<nat>, faults: seq<bool>)
    ensures var r := MassLoop(ids, Fresh.(associated := associated), faults);
      (r.Running? ==> r.st.added > 0 || r.st.errors <= 5)
      && (r.Stopped? ==> r.st.errors == 6 && r.st.added == 0 && r.st.inserted == [])
  {
    var init := Fresh.(associated := associated);
    if ids != [] {
      var n := |ids| - 1;
      MassAbortRule(ids[..n], associated, faults);
      MassLoopInvariant(ids[..n], init, faults);
    }
  }

  /** A product already associated with the plan is skipped and never inserted. */
  lemma AssociatedNeverInserted(ids: seq<nat>, associated: set<nat>, faults: seq<bool>, id: nat)
    requires id in associated
    ensures id !in MassLoop(ids, Fresh.(associated := associated), faults).st.inserted
  {
    var init := Fresh.(associated := associated);
    MassLoopInvariant(ids, init, faults);
  }

  /** The rows the run inserts: one active row per inserted product, plan `plan`. */
  function AssocRows(pids: seq<nat>, plan: nat, start: nat): (r: seq<DefaultAssoc>)
    ensures |r| == |pids|
    ensures forall k :: 0 <= k < |pids| ==> r[k] == DefaultAssoc(start + k, Val(pids[k]), Null, plan, true)
  {
    seq(|pids|, k requires 0 <= k < |pids| => DefaultAssoc(start + k, Val(pids[k]), Null, plan, true))
  }

  lemma AssocRowsSnoc(pids: seq<nat>, id: nat, plan: nat, start: nat)
    ensures AssocRows(pids + [id], plan, start)
         == AssocRows(pids, plan, start) + [DefaultAssoc(start + |pids|, Val(id), Null, plan, true)]
  {
  }

  /** The loop of `handleMassAssociate` on the store's rows `rows0`, whose
      next id is `next0`. `shown` is the counters the screen shows: those set
      at the start of the last iteration, or the final ones on completion. */
  method MassRunLoop(ids: seq<nat>, init: MassState, plan: nat, faults: seq<bool>,
                     rows0: seq<DefaultAssoc>, next0: nat)
    returns (run: MassRun, rows: seq<DefaultAssoc>, next: nat, shown: (nat, nat))
    requires init.inserted == []
    ensures run == MassLoop(ids, init, faults)
    ensures rows == rows0 + AssocRows(run.st.inserted, plan, next0)
    ensures next == next0 + |run.st.inserted|
    ensures run.Running? ==> shown == (run.st.added, run.st.skipped)
    ensures run.Stopped? ==> run.st.skipped >= 1 && shown == (run.st.added, run.st.skipped - 1)
  {
    run, rows, next, shown := Running(init), rows0, next0, (init.added, init.skipped);
    var i := 0;
    while i < |ids| && run.Running?
      invariant 0 <= i <= |ids|
      invariant run == MassLoop(ids[..i], init, faults)
      invariant rows == rows0 + AssocRows(run.st.inserted, plan, next0)
      invariant next == next0 + |run.st.inserted|
      invariant run.Stopped? ==> run.st.skipped >= 1 && shown == (run.st.added, run.st.skipped - 1)
    {
      var st, id, fails := run.st, ids[i], FaultAt(faults, i);
      shown := (st.added, st.skipped);
      MassLoopPrefix(ids, i, init, faults);
      run, rows, next := MassIteration(st, id, fails, plan, rows0, next0, rows, next);
      i := i + 1;
    }
    if run.Running? {
      assert ids[..i] == ids;
      shown := (run.st.added, run.st.skipped);
    } else {
      StoppedStaysStopped(ids, i, init, faults);
    }
  }

  /** One iteration of the loop on the store: the step, and the inserted
      product, if any, written as the next row. */
  method MassIteration(st: MassState, id: nat, fails: bool, plan: nat, rows0: seq<DefaultAssoc>, next0: nat,
                       rows: seq<DefaultAssoc>, next: nat)
    returns (r: MassRun, rows': seq<DefaultAssoc>, next': nat)
    requires rows == rows0 + AssocRows(st.inserted, plan, next0) && next == next0 + |st.inserted|
    ensures r == MassStep(st, id, fails)
    ensures rows' == rows0 + AssocRows(r.st.inserted, plan, next0)
    ensures next' == next0 + |r.st.inserted|
  {
    r, rows', next' := MassStep(st, id, fails), rows, next;
    if id !in st.associated && !fails {
      AssocRowsSnoc(st.inserted, id, plan, next0);
      rows' := rows + [DefaultAssoc(next, Val(id), Null, plan, true)];
      next' := next + 1;
    }
  }

  // ---------------------------------------------------------------- form

  datatype Tipo = ProductoTipo | ComboTipo

  /** The association form; ids are the strings the selects hold (`None` for `undefined`). */
  datatype AssocForm = AssocForm(tipo: Tipo, producto: Option<string>, combo: Option<string>,
                                 plan: Option<string>, activo: bool)

  const EmptyForm := AssocForm(ProductoTipo, None, None, None, true)

  predicate Truthy(s: Option<string>) {
    s.Some? && s.value != ""
  }

  /** `hasProducto || hasCombo`, with a plan chosen. */
  predicate FormValid(f: AssocForm) {
    Truthy(f.plan) && ((f.tipo == ProductoTipo && Truthy(f.producto)) || (f.tipo == ComboTipo && Truthy(f.combo)))
  }

  /** `parseInt` of a select value, as a number or `NaN`. */
  function ParseIdValue(s: string): (v: JsValue)
    ensures v.VNum? || v.VNaN?
  {
    match ParseInt(s)
    case Some(n) => VNum(n)
    case None => VNaN
  }

  /** The payload `handleSubmit` sends; a key set to `undefined` is `VUndefined`. */
  datatype AssocPayload = AssocPayload(plan: JsValue, activo: bool, producto: JsValue, combo: JsValue)

  function SubmitPayload(f: AssocForm): (p: AssocPayload)
    requires FormValid(f)
    ensures p.activo == f.activo && p.plan == ParseIdValue(f.plan.value)
    ensures f.tipo == ProductoTipo ==> p.producto == ParseIdValue(f.producto.value) && p.combo == VUndefined
    ensures f.tipo == ComboTipo ==> p.combo == ParseIdValue(f.combo.value) && p.producto == VUndefined
  {
    var base := AssocPayload(ParseIdValue(f.plan.value), f.activo, VUndefined, VUndefined);
    if f.tipo == ProductoTipo && Truthy(f.producto) then base.(producto := ParseIdValue(f.producto.value))
    else base.(combo := ParseIdValue(f.combo.value))
  }

  /** A valid form's payload sets exactly one of the product and the combo. */
  lemma PayloadSetsOne(f: AssocForm)
    requires FormValid(f)
    ensures SubmitPayload(f).producto.VUndefined? != SubmitPayload(f).combo.VUndefined?
  {
  }

  /** The store call `handleSubmit` makes. */
  datatype StoreCall = CreateCall(payload: AssocPayload) | UpdateCall(id: nat, payload: AssocPayload)

  /** A product the search box suggests for `term`: its description
      contains the typed text, ignoring case. */
  predicate Suggested(p: Producto, term: string) {
    Includes(ToLower(p.descripcion), ToLower(term))
  }

  /** The product suggestions under the search box: the first ten products
      whose description contains the typed text, ignoring case. */
  function Suggestions(ps: seq<Producto>, term: string): (r: seq<Producto>)
    ensures |r| <= 10
    ensures forall p :: p in r ==> p in ps && Suggested(p, term)
    ensures var all := Filter(ps, (p: Producto) => Suggested(p, term));
      |r| <= |all| && r == all[..|r|] && (|all| <= 10 ==> r == all)
  {
    var all := Filter(ps, (p: Producto) => Suggested(p, term));
    var n := if |all| < 10 then |all| else 10;
    PrefixMembers(all, n);
    all[..n]
  }

  /** `handleEdit`: the form for a stored association. */
  function EditForm(a: DefaultAssoc): (f: AssocForm)
    ensures f.tipo == (if TruthyNat(a.combo) then ComboTipo else ProductoTipo)
    ensures f.activo == a.activo && f.plan == Some(NatToString(a.plan))
  {
    AssocForm(if TruthyNat(a.combo) then ComboTipo else ProductoTipo,
              if a.producto.Val? then Some(NatToString(a.producto.v)) else None,
              if a.combo.Val? then Some(NatToString(a.combo.v)) else None,
              Some(NatToString(a.plan)), a.activo)
  }

  /** Editing and saving a product association without changes sends its own
      plan, flag and product back. */
  lemma EditSubmitRoundTrip(a: DefaultAssoc)
    requires !TruthyNat(a.combo) && a.producto.Val?
    ensures FormValid(EditForm(a))
    ensures SubmitPayload(EditForm(a)) == AssocPayload(VNum(a.plan), a.activo, VNum(a.producto.v), VUndefined)
  {
    ParseIntNatToString(a.plan);
    ParseIntNatToString(a.producto.v);
  }

  /** The same for a combo association. */
  lemma EditSubmitRoundTripCombo(a: DefaultAssoc)
    requires TruthyNat(a.combo)
    ensures FormValid(EditForm(a))
    ensures SubmitPayload(EditForm(a)) == AssocPayload(VNum(a.plan), a.activo, VUndefined, VNum(a.combo.v))
  {
    ParseIntNatToString(a.plan);
    ParseIntNatToString(a.combo.v);
  }

  // ---------------------------------------------------------------- list

  /** The five list filters; each is `"all"` when unused. */
  datatype ListFilters = ListFilters(search: string, producto: string, plan: string, activo: string, categoria: string)

  /** `xs.find(x => x.id === id)`, for the three lists the filter looks into:
      the first element with that id, and `None` exactly when no element has
      it (an id that is not a number matches nothing). */
  function FindProducto(ps: seq<Producto>, id: JsOpt<nat>): (r: Option<Producto>)
    ensures r.Some? ==> id.Val? && r.value in ps && r.value.id == id.v
    ensures r.None? <==> !id.Val? || forall k :: 0 <= k < |ps| ==> ps[k].id != id.v
    ensures r.Some? ==> exists k :: 0 <= k < |ps| && ps[k] == r.value && forall j :: 0 <= j < k ==> ps[j].id != id.v
  {
    if !id.Val? then None
    else match FirstIndex(ps, (p: Producto) => p.id == id.v)
      case Some(k) => Some(ps[k])
      case None => None
  }

  function FindCombo(cs: seq<Combo>, id: JsOpt<nat>): (r: Option<Combo>)
    ensures r.Some? ==> id.Val? && r.value in cs && r.value.id == id.v
    ensures r.None? <==> !id.Val? || forall k :: 0 <= k < |cs| ==> cs[k].id != id.v
    ensures r.Some? ==> exists k :: 0 <= k < |cs| && cs[k] == r.value && forall j :: 0 <= j < k ==> cs[j].id != id.v
  {
    if !id.Val? then None
    else match FirstIndex(cs, (c: Combo) => c.id == id.v)
      case Some(k) => Some(cs[k])
      case None => None
  }

  function FindPlan(ps: seq<Plan>, id: nat): (r: Option<Plan>)
    ensures r.Some? ==> r.value in ps && r.value.id == id
    ensures r.None? <==> forall k :: 0 <= k < |ps| ==> ps[k].id != id
    ensures r.Some? ==> exists k :: 0 <= k < |ps| && ps[k] == r.value && forall j :: 0 <= j < k ==> ps[j].id != id
  {
    match FirstIndex(ps, (p: Plan) => p.id == id)
    case Some(k) => Some(ps[k])
    case None => None
  }

  /** `x?.name.toLowerCase().includes(term.toLowerCase())`. */
  predicate NameMatches(name: Option<string>, term: string) {
    name.Some? && Includes(ToLower(name.value), ToLower(term))
  }

  predicate MatchesSearch(a: DefaultAssoc, flt: ListFilters, ps: seq<Producto>, cs: seq<Combo>, pls: seq<Plan>) {
    var p, c, pl := FindProducto(ps, a.producto), FindCombo(cs, a.combo), FindPlan(pls, a.plan);
    flt.search == ""
    || NameMatches(if p.Some? then Some(p.value.descripcion) else None, flt.search)
    || NameMatches(if c.Some? then Some(c.value.nombre) else None, flt.search)
    || NameMatches(if pl.Some? then Some(pl.value.nombre) else None, flt.search)
  }

  predicate MatchesProducto(a: DefaultAssoc, flt: ListFilters) {
    flt.producto == "all" || (a.producto.Val? && NatToString(a.producto.v) == flt.producto)
  }

  predicate MatchesPlan(a: DefaultAssoc, flt: ListFilters) {
    flt.plan == "all" || NatToString(a.plan) == flt.plan
  }

  predicate MatchesActivo(a: DefaultAssoc, flt: ListFilters) {
    flt.activo == "all" || (flt.activo == "active" && a.activo) || (flt.activo == "inactive" && !a.activo)
  }

  /** The category filter applies to product associations only. */
  predicate MatchesCategoria(a: DefaultAssoc, flt: ListFilters, ps: seq<Producto>) {
    var p := FindProducto(ps, a.producto);
    flt.categoria == "all"
    || (TruthyNat(a.producto) && p.Some? && p.value.categoria.Val? && NatToString(p.value.categoria.v) == flt.categoria)
  }

  predicate Matches(a: DefaultAssoc, flt: ListFilters, ps: seq<Producto>, cs: seq<Combo>, pls: seq<Plan>) {
    MatchesSearch(a, flt, ps, cs, pls) && MatchesProducto(a, flt) && MatchesPlan(a, flt)
    && MatchesActivo(a, flt) && MatchesCategoria(a, flt, ps)
  }

  /** The filter of `filteredAndSortedData`, before its sort. */
  function FilteredAssocs(xs: seq<DefaultAssoc>, flt: ListFilters, ps: seq<Producto>, cs: seq<Combo>, pls: seq<Plan>)
    : (r: seq<DefaultAssoc>)
    ensures forall a :: a in r <==> a in xs && Matches(a, flt, ps, cs, pls)
  {
    Filter(xs, a => Matches(a, flt, ps, cs, pls))
  }

  /** The filtered list keeps the input order and drops only non-matching rows. */
  lemma FilteredIsSubseq(xs: seq<DefaultAssoc>, flt: ListFilters, ps: seq<Producto>, cs: seq<Combo>, pls: seq<Plan>)
    ensures IsSubseq(FilteredAssocs(xs, flt, ps, cs, pls), xs)
  {
    FilterIsSubseq(xs, a => Matches(a, flt, ps, cs, pls));
  }

  /** With a category chosen, no combo association (one without a product) is listed. */
  lemma CategoryFilterDropsCombos(xs: seq<DefaultAssoc>, flt: ListFilters, ps: seq<Producto>, cs: seq<Combo>,
                                  pls: seq<Plan>, a: DefaultAssoc)
    requires flt.categoria != "all" && !TruthyNat(a.producto)
    ensures a !in FilteredAssocs(xs, flt, ps, cs, pls)
  {
  }

  /** With every filter unused, nothing is filtered out. */
  lemma NoFiltersKeepsAll(xs: seq<DefaultAssoc>, ps: seq<Producto>, cs: seq<Combo>, pls: seq<Plan>)
    ensures FilteredAssocs(xs, ListFilters("", "all", "all", "all", "all"), ps, cs, pls) == xs
  {
    FilterAll(xs, a => Matches(a, ListFilters("", "all", "all", "all", "all"), ps, cs, pls));
  }

  const ItemsPerPage: nat := 20

  /** `currentData`: page `page` of the filtered list, 20 per page. */
  function CurrentData(xs: seq<DefaultAssoc>, page: int): (r: seq<DefaultAssoc>)
    ensures |r| <= ItemsPerPage
    ensures 1 <= page && (page - 1) * ItemsPerPage <= |xs| ==>
      r == xs[(page - 1) * ItemsPerPage..if page * ItemsPerPage <= |xs| then page * ItemsPerPage else |xs|]
  {
    Page(xs, page, ItemsPerPage)
  }

  // ---------------------------------------------------------------- component

  /** The screen's state: the store's association table, the bulk-run controls
      and the association dialog. */
  class PlanesSection {
    const productos: seq<Producto>
    var defaults: seq<DefaultAssoc>
    var nextId: nat
    var selectedPlanForMass: Option<nat>
    var isProcessingMass: bool
    var massResults: (nat, nat)
    var formData: AssocForm
    var editing: Option<DefaultAssoc>
    var isDialogOpen: bool
    var productSearchTerm: string
    var selectedProductName: string
    var showProductSuggestions: bool

    constructor (productos: seq<Producto>, defaults: seq<DefaultAssoc>, nextId: nat)
      ensures this.productos == productos && this.defaults == defaults && this.nextId == nextId
      ensures selectedPlanForMass.None? && !isProcessingMass && massResults == (0, 0)
      ensures formData == EmptyForm && editing.None? && !isDialogOpen
    {
      this.productos := productos;
      this.defaults := defaults;
      this.nextId := nextId;
      selectedPlanForMass := None;
      isProcessingMass := false;
      massResults := (0, 0);
      formData := EmptyForm;
      editing := None;
      isDialogOpen := false;
      productSearchTerm := "";
      selectedProductName := "";
      showProductSuggestions := false;
    }

    /** `handleMassAssociate`. The counters shown are reset to zero once the
        run is confirmed; they are then those set at the start of the last
        iteration when the run stops, or the final ones on completion. */
    method HandleMassAssociate(confirmed: bool, fetchFails: bool, faults: seq<bool>) returns (outcome: MassOutcome)
      modifies this`defaults, this`nextId, this`isProcessingMass, this`massResults, this`selectedPlanForMass
      ensures outcome == MassAssociate(old(selectedPlanForMass), confirmed, fetchFails, old(defaults), Ids(productos), faults)
      ensures outcome.Finished? ==>
        defaults == old(defaults) + AssocRows(outcome.run.st.inserted, old(selectedPlanForMass).value, old(nextId))
        && nextId == old(nextId) + |outcome.run.st.inserted|
      ensures !outcome.Finished? ==> defaults == old(defaults) && nextId == old(nextId)
      ensures outcome.Finished? && outcome.run.Running? ==> massResults == (outcome.run.st.added, outcome.run.st.skipped)
      ensures outcome.Finished? && outcome.run.Stopped? ==>
        outcome.run.st.skipped >= 1 && massResults == (outcome.run.st.added, outcome.run.st.skipped - 1)
      ensures outcome.FetchFailed? ==> massResults == (0, 0)
      ensures outcome.NoPlanSelected? || outcome.Cancelled? ==> massResults == old(massResults)
      ensures outcome.Finished? || outcome.FetchFailed? ==> selectedPlanForMass.None? && !isProcessingMass
      ensures outcome.NoPlanSelected? || outcome.Cancelled? ==>
        selectedPlanForMass == old(selectedPlanForMass) && isProcessingMass == old(isProcessingMass)
    {
      if selectedPlanForMass.None? {
        return NoPlanSelected;
      }
      if !confirmed {
        return Cancelled;
      }
      isProcessingMass := true;
      massResults := (0, 0);
      var plan := selectedPlanForMass.value;
      if fetchFails {
        isProcessingMass := false;
        selectedPlanForMass := None;
        return FetchFailed;
      }
      var run := AssociateAll(Ids(productos), Fresh.(associated := AlreadyAssociated(defaults, plan)), plan, faults);
      isProcessingMass := false;
      selectedPlanForMass := None;
      outcome := Finished(run);
    }

    /** The loop of `handleMassAssociate` over `ids`, from the set `init`:
        one row inserted into the store per product the run adds. */
    method AssociateAll(ids: seq<nat>, init: MassState, plan: nat, faults: seq<bool>) returns (run: MassRun)
      requires init.inserted == []
      modifies this`defaults, this`nextId, this`massResults
      ensures run == MassLoop(ids, init, faults)
      ensures defaults == old(defaults) + AssocRows(run.st.inserted, plan, old(nextId))
      ensures nextId == old(nextId) + |run.st.inserted|
      ensures run.Running? ==> massResults == (run.st.added, run.st.skipped)
      ensures run.Stopped? ==> run.st.skipped >= 1 && massResults == (run.st.added, run.st.skipped - 1)
    {
      var rows, next, shown;
      run, rows, next, shown := MassRunLoop(ids, init, plan, faults, defaults, nextId);
      defaults, nextId, massResults := rows, next, shown;
    }

    /** `resetForm`. */
    method ResetForm()
      modifies this`formData, this`productSearchTerm, this`selectedProductName, this`showProductSuggestions, this`editing
      ensures formData == EmptyForm && editing.None?
      ensures productSearchTerm == "" && selectedProductName == "" && !showProductSuggestions
    {
      formData := EmptyForm;
      productSearchTerm := "";
      selectedProductName := "";
      showProductSuggestions := false;
      editing := None;
    }

    /** The association-type select: both ids and the product search are cleared. */
    method SetTipo(t: Tipo)
      modifies this`formData, this`productSearchTerm, this`selectedProductName, this`showProductSuggestions
      ensures formData == old(formData).(tipo := t, producto := None, combo := None)
      ensures productSearchTerm == "" && selectedProductName == "" && !showProductSuggestions
    {
      formData := formData.(tipo := t, producto := None, combo := None);
      productSearchTerm := "";
      selectedProductName := "";
      showProductSuggestions := false;
    }

    /** Typing in the product search box: an empty text also clears the chosen product. */
    method SearchInput(value: string)
      modifies this`formData, this`productSearchTerm, this`selectedProductName, this`showProductSuggestions
      ensures productSearchTerm == value && showProductSuggestions == (|value| > 0)
      ensures value == "" ==> formData == old(formData).(producto := None) && selectedProductName == ""
      ensures value != "" ==> formData == old(formData) && selectedProductName == old(selectedProductName)
    {
      productSearchTerm := value;
      showProductSuggestions := |value| > 0;
      if value == "" {
        formData := formData.(producto := None);
        selectedProductName := "";
      }
    }

    /** Clicking a suggestion chooses that product. */
    method PickSuggestion(p: Producto)
      modifies this`formData, this`productSearchTerm, this`selectedProductName, this`showProductSuggestions
      ensures formData == old(formData).(producto := Some(NatToString(p.id)))
      ensures selectedProductName == p.descripcion && productSearchTerm == p.descripcion && !showProductSuggestions
    {
      formData := formData.(producto := Some(NatToString(p.id)));
      selectedProductName := p.descripcion;
      productSearchTerm := p.descripcion;
      showProductSuggestions := false;
    }

    /** `handleEdit`. */
    method HandleEdit(a: DefaultAssoc)
      modifies this`formData, this`editing, this`isDialogOpen, this`selectedProductName, this`productSearchTerm,
               this`showProductSuggestions
      ensures formData == EditForm(a) && editing == Some(a) && isDialogOpen
      ensures selectedProductName == productSearchTerm && !showProductSuggestions
      ensures selectedProductName ==
        (if TruthyNat(a.producto) && FindProducto(productos, a.producto).Some?
         then FindProducto(productos, a.producto).value.descripcion else "")
    {
      editing := Some(a);
      var nombre := "";
      if TruthyNat(a.producto) {
        var p := FindProducto(productos, a.producto);
        nombre := if p.Some? then p.value.descripcion else "";
      }
      formData := EditForm(a);
      selectedProductName := nombre;
      productSearchTerm := nombre;
      showProductSuggestions := false;
      isDialogOpen := true;
    }

    /** `handleSubmit`: an invalid form sends nothing; otherwise the payload goes
        to an update of the edited row or to a create, and only on success is
        the dialog closed and the form reset. */
    method HandleSubmit(fails: bool) returns (sent: Option<StoreCall>)
      modifies this`formData, this`productSearchTerm, this`selectedProductName, this`showProductSuggestions,
               this`editing, this`isDialogOpen
      ensures !FormValid(old(formData)) ==> sent.None? && formData == old(formData) && isDialogOpen == old(isDialogOpen)
                                            && editing == old(editing)
      ensures !FormValid(old(formData)) || fails ==>
        productSearchTerm == old(productSearchTerm) && selectedProductName == old(selectedProductName)
        && showProductSuggestions == old(showProductSuggestions)
      ensures FormValid(old(formData)) ==> sent == Some(
        if old(editing).Some? then UpdateCall(old(editing).value.id, SubmitPayload(old(formData)))
        else CreateCall(SubmitPayload(old(formData))))
      ensures FormValid(old(formData)) && !fails ==> !isDialogOpen && formData == EmptyForm && editing.None?
      ensures FormValid(old(formData)) && !fails ==>
        productSearchTerm == "" && selectedProductName == "" && !showProductSuggestions
      ensures fails ==> formData == old(formData) && isDialogOpen == old(isDialogOpen) && editing == old(editing)
    {
      if !FormValid(formData) {
        return None;
      }
      var payload := SubmitPayload(formData);
      sent := Some(if editing.Some? then UpdateCall(editing.value.id, payload) else CreateCall(payload));
      if !fails {
        isDialogOpen := false;
        ResetForm();
      }
    }
  }

  /** Once the abort rule fires the loop does nothing more. */
  lemma {:induction false} StoppedStaysStopped(ids: seq<nat>, i: nat, init: MassState, faults: seq<bool>)
    requires i <= |ids| && MassLoop(ids[..i], init, faults).Stopped?
    ensures MassLoop(ids, init, faults) == MassLoop(ids[..i], init, faults)
    decreases |ids| - i
  {
    if i < |ids| {
      var j := i + 1;
      assert ids[..j][..i] == ids[..i];
      StoppedStaysStopped(ids, j, init, faults);
    } else {
      assert ids[..i] == ids;
    }
  }
}
