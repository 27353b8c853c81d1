/** The summary screen: the featured, active-plan and active-association
    counts, the catalogue's total value, the five most expensive products and
    the use of each plan. */
module DashboardSection {
  import opened Wrappers
  import opened Seqs
  import opened Schema

  /** A row of `productos_plan`: product `producto` offered in plan `plan`. */
  datatype ProductoPlan = ProductoPlan(id: nat, producto: nat, plan: nat, activo: bool, destacado: bool)

  // --------------------------------------------------------------- counts

  predicate IsDestacado(p: Producto) {
    TruthyBool(p.destacado)
  }

  predicate PlanActivo(p: Plan) {
    p.activo
  }

  predicate AsociacionActiva(a: ProductoPlan) {
    a.activo
  }

  /** `productos.filter(p => p.destacado).length`. */
  function ProductosDestacados(ps: seq<Producto>): (n: nat)
    ensures n <= |ps|
    ensures n == |Filter(ps, IsDestacado)|
  {
    Count(ps, IsDestacado)
  }

  /** `planes.filter(p => p.activo).length`. */
  function PlanesActivos(ps: seq<Plan>): (n: nat)
    ensures n <= |ps|
    ensures n == |Filter(ps, PlanActivo)|
  {
    Count(ps, PlanActivo)
  }

  /** `productosPorPlan.filter(p => p.activo).length`. */
  function AsociacionesActivas(xs: seq<ProductoPlan>): (n: nat)
    ensures n <= |xs|
    ensures n == |Filter(xs, AsociacionActiva)|
  {
    Count(xs, AsociacionActiva)
  }

  /** Each count and the count of the rest add up to the total shown beside it. */
  lemma CountsSplitTotals(ps: seq<Producto>, planes: seq<Plan>, xs: seq<ProductoPlan>)
    ensures ProductosDestacados(ps) + |Filter(ps, (p: Producto) => !IsDestacado(p))| == |ps|
    ensures PlanesActivos(planes) + |Filter(planes, (p: Plan) => !p.activo)| == |planes|
    ensures AsociacionesActivas(xs) + |Filter(xs, (a: ProductoPlan) => !a.activo)| == |xs|
  {
    FilterComplement(ps, IsDestacado, (p: Producto) => !IsDestacado(p));
    FilterComplement(planes, PlanActivo, (p: Plan) => !p.activo);
    FilterComplement(xs, AsociacionActiva, (a: ProductoPlan) => !a.activo);
  }

  /** Every product is featured exactly when the featured count reaches the total. */
  lemma AllDestacadosIff(ps: seq<Producto>)
    ensures ProductosDestacados(ps) == |ps| <==> forall p :: p in ps ==> IsDestacado(p)
  {
    CountsSplitTotals(ps, [], []);
    if ProductosDestacados(ps) == |ps| {
      var rest := Filter(ps, (p: Producto) => !IsDestacado(p));
      assert |rest| == 0;
      forall p | p in ps
        ensures IsDestacado(p)
      {
        assert p !in rest;
      }
    }
    if forall p :: p in ps ==> IsDestacado(p) {
      FilterAll(ps, IsDestacado);
    }
  }

  // ---------------------------------------------------------------- value

  function Precio(p: Producto): real {
    p.precio
  }

  /** `productos.reduce((acc, p) => acc + p.precio, 0)`. */
  function ValorTotal(ps: seq<Producto>): real {
    Sum(ps, Precio)
  }

  /** With no negative price the total is not negative, and it is at least
      the price of any one product. */
  lemma {:induction false} ValorTotalBounds(ps: seq<Producto>)
    requires forall p :: p in ps ==> p.precio >= 0.0
    ensures ValorTotal(ps) >= 0.0
    ensures forall p :: p in ps ==> ValorTotal(ps) >= p.precio
  {
    if ps != [] {
      var init := ps[..|ps| - 1];
      assert forall p :: p in init ==> p in ps;
      ValorTotalBounds(init);
    }
  }

  /** A predicate and its negation split the value between them. */
  lemma {:induction false} SumSplits(ps: seq<Producto>, q: Producto -> bool, nq: Producto -> bool)
    requires forall p :: nq(p) == !q(p)
    ensures Sum(ps, Precio) == Sum(Filter(ps, q), Precio) + Sum(Filter(ps, nq), Precio)
  {
    if ps != [] {
      var init := ps[..|ps| - 1];
      var last := ps[|ps| - 1];
      assert ps == init + [last];
      SumSplits(init, q, nq);
      FilterAppend(init, [last], q);
      FilterAppend(init, [last], nq);
      SumAppend(Filter(init, q), Filter([last], q), Precio);
      SumAppend(Filter(init, nq), Filter([last], nq), Precio);
      assert Filter([last], q) == if q(last) then [last] else [];
      assert Filter([last], nq) == if q(last) then [] else [last];
    }
  }

  /** The total value is the value of the featured products plus the value
      of the others. */
  lemma ValorTotalSplits(ps: seq<Producto>)
    ensures ValorTotal(ps) == ValorTotal(Filter(ps, IsDestacado)) + ValorTotal(Filter(ps, (p: Producto) => !IsDestacado(p)))
  {
    SumSplits(ps, IsDestacado, (p: Producto) => !IsDestacado(p));
  }

  // ---------------------------------------------------------------- usage

  /** `productosPorPlan.filter(p => p.fk_id_plan === plan.id).length`. */
  function Usos(xs: seq<ProductoPlan>, plan: nat): (n: nat)
    ensures n <= |xs|
    ensures n == |Filter(xs, (a: ProductoPlan) => a.plan == plan)|
  {
    Count(xs, (a: ProductoPlan) => a.plan == plan)
  }

  /** A plan's use counts one per entry with its id: it grows by one with an
      entry of that plan and by nothing with any other. */
  lemma UsosSnoc(xs: seq<ProductoPlan>, a: ProductoPlan, plan: nat)
    ensures Usos(xs + [a], plan) == Usos(xs, plan) + (if a.plan == plan then 1 else 0)
  {
    FilterAppend(xs, [a], (b: ProductoPlan) => b.plan == plan);
  }

  /** A plan nobody uses shows 0. */
  lemma UnusedPlanZero(xs: seq<ProductoPlan>, plan: nat)
    requires forall a :: a in xs ==> a.plan != plan
    ensures Usos(xs, plan) == 0
  {
    FilterNone(xs, (a: ProductoPlan) => a.plan == plan);
  }

  /** The usage list: one entry per plan, in plan order. */
  function PlanUsage(planes: seq<Plan>, xs: seq<ProductoPlan>): (r: seq<(Plan, nat)>)
    ensures |r| == |planes|
    ensures forall k :: 0 <= k < |r| ==> r[k] == (planes[k], Usos(xs, planes[k].id))
  {
    seq(|planes|, (k: int) requires 0 <= k < |planes| => (planes[k], Usos(xs, planes[k].id)))
  }

  // ------------------------------------------------------------- top five

  /** Non-increasing price order. */
  ghost predicate ByPrecioDesc(s: seq<Producto>) {
    forall k, l :: 0 <= k < l < |s| ==> s[k].precio >= s[l].precio
  }

  /** `productos.sort((a, b) => b.precio - a.precio)`: the array is sorted in
      place by decreasing price (a stable insertion sort; equal prices are
      never swapped). */
  method SortByPrecioDesc(a: array<Producto>)
    modifies a
    ensures ByPrecioDesc(a[..])
    ensures multiset(a[..]) == multiset(old(a[..]))
  {
    var i := 0;
    while i < a.Length
      invariant 0 <= i <= a.Length
      invariant ByPrecioDesc(a[..i])
      invariant multiset(a[..]) == multiset(old(a[..]))
    {
      InsertAt(a, i);
      i := i + 1;
    }
  }

  /** Mid-insertion: apart from the moving element at `j`, the first `i + 1`
      elements are in order, and the moving element is dearer than every
      element it has passed. */
  ghost predicate Inserting(s: seq<Producto>, i: nat, j: nat)
    requires j <= i < |s|
  {
    (forall k, l :: 0 <= k < l <= i && k != j && l != j ==> s[k].precio >= s[l].precio) &&
    (forall l :: j < l <= i ==> s[j].precio > s[l].precio)
  }

  /** One insertion step: the element at `i` moves left past every cheaper
      one, so `a[..i + 1]` becomes sorted. */
  method InsertAt(a: array<Producto>, i: nat)
    requires i < a.Length && ByPrecioDesc(a[..i])
    modifies a
    ensures ByPrecioDesc(a[..i + 1])
    ensures multiset(a[..]) == multiset(old(a[..]))
  {
    var j := i;
    while j > 0 && a[j - 1].precio < a[j].precio
      invariant 0 <= j <= i
      invariant multiset(a[..]) == multiset(old(a[..]))
      invariant Inserting(a[..], i, j)
    {
      ghost var before := a[..];
      a[j - 1], a[j] := a[j], a[j - 1];
      assert a[..] == Swapped(before, j);
      SwapStep(before, i, j);
      j := j - 1;
    }
    InsertedSorted(a[..], i, j);
  }

  /** `s` with the elements at `j - 1` and `j` exchanged. */
  function Swapped(s: seq<Producto>, j: nat): (t: seq<Producto>)
    requires 0 < j < |s|
    ensures |t| == |s| && t[j - 1] == s[j] && t[j] == s[j - 1]
    ensures forall k :: 0 <= k < |s| && k != j - 1 && k != j ==> t[k] == s[k]
    ensures multiset(t) == multiset(s)
  {
    s[j - 1 := s[j]][j := s[j - 1]]
  }

  /** Exchanging the moving element with a cheaper left neighbour keeps the
      insertion shape one place further left. */
  lemma SwapStep(s: seq<Producto>, i: nat, j: nat)
    requires 0 < j <= i < |s| && Inserting(s, i, j)
    requires s[j - 1].precio < s[j].precio
    ensures Inserting(Swapped(s, j), i, j - 1)
  {
  }

  /** Where the insertion stops, the first `i + 1` elements are in order. */
  lemma InsertedSorted(s: seq<Producto>, i: nat, j: nat)
    requires j <= i < |s| && Inserting(s, i, j)
    requires j == 0 || s[j - 1].precio >= s[j].precio
    ensures ByPrecioDesc(s[..i + 1])
  {
  }

  /** The "most expensive" card: the array sorted in place, then its first
      five (fewer when there are fewer products). */
  method MasCaros(a: array<Producto>) returns (top: seq<Producto>)
    modifies a
    ensures |top| == if a.Length < 5 then a.Length else 5
    ensures top == a[..|top|]
    ensures ByPrecioDesc(top)
    ensures forall x, y :: x in top && y in a[|top|..] ==> x.precio >= y.precio
    ensures multiset(a[..]) == multiset(old(a[..]))
  {
    SortByPrecioDesc(a);
    var n := if a.Length < 5 then a.Length else 5;
    top := a[..n];
    forall x, y | x in top && y in a[n..]
      ensures x.precio >= y.precio
    {
      var k :| 0 <= k < n && top[k] == x;
      var l :| 0 <= l < a.Length - n && a[n..][l] == y;
      assert a[..][k] == x && a[..][n + l] == y;
    }
  }
}
