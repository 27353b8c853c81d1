/** The records of the hosted database the dashboard administers, as the front
    end sees them after a `select('*')`: every optional column is `Null` when the
    database holds nothing, and a joined relation contributes only the
    description the front end reads from it. The store itself is a value of
    in-memory tables; inserting a row gives it the next free id. */
module Schema {
  import opened Wrappers

  datatype Linea = Linea(id: nat, descripcion: string)

  datatype Categoria = Categoria(id: nat, descripcion: string, linea: nat)

  datatype Marca = Marca(id: nat, descripcion: string)

  /** A row of `productos`, with `categoriaNombre`/`marcaNombre` standing for
      the joined `categoria.descripcion` and `marca.descripcion`. */
  datatype Producto = Producto(
    id: nat,
    descripcion: string,
    descripcionDetallada: JsOpt<string>,
    precio: real,
    codigo: JsOpt<string>,
    imagen: JsOpt<string>,
    imagen2: JsOpt<string>,
    imagen3: JsOpt<string>,
    imagen4: JsOpt<string>,
    imagen5: JsOpt<string>,
    destacado: JsOpt<bool>,
    activo: JsOpt<bool>,
    tieneStock: JsOpt<bool>,
    aplicaTodosPlan: JsOpt<bool>,
    aplicaSoloCategoria: JsOpt<bool>,
    aplicaPlanEspecial: JsOpt<bool>,
    categoria: JsOpt<nat>,
    marca: JsOpt<nat>,
    categoriaNombre: JsOpt<string>,
    marcaNombre: JsOpt<string>,
    precioOferta: JsOpt<real>,
    descuento: JsOpt<real>,
    desde: JsOpt<string>,
    hasta: JsOpt<string>)

  /** A row of `planes_financiacion` (only the columns the logic reads). */
  datatype Plan = Plan(id: nat, nombre: string, activo: bool)

  /** A row of `combos` (only the columns the logic reads). */
  datatype Combo = Combo(id: nat, nombre: string, activo: bool)

  /** A row of `planes_categorias`: plan `plan` is restricted to category `categoria`. */
  datatype PlanCategoria = PlanCategoria(plan: nat, categoria: nat)

  /** A row of `producto_planes_default`: a product or a combo offered in a plan. */
  datatype DefaultAssoc = DefaultAssoc(id: nat, producto: JsOpt<nat>, combo: JsOpt<nat>, plan: nat, activo: bool)

  /** The tables the logic writes to, and the id the next insert receives. */
  datatype Tables = Tables(
    productos: seq<Producto>,
    categorias: seq<Categoria>,
    marcas: seq<Marca>,
    lineas: seq<Linea>,
    planes: seq<Plan>,
    planesCategorias: seq<PlanCategoria>,
    defaults: seq<DefaultAssoc>,
    nextId: nat)

  /** Whether the `k`-th store call of a sequence fails: `faults[k]`, and
      success once the list runs out. */
  predicate FaultAt(faults: seq<bool>, k: nat) {
    k < |faults| && faults[k]
  }
}
