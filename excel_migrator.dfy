/** The spreadsheet product importer: cell parsing helpers, the per-row
    reconciliation against the loaded product list (match by code, then by
    description; create, update by code or skip), the find-or-create lookups
    for categories, lines and brands, and the default plan associations of a
    created product. The store is a value of tables; every store call of a row
    may fail, as the row's `RowFaults` say. */
module ExcelMigrator {
  import opened Wrappers
  import opened Text
  import opened Seqs
  import opened Schema

  // ---------------------------------------------------------------- cells

  /** A cell as the spreadsheet reader delivers it; `Other` is any object (a
      `Date`, for instance). */
  datatype Cell = Empty | Bool(b: bool) | Num(n: real) | Str(s: string) | Other

  /** JavaScript truthiness of a cell. */
  predicate CellTruthy(v: Cell) {
    match v
    case Empty => false
    case Bool(b) => b
    case Num(n) => n != 0.0
    case Str(s) => s != ""
    case Other => true
  }

  /** The words that read as "true" once lower-cased and trimmed. */
  predicate IsTrueWord(w: string) {
    w == "true" || w == "1" || w == "yes" || w == "s\U{00ED}"
  }

  /** `parseExcelBoolean`. */
  function ParseExcelBoolean(v: Cell): (r: bool)
    ensures v.Bool? ==> r == v.b
    ensures v.Num? ==> r == (v.n != 0.0)
    ensures v.Str? ==> (r <==> IsTrueWord(Key(v.s)))
    ensures v.Empty? || v.Other? ==> !r
  {
    match v
    case Bool(b) => b
    case Num(n) => n != 0.0
    case Str(s) => IsTrueWord(Key(s))
    case _ => false
  }

  /** A string cell reads the same whatever its case. */
  lemma ParseExcelBooleanIgnoresCase(s: string)
    ensures ParseExcelBoolean(Str(ToLower(s))) == ParseExcelBoolean(Str(s))
  {
    KeyIgnoresCase(s);
    SameKeySameBoolean(ToLower(s), s);
  }

  /** A string cell reads the same with or without surrounding white space. */
  lemma ParseExcelBooleanIgnoresSpace(s: string)
    ensures ParseExcelBoolean(Str(Trim(s))) == ParseExcelBoolean(Str(s))
  {
    KeyIgnoresSpace(s);
    SameKeySameBoolean(Trim(s), s);
  }

  /** Two texts with the same comparison key read alike. */
  lemma SameKeySameBoolean(a: string, b: string)
    requires Key(a) == Key(b)
    ensures ParseExcelBoolean(Str(a)) == ParseExcelBoolean(Str(b))
  {
  }

  /** What `parseExcelDate` makes of a cell. Only `NoDate` (`undefined`) and
      `IsoDate` are final; the other outcomes stand for the `Date` conversions,
      which are not part of this model. */
  datatype DateParse =
    | NoDate
    | SerialDate(serial: real)
    | DmyDate(day: int, month: int, year: int)
    | IsoDate(iso: string)
    | NativeDate(text: string)
    | ObjectDate

  /** `^\d{4}-\d{2}-\d{2}$`. */
  predicate IsIsoDate(t: string) {
    |t| == 10 && t[4] == '-' && t[7] == '-'
    && forall k :: 0 <= k < 10 && k != 4 && k != 7 ==> IsDigit(t[k])
  }

  /** The day/month/year reading of a trimmed text, when it is three
      `/`-separated numbers within range. */
  function DmyOf(t: string): (r: Option<DateParse>)
    ensures r.Some? ==> r.value.DmyDate?
    ensures r.Some? ==> var parts := Split(t, '/');
      |parts| == 3
      && ParseDecimal(parts[0]) == Some(r.value.day)
      && ParseDecimal(parts[1]) == Some(r.value.month)
      && ParseDecimal(parts[2]) == Some(r.value.year)
    ensures r.Some? ==> 1 <= r.value.month <= 12 && 1 <= r.value.day <= 31 && r.value.year > 1900
    ensures r.None? ==> var parts := Split(t, '/');
      |parts| != 3 || ParseDecimal(parts[0]).None? || ParseDecimal(parts[1]).None? || ParseDecimal(parts[2]).None?
      || !(1 <= ParseDecimal(parts[1]).value <= 12 && 1 <= ParseDecimal(parts[0]).value <= 31
           && ParseDecimal(parts[2]).value > 1900)
  {
    var parts := Split(t, '/');
    if |parts| != 3 then None
    else
      var day, month, year := ParseDecimal(parts[0]), ParseDecimal(parts[1]), ParseDecimal(parts[2]);
      if day.None? || month.None? || year.None? then None
      else if 1 <= month.value <= 12 && 1 <= day.value <= 31 && year.value > 1900 then
        Some(DmyDate(day.value, month.value, year.value))
      else None
  }

  /** The string branch of `parseExcelDate`. */
  function ParseDateText(s: string): DateParse {
    var t := Trim(s);
    match DmyOf(t)
    case Some(d) => d
    case None => if IsIsoDate(t) then IsoDate(t) else NativeDate(s)
  }

  /** `parseExcelDate`: a falsy cell is `undefined`; a string is tried as
      day/month/year, then as an ISO date. */
  function ParseExcelDate(v: Cell): (r: DateParse)
    ensures !CellTruthy(v) ==> r == NoDate
    ensures v.Str? && v.s != "" ==> r == ParseDateText(v.s)
  {
    if !CellTruthy(v) then NoDate
    else match v
      case Num(n) => SerialDate(n)
      case Str(s) => ParseDateText(s)
      case Other => ObjectDate
      case _ => NoDate
  }

  /** A text that, once trimmed, is `YYYY-MM-DD` comes back trimmed and unchanged:
      it holds no `/`, so the day/month/year reading never applies. */
  lemma IsoDatePassesThrough(s: string)
    requires IsIsoDate(Trim(s))
    ensures ParseExcelDate(Str(s)) == IsoDate(Trim(s))
  {
    var t := Trim(s);
    assert '/' !in t by {
      forall k | 0 <= k < |t| ensures t[k] != '/' {
        if k != 4 && k != 7 {
          assert IsDigit(t[k]);
        }
      }
    }
    assert IndexOf(t, '/').None?;
    assert Split(t, '/') == [t];
  }

  // ---------------------------------------------------------------- rows

  /** One parsed spreadsheet row (`ProductoExcel`). Text columns are trimmed;
      the promotion columns are `None` (`undefined`) when the cell was empty;
      `rawDescripcion` is the text of the raw `descripcion` column, if truthy. */
  datatype Row = Row(
    descripcion: string,
    precio: real,
    codigo: Option<string>,
    categoria: string,
    marca: string,
    linea: string,
    aplicaTodosPlan: bool,
    precioOferta: Option<real>,
    descuento: Option<real>,
    desde: Option<string>,
    hasta: Option<string>,
    rawDescripcion: Option<string>)

  datatype Status = Created | Updated | Skipped | Error

  datatype AssocNote = NotRequested | Associated | AssociationFailed

  /** Why a row got its status; stands for the result's message. */
  datatype Reason =
    | MissingDescripcion
    | NonPositivePrecio
    | SameDescripcion(existing: nat)
    | CategoriaFailed
    | SameData(existing: nat)
    | ProductUpdated(existing: nat, changes: seq<Field>)
    | UpdateFailed(existing: nat)
    | MarcaFailed
    | ProductCreated(id: nat, note: AssocNote)
    | Unexpected

  datatype MigrationResult = MigrationResult(
    row: nat, descripcion: string, codigo: Option<string>, status: Status, reason: Reason, data: Row)

  /** Which store calls of one row fail. */
  datatype RowFaults = RowFaults(
    lineaInsert: bool, categoriaInsert: bool, marcaInsert: bool,
    productoWrite: bool, planesFetch: bool, asociacionesInsert: bool)

  const NoFaults := RowFaults(false, false, false, false, false, false)

  function RowFaultsAt(faults: seq<RowFaults>, i: nat): RowFaults {
    if i < |faults| then faults[i] else NoFaults
  }

  // ---------------------------------------------------------------- diff

  /** The seven columns an update by code compares. */
  datatype Field = FDescripcion | FPrecio | FCategoria | FPrecioOferta | FDescuento | FDesde | FHasta

  const AllFields: seq<Field> := [FDescripcion, FPrecio, FCategoria, FPrecioOferta, FDescuento, FDesde, FHasta]

  lemma AllFieldsListed()
    ensures forall f: Field :: f in AllFields
  {
    forall f: Field ensures f in AllFields {
      match f
      case FDescripcion =>
      case FPrecio =>
      case FCategoria =>
      case FPrecioOferta =>
      case FDescuento =>
      case FDesde =>
      case FHasta =>
    }
  }

  /** `Math.abs(a - b) > 0.01`. */
  predicate PriceDiffers(a: real, b: real) {
    a - b > 0.01 || b - a > 0.01
  }

  /** Descriptions compare trimmed and lower-cased. */
  predicate DescripcionDiffers(p: Producto, row: Row) {
    ToLower(Trim(p.descripcion)) != ToLower(Trim(row.descripcion))
  }

  /** A column differs under the comparisons as the importer writes them:
      category and the four promotion columns with strict `!==`. */
  predicate DiffersAsWritten(f: Field, p: Producto, row: Row, cat: nat) {
    match f
    case FDescripcion => DescripcionDiffers(p, row)
    case FPrecio => PriceDiffers(p.precio, row.precio)
    case FCategoria => p.categoria != Val(cat)
    case FPrecioOferta => p.precioOferta != OptionToJs(row.precioOferta)
    case FDescuento => p.descuento != OptionToJs(row.descuento)
    case FDesde => p.desde != OptionToJs(row.desde)
    case FHasta => p.hasta != OptionToJs(row.hasta)
  }

  /** A column differs, with the promotion columns compared loosely so that a
      stored `null` equals an empty cell (`undefined`). */
  predicate Differs(f: Field, p: Producto, row: Row, cat: nat) {
    match f
    case FPrecioOferta => !LooseEq(p.precioOferta, OptionToJs(row.precioOferta))
    case FDescuento => !LooseEq(p.descuento, OptionToJs(row.descuento))
    case FDesde => !LooseEq(p.desde, OptionToJs(row.desde))
    case FHasta => !LooseEq(p.hasta, OptionToJs(row.hasta))
    case _ => DiffersAsWritten(f, p, row, cat)
  }

  function ChangedFieldsAsWritten(p: Producto, row: Row, cat: nat): (r: seq<Field>)
    ensures forall f :: f in r <==> DiffersAsWritten(f, p, row, cat)
  {
    AllFieldsListed();
    Filter(AllFields, f => DiffersAsWritten(f, p, row, cat))
  }

  /** The columns an update by code changes, in the order the importer checks them. */
  function ChangedFields(p: Producto, row: Row, cat: nat): (r: seq<Field>)
    ensures forall f :: f in r <==> Differs(f, p, row, cat)
  {
    AllFieldsListed();
    Filter(AllFields, f => Differs(f, p, row, cat))
  }

  /** The two comparisons agree unless a stored `null` meets an empty cell. */
  lemma ChangedFieldsAgree(p: Producto, row: Row, cat: nat)
    requires !(p.precioOferta.Null? && row.precioOferta.None?)
    requires !(p.descuento.Null? && row.descuento.None?)
    requires !(p.desde.Null? && row.desde.None?)
    requires !(p.hasta.Null? && row.hasta.None?)
    ensures ChangedFieldsAsWritten(p, row, cat) == ChangedFields(p, row, cat)
  {
    FilterCongruent(AllFields, f => DiffersAsWritten(f, p, row, cat), f => Differs(f, p, row, cat));
  }

  /** The value a payload key holds. */
  datatype FieldValue =
    | FText(s: string)
    | FReal(r: real)
    | FId(n: nat)
    | FOptReal(o: JsOpt<real>)
    | FOptText(t: JsOpt<string>)

  /** An update payload (`camposAActualizar`): the keys it sets. A key whose
      value is `Undefined` is present in the object but dropped when the object
      is sent as JSON. */
  type Patch = map<Field, FieldValue>

  /** The row's value for a column, as the importer copies it into the payload. */
  function RowValue(f: Field, row: Row, cat: nat): FieldValue {
    match f
    case FDescripcion => FText(row.descripcion)
    case FPrecio => FReal(row.precio)
    case FCategoria => FId(cat)
    case FPrecioOferta => FOptReal(OptionToJs(row.precioOferta))
    case FDescuento => FOptReal(OptionToJs(row.descuento))
    case FDesde => FOptText(OptionToJs(row.desde))
    case FHasta => FOptText(OptionToJs(row.hasta))
  }

  /** The row's value for a column with `undefined` sent as `null`. */
  function StoredValue(f: Field, row: Row, cat: nat): (v: FieldValue)
    ensures RowValue(f, row, cat).FOptReal? ==>
      v.FOptReal? && !v.o.Undefined? && LooseEq(v.o, RowValue(f, row, cat).o)
    ensures RowValue(f, row, cat).FOptText? ==>
      v.FOptText? && !v.t.Undefined? && LooseEq(v.t, RowValue(f, row, cat).t)
    ensures !RowValue(f, row, cat).FOptReal? && !RowValue(f, row, cat).FOptText? ==> v == RowValue(f, row, cat)
  {
    match RowValue(f, row, cat)
    case FOptReal(o) => FOptReal(UndefinedToNull(o))
    case FOptText(t) => FOptText(UndefinedToNull(t))
    case other => other
  }

  /** The keys of a payload, in column order. */
  function PatchKeys(q: Patch): (ks: seq<Field>)
    ensures forall f :: f in ks <==> f in q
  {
    AllFieldsListed();
    Filter(AllFields, f => f in q)
  }

  /** The payload as the importer builds it: every column that differs (with
      the strict comparisons), with the row's value, `undefined` included. */
  function PayloadAsWritten(p: Producto, row: Row, cat: nat): Patch {
    map f | f in AllFields && DiffersAsWritten(f, p, row, cat) :: RowValue(f, row, cat)
  }

  /** The corrected payload: every column that differs under the loose
      comparison, with the row's value and `undefined` sent as `null`. */
  function Payload(p: Producto, row: Row, cat: nat): Patch {
    map f | f in AllFields && Differs(f, p, row, cat) :: StoredValue(f, row, cat)
  }

  /** Which comparison an update by code runs: the importer's own strict one
      (`AsWritten`), or the corrected loose one with `null` written for an
      empty cell (`Corrected`). */
  datatype Comparison = AsWritten | Corrected

  /** The columns reported as changed under comparison `m`. */
  function Changed(m: Comparison, p: Producto, row: Row, cat: nat): seq<Field> {
    match m
    case AsWritten => ChangedFieldsAsWritten(p, row, cat)
    case Corrected => ChangedFields(p, row, cat)
  }

  /** The payload an update writes under comparison `m`. */
  function PayloadFor(m: Comparison, p: Producto, row: Row, cat: nat): Patch {
    match m
    case AsWritten => PayloadAsWritten(p, row, cat)
    case Corrected => Payload(p, row, cat)
  }

  /** Each payload holds exactly the columns its comparison reports, in the
      same order, and the values the row gives them. */
  lemma PayloadIsDiff(p: Producto, row: Row, cat: nat)
    ensures PatchKeys(Payload(p, row, cat)) == ChangedFields(p, row, cat)
    ensures PatchKeys(PayloadAsWritten(p, row, cat)) == ChangedFieldsAsWritten(p, row, cat)
    ensures forall f :: f in PayloadAsWritten(p, row, cat) ==> PayloadAsWritten(p, row, cat)[f] == RowValue(f, row, cat)
  {
    AllFieldsListed();
    var q := Payload(p, row, cat);
    FilterCongruent(AllFields, f => f in q, f => Differs(f, p, row, cat));
    var w := PayloadAsWritten(p, row, cat);
    FilterCongruent(AllFields, f => f in w, f => DiffersAsWritten(f, p, row, cat));
  }

  /** A text column after the payload is written. */
  function SetText(q: Patch, f: Field, prev: string): string {
    if f in q && q[f].FText? then q[f].s else prev
  }

  function SetReal(q: Patch, f: Field, prev: real): real {
    if f in q && q[f].FReal? then q[f].r else prev
  }

  function SetId(q: Patch, f: Field, prev: JsOpt<nat>): JsOpt<nat> {
    if f in q && q[f].FId? then Val(q[f].n) else prev
  }

  /** An optional column: a key set to `undefined` is dropped and leaves it. */
  function SetOptReal(q: Patch, f: Field, prev: JsOpt<real>): JsOpt<real> {
    if f in q && q[f].FOptReal? && !q[f].o.Undefined? then q[f].o else prev
  }

  function SetOptText(q: Patch, f: Field, prev: JsOpt<string>): JsOpt<string> {
    if f in q && q[f].FOptText? && !q[f].t.Undefined? then q[f].t else prev
  }

  /** What `update(payload)` does to a stored product. */
  function ApplyPatch(p: Producto, q: Patch): Producto {
    p.(descripcion := SetText(q, FDescripcion, p.descripcion),
       precio := SetReal(q, FPrecio, p.precio),
       categoria := SetId(q, FCategoria, p.categoria),
       precioOferta := SetOptReal(q, FPrecioOferta, p.precioOferta),
       descuento := SetOptReal(q, FDescuento, p.descuento),
       desde := SetOptText(q, FDesde, p.desde),
       hasta := SetOptText(q, FHasta, p.hasta))
  }

  /** `update(payload).eq('id', id)`. */
  function UpdateWhere(ps: seq<Producto>, id: nat, q: Patch): (r: seq<Producto>)
    ensures |r| == |ps|
    ensures forall k :: 0 <= k < |ps| && ps[k].id != id ==> r[k] == ps[k]
    ensures forall k :: 0 <= k < |ps| && ps[k].id == id ==> r[k] == ApplyPatch(ps[k], q)
  {
    seq(|ps|, k requires 0 <= k < |ps| => if ps[k].id == id then ApplyPatch(ps[k], q) else ps[k])
  }

  /** A column is in the corrected payload exactly when it differs, and then
      with the value the row gives it. */
  lemma PayloadAt(p: Producto, row: Row, cat: nat, f: Field)
    ensures f in Payload(p, row, cat) <==> Differs(f, p, row, cat)
    ensures f in Payload(p, row, cat) ==> Payload(p, row, cat)[f] == StoredValue(f, row, cat)
  {
    AllFieldsListed();
  }

  /** One column of a product after the corrected payload is written agrees
      with the row. */
  lemma ConvergesAt(p: Producto, row: Row, cat: nat, f: Field)
    ensures !Differs(f, ApplyPatch(p, Payload(p, row, cat)), row, cat)
  {
    var q := Payload(p, row, cat);
    var u := ApplyPatch(p, q);
    PayloadAt(p, row, cat, f);
    match f
    case FDescripcion =>
      if f in q {
        assert u.descripcion == row.descripcion;
      } else {
        assert u.descripcion == p.descripcion;
      }
    case FPrecio =>
      if f in q {
        assert u.precio == row.precio;
      } else {
        assert u.precio == p.precio;
      }
    case FCategoria =>
      if f in q {
        assert u.categoria == Val(cat);
      } else {
        assert u.categoria == p.categoria;
      }
    case FPrecioOferta =>
      if f in q {
        assert u.precioOferta == UndefinedToNull(OptionToJs(row.precioOferta));
      } else {
        assert u.precioOferta == p.precioOferta;
      }
    case FDescuento =>
      if f in q {
        assert u.descuento == UndefinedToNull(OptionToJs(row.descuento));
      } else {
        assert u.descuento == p.descuento;
      }
    case FDesde =>
      if f in q {
        assert u.desde == UndefinedToNull(OptionToJs(row.desde));
      } else {
        assert u.desde == p.desde;
      }
    case FHasta =>
      if f in q {
        assert u.hasta == UndefinedToNull(OptionToJs(row.hasta));
      } else {
        assert u.hasta == p.hasta;
      }
  }

  /** No column differs exactly when the list of changed columns is empty. */
  lemma NoChangedFields(p: Producto, row: Row, cat: nat)
    requires forall f :: !Differs(f, p, row, cat)
    ensures ChangedFields(p, row, cat) == []
  {
  }

  /** With the corrected payload, an update converges: the updated product no
      longer differs from its row, so importing the same row again skips it. */
  lemma UpdateConverges(p: Producto, row: Row, cat: nat)
    ensures ChangedFields(ApplyPatch(p, Payload(p, row, cat)), row, cat) == []
  {
    var u := ApplyPatch(p, Payload(p, row, cat));
    forall f ensures !Differs(f, u, row, cat) {
      ConvergesAt(p, row, cat, f);
    }
    NoChangedFields(u, row, cat);
  }

  /** As written, an update never converges for a stored `null` offer price met
      by an empty cell: the column is reported as changed, the `undefined` it is
      set to is dropped, and the next import reports it again. */
  lemma UpdateAsWrittenRepeats(p: Producto, row: Row, cat: nat)
    requires p.precioOferta.Null? && row.precioOferta.None?
    ensures FPrecioOferta in ChangedFieldsAsWritten(p, row, cat)
    ensures FPrecioOferta in ChangedFieldsAsWritten(ApplyPatch(p, PayloadAsWritten(p, row, cat)), row, cat)
  {
    AllFieldsListed();
    var q := PayloadAsWritten(p, row, cat);
    assert DiffersAsWritten(FPrecioOferta, p, row, cat);
    assert q[FPrecioOferta] == FOptReal(Undefined);
    var u := ApplyPatch(p, q);
    assert u.precioOferta == Null;
    assert DiffersAsWritten(FPrecioOferta, u, row, cat);
  }

  // ---------------------------------------------------------------- lookups

  predicate SameName(a: string, b: string) {
    ToLower(a) == ToLower(b)
  }

  /** A lookup's outcome: the id (`None` for `null`), the local category list
      and the store. */
  datatype Lookup = Lookup(id: Option<nat>, categorias: seq<Categoria>, db: Tables)

  /** `findOrCreateCategoria`: the first local category of the same name
      (case-insensitive), or else a new category under the first local line of
      the given name, or under a line inserted for it. The new category is
      appended to the local list; a new line is not. Any store failure gives
      `null`, keeping what was already written. */
  function CategoriaStep(cats: seq<Categoria>, lineas: seq<Linea>, db: Tables,
                         nombre: string, nombreLinea: string, f: RowFaults): (r: Lookup)
    ensures r.categorias == cats || (|r.categorias| == |cats| + 1 && r.categorias[..|cats|] == cats)
    ensures r.categorias != cats ==>
      && r.id == Some(r.categorias[|cats|].id)
      && SameName(r.categorias[|cats|].descripcion, nombre)
      && r.db.categorias == db.categorias + [r.categorias[|cats|]]
  {
    match FirstIndex(cats, (c: Categoria) => SameName(c.descripcion, nombre))
    case Some(k) => Lookup(Some(cats[k].id), cats, db)
    case None =>
      var (lineaId, db1) :=
        match FirstIndex(lineas, (l: Linea) => SameName(l.descripcion, nombreLinea))
        case Some(k) => (Some(lineas[k].id), db)
        case None =>
          if f.lineaInsert then (None, db)
          else (Some(db.nextId), db.(lineas := db.lineas + [Linea(db.nextId, nombreLinea)], nextId := db.nextId + 1));
      if lineaId.None? || f.categoriaInsert then Lookup(None, cats, db1)
      else
        var nueva := Categoria(db1.nextId, nombre, lineaId.value);
        Lookup(Some(nueva.id), cats + [nueva],
               db1.(categorias := db1.categorias + [nueva], nextId := db1.nextId + 1))
  }

  /** A category found locally costs no store call and no fault matters. */
  lemma CategoriaFoundLocally(cats: seq<Categoria>, lineas: seq<Linea>, db: Tables,
                              nombre: string, nombreLinea: string, f: RowFaults, k: nat)
    requires k < |cats| && SameName(cats[k].descripcion, nombre)
    requires forall j :: 0 <= j < k ==> !SameName(cats[j].descripcion, nombre)
    ensures CategoriaStep(cats, lineas, db, nombre, nombreLinea, f) == Lookup(Some(cats[k].id), cats, db)
  {
    var i := FirstIndex(cats, (c: Categoria) => SameName(c.descripcion, nombre));
    assert i == Some(k);
  }

  /** A category created by one row is found by every later row of the same
      name, without touching the store, whatever fails then. */
  lemma CategoriaReused(cats: seq<Categoria>, lineas: seq<Linea>, db: Tables,
                        nombre: string, nombreLinea: string, f: RowFaults,
                        db2: Tables, nombre2: string, nombreLinea2: string, f2: RowFaults)
    requires CategoriaStep(cats, lineas, db, nombre, nombreLinea, f).categorias != cats
    requires SameName(nombre2, nombre)
    ensures var r := CategoriaStep(cats, lineas, db, nombre, nombreLinea, f);
      CategoriaStep(r.categorias, lineas, db2, nombre2, nombreLinea2, f2) == Lookup(r.id, r.categorias, db2)
  {
    var r := CategoriaStep(cats, lineas, db, nombre, nombreLinea, f);
    var nueva := r.categorias[|cats|];
    assert FirstIndex(cats, (c: Categoria) => SameName(c.descripcion, nombre)).None?;
    forall j | 0 <= j < |cats| ensures !SameName(r.categorias[j].descripcion, nombre2) {
      assert r.categorias[j] == cats[j];
    }
    CategoriaFoundLocally(r.categorias, lineas, db2, nombre2, nombreLinea2, f2, |cats|);
  }

  /** New lines are not added to the local list: two categories created under
      the same new line insert that line twice. */
  lemma LineaNotReused(cats: seq<Categoria>, lineas: seq<Linea>, db: Tables,
                       nombre1: string, nombre2: string, nombreLinea: string)
    requires forall j :: 0 <= j < |cats| ==> !SameName(cats[j].descripcion, nombre1)
    requires forall j :: 0 <= j < |cats| ==> !SameName(cats[j].descripcion, nombre2)
    requires !SameName(nombre1, nombre2)
    requires forall j :: 0 <= j < |lineas| ==> !SameName(lineas[j].descripcion, nombreLinea)
    ensures var r1 := CategoriaStep(cats, lineas, db, nombre1, nombreLinea, NoFaults);
      var r2 := CategoriaStep(r1.categorias, lineas, r1.db, nombre2, nombreLinea, NoFaults);
      r2.db.lineas == db.lineas + [Linea(db.nextId, nombreLinea), Linea(db.nextId + 2, nombreLinea)]
  {
    var r1 := CategoriaStep(cats, lineas, db, nombre1, nombreLinea, NoFaults);
    assert FirstIndex(cats, (c: Categoria) => SameName(c.descripcion, nombre1)).None?;
    assert FirstIndex(lineas, (l: Linea) => SameName(l.descripcion, nombreLinea)).None?;
    assert r1.db.lineas == db.lineas + [Linea(db.nextId, nombreLinea)];
    assert r1.db.nextId == db.nextId + 2;
    assert |r1.categorias| == |cats| + 1;
    forall j | 0 <= j < |r1.categorias| ensures !SameName(r1.categorias[j].descripcion, nombre2) {
      if j < |cats| {
        assert r1.categorias[j] == cats[j];
      }
    }
    assert FirstIndex(r1.categorias, (c: Categoria) => SameName(c.descripcion, nombre2)).None?;
  }

  /** `findOrCreateMarca`: the first local brand of the same name, or a brand
      inserted for it. The new brand is not added to the local list. */
  function MarcaStep(marcas: seq<Marca>, db: Tables, nombre: string, f: RowFaults): (r: (Option<nat>, Tables))
    ensures r.1 == db || (r.1 == db.(marcas := db.marcas + [Marca(db.nextId, nombre)], nextId := db.nextId + 1)
                          && r.0 == Some(db.nextId))
  {
    match FirstIndex(marcas, (m: Marca) => SameName(m.descripcion, nombre))
    case Some(k) => (Some(marcas[k].id), db)
    case None =>
      if f.marcaInsert then (None, db)
      else (Some(db.nextId), db.(marcas := db.marcas + [Marca(db.nextId, nombre)], nextId := db.nextId + 1))
  }

  /** A brand missing from the local list is inserted again by every row that
      names it. */
  lemma MarcaNotReused(marcas: seq<Marca>, db: Tables, nombre: string)
    requires forall j :: 0 <= j < |marcas| ==> !SameName(marcas[j].descripcion, nombre)
    ensures var r1 := MarcaStep(marcas, db, nombre, NoFaults);
      var r2 := MarcaStep(marcas, r1.1, nombre, NoFaults);
      r2.1.marcas == db.marcas + [Marca(db.nextId, nombre), Marca(db.nextId + 1, nombre)]
      && r1.0 != r2.0
  {
    assert FirstIndex(marcas, (m: Marca) => SameName(m.descripcion, nombre)).None?;
  }

  /** The rows `createDefaultAssociations` inserts: one per plan, with ids from `start`. */
  function NewDefaults(planes: seq<Plan>, producto: nat, start: nat): (r: seq<DefaultAssoc>)
    ensures |r| == |planes|
    ensures forall k :: 0 <= k < |planes| ==>
      r[k] == DefaultAssoc(start + k, Val(producto), Null, planes[k].id, true)
  {
    if planes == [] then []
    else [DefaultAssoc(start, Val(producto), Null, planes[0].id, true)] + NewDefaults(planes[1..], producto, start + 1)
  }

  /** `createDefaultAssociations(productoId, aplicaTodosPlan)`: when it applies,
      one active `{producto, plan}` row per active plan; `false` when it throws. */
  function AssocStep(db: Tables, producto: nat, aplica: bool, f: RowFaults): (r: (bool, Tables))
  {
    if !aplica then (true, db)
    else if f.planesFetch then (false, db)
    else
      var activos := Filter(db.planes, (p: Plan) => p.activo);
      if activos == [] then (true, db)
      else if f.asociacionesInsert then (false, db)
      else (true, db.(defaults := db.defaults + NewDefaults(activos, producto, db.nextId),
                      nextId := db.nextId + |activos|))
  }

  /** The association step adds exactly one row per active plan, or nothing. */
  lemma AssocStepAddsOnePerActivePlan(db: Tables, producto: nat, f: RowFaults)
    ensures var r := AssocStep(db, producto, true, f);
      var activos := Filter(db.planes, (p: Plan) => p.activo);
      r.0 && r.1.defaults != db.defaults ==>
        r.1.defaults == db.defaults + NewDefaults(activos, producto, db.nextId)
        && forall k :: 0 <= k < |activos| ==>
             var a := r.1.defaults[|db.defaults| + k];
             a.producto == Val(producto) && a.plan == activos[k].id && a.activo
    ensures var r := AssocStep(db, producto, true, f);
      !r.0 ==> r.1 == db
  {
  }

  // ---------------------------------------------------------------- rows

  /** The product list the importer was given, and its brands and lines; none
      of them is refreshed during a run. */
  datatype Snapshot = Snapshot(productos: seq<Producto>, marcas: seq<Marca>, lineas: seq<Linea>)

  /** A row's effect: the local categories, the store and the row's result. */
  datatype Outcome = Outcome(categorias: seq<Categoria>, db: Tables, result: MigrationResult)

  /** The row's code, when truthy. */
  function RowCode(row: Row): Option<string> {
    if row.codigo.Some? && row.codigo.value != "" then row.codigo else None
  }

  /** The first loaded product with a (truthy) code equal to the row's, trimmed
      and case-insensitively. */
  function CodeMatch(ps: seq<Producto>, row: Row): Option<nat> {
    match RowCode(row)
    case None => None
    case Some(c) => FirstIndex(ps, (p: Producto) => TruthyString(p.codigo) && Key(p.codigo.v) == Key(c))
  }

  /** The first loaded product with the row's description, trimmed and case-insensitively. */
  function DescripcionMatch(ps: seq<Producto>, row: Row): Option<nat> {
    FirstIndex(ps, (p: Producto) => Key(p.descripcion) == Key(row.descripcion))
  }

  /** `!id`: a missing id or id 0. */
  predicate NoId(id: Option<nat>) {
    id.None? || id.value == 0
  }

  /** The product the importer inserts; a column given as `undefined` is stored as `null`. */
  function NewProducto(row: Row, cat: nat, marca: nat, id: nat): Producto {
    Producto(id, row.descripcion, Null, row.precio, UndefinedToNull(OptionToJs(row.codigo)),
             Null, Null, Null, Null, Null,
             Null, Val(true), Null, Val(row.aplicaTodosPlan), Null, Null,
             Val(cat), Val(marca), Null, Null,
             UndefinedToNull(OptionToJs(row.precioOferta)), UndefinedToNull(OptionToJs(row.descuento)),
             UndefinedToNull(OptionToJs(row.desde)), UndefinedToNull(OptionToJs(row.hasta)))
  }

  /** Importing a row again right after it created a product changes nothing
      under the corrected comparison, and under the comparison as written it
      reports a change as soon as one promotion cell is empty. */
  lemma ReimportOfCreated(row: Row, cat: nat, marca: nat, id: nat)
    ensures ChangedFields(NewProducto(row, cat, marca, id), row, cat) == []
    ensures row.precioOferta.None? ==>
      ChangedFieldsAsWritten(NewProducto(row, cat, marca, id), row, cat) != []
  {
    var p := NewProducto(row, cat, marca, id);
    forall f ensures !Differs(f, p, row, cat) {
      match f
      case FDescripcion => assert p.descripcion == row.descripcion;
      case FPrecio => assert p.precio == row.precio;
      case FCategoria => assert p.categoria == Val(cat);
      case FPrecioOferta => assert p.precioOferta == UndefinedToNull(OptionToJs(row.precioOferta));
      case FDescuento => assert p.descuento == UndefinedToNull(OptionToJs(row.descuento));
      case FDesde => assert p.desde == UndefinedToNull(OptionToJs(row.desde));
      case FHasta => assert p.hasta == UndefinedToNull(OptionToJs(row.hasta));
    }
    NoChangedFields(p, row, cat);
    if row.precioOferta.None? {
      assert DiffersAsWritten(FPrecioOferta, p, row, cat);
      assert FPrecioOferta in ChangedFieldsAsWritten(p, row, cat);
    }
  }

  /** The description the catch-all error reports. */
  function CatchAllDescripcion(row: Row): string {
    if row.rawDescripcion.Some? && row.rawDescripcion.value != "" then row.rawDescripcion.value
    else "Desconocido"
  }

  /** The update-by-code branch, for the matched product `p`, under
      comparison `m`: the category lookup, then the diff, then the write. */
  function UpdateByCodigo(m: Comparison, p: Producto, cats: seq<Categoria>, lineas: seq<Linea>, db: Tables,
                          row: Row, i: nat, f: RowFaults): (o: Outcome)
    ensures o.result.row == i + 2 && o.result.data == row
    ensures var c := CategoriaStep(cats, lineas, db, row.categoria, row.linea, f);
      && o.categorias == c.categorias
      && (NoId(c.id) ==> o.db == c.db && o.result.status == Error && o.result.reason == CategoriaFailed)
      && (!NoId(c.id) ==>
            && (o.result.status == Skipped <==> Changed(m, p, row, c.id.value) == [])
            && (o.result.status == Skipped ==> o.db == c.db && o.result.reason == SameData(p.id))
            && (o.result.status == Error ==> o.db == c.db && o.result.reason == UpdateFailed(p.id) && f.productoWrite)
            && (o.result.status == Updated <==> Changed(m, p, row, c.id.value) != [] && !f.productoWrite)
            && (o.result.status == Updated ==>
                  o.result.reason == ProductUpdated(p.id, Changed(m, p, row, c.id.value))
                  && o.db == c.db.(productos := UpdateWhere(c.db.productos, p.id, PayloadFor(m, p, row, c.id.value)))))
  {
    var c := CategoriaStep(cats, lineas, db, row.categoria, row.linea, f);
    if NoId(c.id) then
      Outcome(c.categorias, c.db, MigrationResult(i + 2, row.descripcion, row.codigo, Error, CategoriaFailed, row))
    else
      var changed := Changed(m, p, row, c.id.value);
      if changed == [] then
        Outcome(c.categorias, c.db, MigrationResult(i + 2, row.descripcion, row.codigo, Skipped, SameData(p.id), row))
      else if f.productoWrite then
        Outcome(c.categorias, c.db, MigrationResult(i + 2, row.descripcion, row.codigo, Error, UpdateFailed(p.id), row))
      else
        Outcome(c.categorias,
                c.db.(productos := UpdateWhere(c.db.productos, p.id, PayloadFor(m, p, row, c.id.value))),
                MigrationResult(i + 2, row.descripcion, row.codigo, Updated, ProductUpdated(p.id, changed), row))
  }

  /** The create branch: category, brand, product, then default associations. */
  function CreateRow(ctx: Snapshot, cats: seq<Categoria>, db: Tables, row: Row, i: nat, f: RowFaults): (o: Outcome)
    ensures o.result.row == i + 2 && o.result.data == row
  {
    var c := CategoriaStep(cats, ctx.lineas, db, row.categoria, row.linea, f);
    if NoId(c.id) then
      Outcome(c.categorias, c.db, MigrationResult(i + 2, row.descripcion, None, Error, CategoriaFailed, row))
    else
      var (marcaId, db1) := MarcaStep(ctx.marcas, c.db, row.marca, f);
      if NoId(marcaId) then
        Outcome(c.categorias, db1, MigrationResult(i + 2, row.descripcion, None, Error, MarcaFailed, row))
      else InsertRow(c.categorias, db1, row, i, f, c.id.value, marcaId.value)
  }

  /** The end of the create branch: the product insert (a failure is caught by
      the catch-all handler) and the default associations, whose failure does
      not undo the product. */
  function InsertRow(cats: seq<Categoria>, db: Tables, row: Row, i: nat, f: RowFaults, cat: nat, marca: nat): (o: Outcome)
    ensures o.result.row == i + 2 && o.result.data == row
    ensures o.categorias == cats
    ensures o.result.status == Created <==> !f.productoWrite
    ensures o.result.status == Created ==>
      o.db.productos == db.productos + [NewProducto(row, cat, marca, db.nextId)]
      && o.result.reason.ProductCreated? && o.result.reason.id == db.nextId
  {
    if f.productoWrite then
      Outcome(cats, db, MigrationResult(i + 2, CatchAllDescripcion(row), None, Error, Unexpected, row))
    else
      var id := db.nextId;
      var db2 := db.(productos := db.productos + [NewProducto(row, cat, marca, id)], nextId := id + 1);
      var (ok, db3) := if row.aplicaTodosPlan then AssocStep(db2, id, true, f) else (true, db2);
      var note := if !row.aplicaTodosPlan then NotRequested else if ok then Associated else AssociationFailed;
      Outcome(cats, db3, MigrationResult(i + 2, row.descripcion, row.codigo, Created, ProductCreated(id, note), row))
  }

  /** `processMigration`'s loop body for row `i`, under comparison `m`. */
  function RowOutcome(m: Comparison, ctx: Snapshot, cats: seq<Categoria>, db: Tables, row: Row, i: nat, f: RowFaults): (o: Outcome)
    ensures o.result.row == i + 2 && o.result.data == row
  {
    if row.descripcion == "" then
      Outcome(cats, db, MigrationResult(i + 2, "Sin descripci\U{00F3}n", None, Error, MissingDescripcion, row))
    else if row.precio <= 0.0 then
      Outcome(cats, db, MigrationResult(i + 2, row.descripcion, None, Error, NonPositivePrecio, row))
    else match CodeMatch(ctx.productos, row)
      case Some(k) => UpdateByCodigo(m, ctx.productos[k], cats, ctx.lineas, db, row, i, f)
      case None =>
        match DescripcionMatch(ctx.productos, row)
        case Some(k) =>
          Outcome(cats, db, MigrationResult(i + 2, row.descripcion, row.codigo, Skipped,
                                            SameDescripcion(ctx.productos[k].id), row))
        case None => CreateRow(ctx, cats, db, row, i, f)
  }

  /** The state the loop carries: local categories, store and results so far. */
  datatype Progress = Progress(categorias: seq<Categoria>, db: Tables, results: seq<MigrationResult>)

  function RowStep(m: Comparison, ctx: Snapshot, s: Progress, row: Row, i: nat, f: RowFaults): (t: Progress)
    ensures |t.results| == |s.results| + 1 && t.results[..|s.results|] == s.results
  {
    var o := RowOutcome(m, ctx, s.categorias, s.db, row, i, f);
    Progress(o.categorias, o.db, s.results + [o.result])
  }

  /** The loop over `rows`, from state `s`, under comparison `m`. */
  function Run(m: Comparison, ctx: Snapshot, s: Progress, rows: seq<Row>, faults: seq<RowFaults>): (t: Progress)
    decreases |rows|
  {
    if rows == [] then s
    else
      var n := |rows| - 1;
      RowStep(m, ctx, Run(m, ctx, s, rows[..n], faults), rows[n], n, RowFaultsAt(faults, n))
  }

  /** The loop over a prefix one row longer is one more step. */
  lemma RunSnoc(m: Comparison, ctx: Snapshot, s: Progress, rows: seq<Row>, i: nat, faults: seq<RowFaults>)
    requires i < |rows|
    ensures Run(m, ctx, s, rows[..i + 1], faults) == RowStep(m, ctx, Run(m, ctx, s, rows[..i], faults), rows[i], i, RowFaultsAt(faults, i))
  {
    assert rows[..i + 1][..i] == rows[..i];
  }

  /** One result per row, in row order, with spreadsheet row number `k + 2`,
      whatever path each row took. */
  lemma {:induction false} RunResults(m: Comparison, ctx: Snapshot, s: Progress, rows: seq<Row>, faults: seq<RowFaults>)
    ensures |Run(m, ctx, s, rows, faults).results| == |s.results| + |rows|
    ensures Run(m, ctx, s, rows, faults).results[..|s.results|] == s.results
    ensures forall k :: |s.results| <= k < |Run(m, ctx, s, rows, faults).results| ==>
      Run(m, ctx, s, rows, faults).results[k].row == k - |s.results| + 2
      && Run(m, ctx, s, rows, faults).results[k].data == rows[k - |s.results|]
  {
    if rows != [] {
      var n := |rows| - 1;
      RunResults(m, ctx, s, rows[..n], faults);
      var u := Run(m, ctx, s, rows[..n], faults);
      var t := Run(m, ctx, s, rows, faults);
      var o := RowOutcome(m, ctx, u.categorias, u.db, rows[n], n, RowFaultsAt(faults, n));
      assert t.results == u.results + [o.result];
      assert t.results[..|s.results|] == u.results[..|s.results|];
      forall k | |s.results| <= k < |t.results|
        ensures t.results[k].row == k - |s.results| + 2 && t.results[k].data == rows[k - |s.results|]
      {
        if k < |u.results| {
          assert t.results[k] == u.results[k];
          assert rows[..n][k - |s.results|] == rows[k - |s.results|];
        } else {
          assert t.results[k] == o.result;
        }
      }
    }
  }

  /** A row without a description, or with a price of at most 0, is an error
      with no lookup and no store write; the description is checked first. */
  lemma ValidationErrors(m: Comparison, ctx: Snapshot, cats: seq<Categoria>, db: Tables, row: Row, i: nat, f: RowFaults)
    requires row.descripcion == "" || row.precio <= 0.0
    ensures var o := RowOutcome(m, ctx, cats, db, row, i, f);
      && o.categorias == cats && o.db == db && o.result.status == Error
      && o.result.reason == (if row.descripcion == "" then MissingDescripcion else NonPositivePrecio)
  {
  }

  /** A code match decides the row: it is updated, skipped as unchanged, or an
      error; never created, and never skipped for its description. */
  lemma CodeMatchWins(m: Comparison, ctx: Snapshot, cats: seq<Categoria>, db: Tables, row: Row, i: nat, f: RowFaults)
    requires row.descripcion != "" && row.precio > 0.0
    requires CodeMatch(ctx.productos, row).Some?
    ensures var o := RowOutcome(m, ctx, cats, db, row, i, f);
      var p := ctx.productos[CodeMatch(ctx.productos, row).value];
      && o.result.status != Created
      && (o.result.reason == CategoriaFailed || o.result.reason == SameData(p.id)
          || o.result.reason == UpdateFailed(p.id) || o.result.reason == ProductUpdated(p.id, o.result.reason.changes))
  {
  }

  /** Without a code match, a description match skips the row and writes nothing. */
  lemma DescripcionMatchSkips(m: Comparison, ctx: Snapshot, cats: seq<Categoria>, db: Tables, row: Row, i: nat, f: RowFaults)
    requires row.descripcion != "" && row.precio > 0.0
    requires CodeMatch(ctx.productos, row).None? && DescripcionMatch(ctx.productos, row).Some?
    ensures var o := RowOutcome(m, ctx, cats, db, row, i, f);
      o.categorias == cats && o.db == db && o.result.status == Skipped
      && o.result.reason == SameDescripcion(ctx.productos[DescripcionMatch(ctx.productos, row).value].id)
  {
  }

  /** With no match at all the row is created or fails; it is never updated or skipped. */
  lemma NoMatchCreates(m: Comparison, ctx: Snapshot, cats: seq<Categoria>, db: Tables, row: Row, i: nat, f: RowFaults)
    requires row.descripcion != "" && row.precio > 0.0
    requires CodeMatch(ctx.productos, row).None? && DescripcionMatch(ctx.productos, row).None?
    ensures var o := RowOutcome(m, ctx, cats, db, row, i, f);
      o.result.status == Created || o.result.status == Error
    ensures var o := RowOutcome(m, ctx, cats, db, row, i, f);
      o.result.status == Created ==> |o.db.productos| == |db.productos| + 1
  {
  }

  /** On an update by code with a category at hand, the row is skipped exactly
      when the comparison reports no column; an update writes exactly that
      comparison's payload to the matched product and reports those columns. */
  lemma UpdateSkippedIffUnchanged(m: Comparison, ctx: Snapshot, cats: seq<Categoria>, db: Tables, row: Row, i: nat, f: RowFaults)
    requires row.descripcion != "" && row.precio > 0.0
    requires CodeMatch(ctx.productos, row).Some?
    requires !NoId(CategoriaStep(cats, ctx.lineas, db, row.categoria, row.linea, f).id)
    ensures var o := RowOutcome(m, ctx, cats, db, row, i, f);
      var p := ctx.productos[CodeMatch(ctx.productos, row).value];
      var c := CategoriaStep(cats, ctx.lineas, db, row.categoria, row.linea, f);
      && (o.result.status == Skipped <==> Changed(m, p, row, c.id.value) == [])
      && (o.result.status == Updated ==>
            o.result.reason.changes == Changed(m, p, row, c.id.value)
            && o.db == c.db.(productos := UpdateWhere(c.db.productos, p.id, PayloadFor(m, p, row, c.id.value))))
  {
  }

  /** As written, a code-matched row whose product holds a `null` offer price
      and whose offer cell is empty is never skipped: unless the write fails
      it is reported as updated with the offer price among its changes, and
      the write leaves that column `null` (`UpdateAsWrittenRepeats`), so every
      later import reports it again. Under the corrected comparison the same
      row is skipped when nothing else differs. */
  lemma NullOfferNeverSkippedAsWritten(ctx: Snapshot, cats: seq<Categoria>, db: Tables, row: Row, i: nat, f: RowFaults)
    requires row.descripcion != "" && row.precio > 0.0
    requires CodeMatch(ctx.productos, row).Some?
    requires !NoId(CategoriaStep(cats, ctx.lineas, db, row.categoria, row.linea, f).id)
    requires ctx.productos[CodeMatch(ctx.productos, row).value].precioOferta.Null? && row.precioOferta.None?
    ensures var o := RowOutcome(AsWritten, ctx, cats, db, row, i, f);
      var p := ctx.productos[CodeMatch(ctx.productos, row).value];
      var c := CategoriaStep(cats, ctx.lineas, db, row.categoria, row.linea, f);
      && o.result.status != Skipped
      && (!f.productoWrite ==> o.result.status == Updated && FPrecioOferta in o.result.reason.changes)
      && (ChangedFields(p, row, c.id.value) == [] ==> RowOutcome(Corrected, ctx, cats, db, row, i, f).result.status == Skipped)
  {
    var p := ctx.productos[CodeMatch(ctx.productos, row).value];
    var c := CategoriaStep(cats, ctx.lineas, db, row.categoria, row.linea, f);
    UpdateAsWrittenRepeats(p, row, c.id.value);
    assert RowOutcome(AsWritten, ctx, cats, db, row, i, f) == UpdateByCodigo(AsWritten, p, cats, ctx.lineas, db, row, i, f);
    assert RowOutcome(Corrected, ctx, cats, db, row, i, f) == UpdateByCodigo(Corrected, p, cats, ctx.lineas, db, row, i, f);
  }

  /** A created product stays created when its plan associations fail; only
      the note changes. */
  lemma CreatedDespiteAssociationFailure(m: Comparison, ctx: Snapshot, cats: seq<Categoria>, db: Tables, row: Row, i: nat, f: RowFaults)
    requires row.descripcion != "" && row.precio > 0.0 && row.aplicaTodosPlan && !f.productoWrite
    requires f.planesFetch
    requires CodeMatch(ctx.productos, row).None? && DescripcionMatch(ctx.productos, row).None?
    requires !NoId(CategoriaStep(cats, ctx.lineas, db, row.categoria, row.linea, f).id)
    requires !NoId(MarcaStep(ctx.marcas, CategoriaStep(cats, ctx.lineas, db, row.categoria, row.linea, f).db, row.marca, f).0)
    ensures var o := RowOutcome(m, ctx, cats, db, row, i, f);
      o.result.status == Created && o.result.reason.ProductCreated? && o.result.reason.note == AssociationFailed
  {
  }

  /** The loaded product list is not refreshed: a second row with the same new
      description creates a second product. */
  lemma DuplicateRowsBothCreated(m: Comparison, ctx: Snapshot, cats: seq<Categoria>, db: Tables, row: Row)
    requires row.descripcion != "" && row.precio > 0.0 && !row.aplicaTodosPlan
    requires CodeMatch(ctx.productos, row).None? && DescripcionMatch(ctx.productos, row).None?
    requires RowOutcome(m, ctx, cats, db, row, 0, NoFaults).result.status == Created
    ensures var o1 := RowOutcome(m, ctx, cats, db, row, 0, NoFaults);
      var o2 := RowOutcome(m, ctx, o1.categorias, o1.db, row, 1, NoFaults);
      o2.result.status == Created && |o2.db.productos| == |db.productos| + 2
  {
    var o1 := RowOutcome(m, ctx, cats, db, row, 0, NoFaults);
    var c := CategoriaStep(cats, ctx.lineas, db, row.categoria, row.linea, NoFaults);
    assert o1.categorias == c.categorias;
    assert c.id.Some? && c.id.value != 0;
    var c2 := CategoriaStep(o1.categorias, ctx.lineas, o1.db, row.categoria, row.linea, NoFaults);
    if c.categorias == cats {
      var k := FirstIndex(cats, (cc: Categoria) => SameName(cc.descripcion, row.categoria));
      assert k.Some?;
      CategoriaFoundLocally(cats, ctx.lineas, o1.db, row.categoria, row.linea, NoFaults, k.value);
    } else {
      CategoriaReused(cats, ctx.lineas, db, row.categoria, row.linea, NoFaults, o1.db, row.categoria, row.linea, NoFaults);
    }
    assert c2.id == c.id;
  }

  // ---------------------------------------------------------------- component

  /** Some result created or updated a product. */
  predicate HasChanges(results: seq<MigrationResult>) {
    exists k :: 0 <= k < |results| && (results[k].status == Created || results[k].status == Updated)
  }

  /** The importer dialog: its props (the loaded lists, of which `categorias`
      grows in place), the store, the chosen file (its rows, already parsed)
      and the results of the last run. */
  class Migrator {
    const productos: seq<Producto>
    var categorias: seq<Categoria>
    const marcas: seq<Marca>
    const lineas: seq<Linea>
    const hasCallback: bool
    var db: Tables
    var file: Option<seq<Row>>
    var results: seq<MigrationResult>
    var isOpen: bool
    var isProcessing: bool
    var showResults: bool

    constructor (productos: seq<Producto>, categorias: seq<Categoria>, marcas: seq<Marca>,
                 lineas: seq<Linea>, db: Tables, hasCallback: bool)
      ensures this.productos == productos && this.categorias == categorias && this.marcas == marcas
      ensures this.lineas == lineas && this.db == db && this.hasCallback == hasCallback
      ensures file == None && results == [] && !isOpen && !isProcessing && !showResults
    {
      this.productos := productos;
      this.categorias := categorias;
      this.marcas := marcas;
      this.lineas := lineas;
      this.hasCallback := hasCallback;
      this.db := db;
      file := None;
      results := [];
      isOpen := false;
      isProcessing := false;
      showResults := false;
    }

    function Ctx(): Snapshot {
      Snapshot(productos, marcas, lineas)
    }

    method FindOrCreateCategoria(nombre: string, nombreLinea: string, f: RowFaults) returns (id: Option<nat>)
      modifies this`categorias, this`db
      ensures Lookup(id, categorias, db) == CategoriaStep(old(categorias), lineas, old(db), nombre, nombreLinea, f)
    {
      var k := FirstIndex(categorias, (c: Categoria) => SameName(c.descripcion, nombre));
      if k.Some? {
        return Some(categorias[k.value].id);
      }
      var lineaId: nat;
      var l := FirstIndex(lineas, (l: Linea) => SameName(l.descripcion, nombreLinea));
      if l.Some? {
        lineaId := lineas[l.value].id;
      } else {
        if f.lineaInsert {
          return None;
        }
        lineaId := db.nextId;
        db := db.(lineas := db.lineas + [Linea(lineaId, nombreLinea)], nextId := db.nextId + 1);
      }
      if f.categoriaInsert {
        return None;
      }
      var nueva := Categoria(db.nextId, nombre, lineaId);
      db := db.(categorias := db.categorias + [nueva], nextId := db.nextId + 1);
      categorias := categorias + [nueva];
      id := Some(nueva.id);
    }

    method FindOrCreateMarca(nombre: string, f: RowFaults) returns (id: Option<nat>)
      modifies this`db
      ensures (id, db) == MarcaStep(marcas, old(db), nombre, f)
    {
      var k := FirstIndex(marcas, (m: Marca) => SameName(m.descripcion, nombre));
      if k.Some? {
        return Some(marcas[k.value].id);
      }
      if f.marcaInsert {
        return None;
      }
      id := Some(db.nextId);
      db := db.(marcas := db.marcas + [Marca(db.nextId, nombre)], nextId := db.nextId + 1);
    }

    /** Returns `false` where the source throws. */
    method CreateDefaultAssociations(producto: nat, aplica: bool, f: RowFaults) returns (ok: bool)
      modifies this`db
      ensures (ok, db) == AssocStep(old(db), producto, aplica, f)
    {
      if !aplica {
        return true;
      }
      if f.planesFetch {
        return false;
      }
      var activos := Filter(db.planes, (p: Plan) => p.activo);
      if |activos| > 0 {
        if f.asociacionesInsert {
          return false;
        }
        db := db.(defaults := db.defaults + NewDefaults(activos, producto, db.nextId),
                  nextId := db.nextId + |activos|);
      }
      ok := true;
    }

    /** The update-by-code branch of the loop body. */
    method UpdateMatched(p: Producto, row: Row, i: nat, f: RowFaults) returns (r: MigrationResult)
      modifies this`categorias, this`db
      ensures Outcome(categorias, db, r) == UpdateByCodigo(AsWritten, p, old(categorias), lineas, old(db), row, i, f)
    {
      var cat := FindOrCreateCategoria(row.categoria, row.linea, f);
      if NoId(cat) {
        return MigrationResult(i + 2, row.descripcion, row.codigo, Error, CategoriaFailed, row);
      }
      var changed := ChangedFieldsAsWritten(p, row, cat.value);
      if changed == [] {
        return MigrationResult(i + 2, row.descripcion, row.codigo, Skipped, SameData(p.id), row);
      }
      if f.productoWrite {
        return MigrationResult(i + 2, row.descripcion, row.codigo, Error, UpdateFailed(p.id), row);
      }
      db := db.(productos := UpdateWhere(db.productos, p.id, PayloadAsWritten(p, row, cat.value)));
      r := MigrationResult(i + 2, row.descripcion, row.codigo, Updated, ProductUpdated(p.id, changed), row);
    }

    /** The create branch of the loop body. */
    method CreateNew(row: Row, i: nat, f: RowFaults) returns (r: MigrationResult)
      modifies this`categorias, this`db
      ensures Outcome(categorias, db, r) == CreateRow(Ctx(), old(categorias), old(db), row, i, f)
    {
      var cat := FindOrCreateCategoria(row.categoria, row.linea, f);
      if NoId(cat) {
        return MigrationResult(i + 2, row.descripcion, None, Error, CategoriaFailed, row);
      }
      var marca := FindOrCreateMarca(row.marca, f);
      if NoId(marca) {
        return MigrationResult(i + 2, row.descripcion, None, Error, MarcaFailed, row);
      }
      r := InsertProducto(row, i, f, cat.value, marca.value);
    }

    method InsertProducto(row: Row, i: nat, f: RowFaults, cat: nat, marca: nat) returns (r: MigrationResult)
      modifies this`db
      ensures Outcome(categorias, db, r) == InsertRow(categorias, old(db), row, i, f, cat, marca)
    {
      if f.productoWrite {
        return MigrationResult(i + 2, CatchAllDescripcion(row), None, Error, Unexpected, row);
      }
      var id := db.nextId;
      db := db.(productos := db.productos + [NewProducto(row, cat, marca, id)], nextId := id + 1);
      var note := NotRequested;
      if row.aplicaTodosPlan {
        var ok := CreateDefaultAssociations(id, true, f);
        note := if ok then Associated else AssociationFailed;
      }
      r := MigrationResult(i + 2, row.descripcion, row.codigo, Created, ProductCreated(id, note), row);
    }

    /** The loop body of `processMigration` for row `i`. */
    method ProcessRow(row: Row, i: nat, f: RowFaults) returns (r: MigrationResult)
      modifies this`categorias, this`db
      ensures Outcome(categorias, db, r) == RowOutcome(AsWritten, Ctx(), old(categorias), old(db), row, i, f)
    {
      if row.descripcion == "" {
        return MigrationResult(i + 2, "Sin descripci\U{00F3}n", None, Error, MissingDescripcion, row);
      }
      if row.precio <= 0.0 {
        return MigrationResult(i + 2, row.descripcion, None, Error, NonPositivePrecio, row);
      }
      var byCode := CodeMatch(productos, row);
      if byCode.Some? {
        r := UpdateMatched(productos[byCode.value], row, i, f);
        return;
      }
      var byDescripcion := DescripcionMatch(productos, row);
      if byDescripcion.Some? {
        return MigrationResult(i + 2, row.descripcion, row.codigo, Skipped,
                               SameDescripcion(productos[byDescripcion.value].id), row);
      }
      r := CreateNew(row, i, f);
    }

    /** `processMigration`: nothing without a file; otherwise one result per row. */
    method ProcessMigration(faults: seq<RowFaults>)
      modifies this`categorias, this`db, this`results, this`isProcessing, this`showResults
      ensures old(file).None? ==>
        categorias == old(categorias) && db == old(db) && results == old(results)
        && isProcessing == old(isProcessing) && showResults == old(showResults)
      ensures old(file).Some? ==>
        Progress(categorias, db, results) == Run(AsWritten, Ctx(), Progress(old(categorias), old(db), []), file.value, faults)
        && showResults && !isProcessing
    {
      if file.None? {
        return;
      }
      isProcessing := true;
      results := [];
      showResults := false;
      var rows := file.value;
      var acc: seq<MigrationResult> := [];
      var i := 0;
      while i < |rows|
        invariant 0 <= i <= |rows|
        invariant Progress(categorias, db, acc) == Run(AsWritten, Ctx(), Progress(old(categorias), old(db), []), rows[..i], faults)
      {
        var r := ProcessRow(rows[i], i, RowFaultsAt(faults, i));
        RunSnoc(AsWritten, Ctx(), Progress(old(categorias), old(db), []), rows, i, faults);
        acc := acc + [r];
        i := i + 1;
      }
      assert rows[..|rows|] == rows;
      results := acc;
      showResults := true;
      isProcessing := false;
    }

    /** `handleCloseDialog`: closes and resets the dialog; the completion
        callback runs exactly when the run created or updated something. */
    method HandleCloseDialog() returns (notified: bool)
      modifies this`isOpen, this`file, this`results, this`showResults
      ensures notified == (HasChanges(old(results)) && hasCallback)
      ensures !isOpen && file.None? && results == [] && !showResults
    {
      notified := HasChanges(results) && hasCallback;
      isOpen := false;
      file := None;
      results := [];
      showResults := false;
    }
  }
}
