/** The products screen: the offer-price and discount auto-completion, the
    product filter and its pagination with the page-number strip, the image
    slots of the product form and the image carousel, the storage path of an
    image URL and the colour names of the text editor. */
module ProductosSection {
  import opened Wrappers
  import opened Text
  import opened Seqs
  import opened Schema

  // ---------------------------------------------------------------- prices

  /** `calcularPrecioOferta`: `None` stands for the empty text it returns. */
  function CalcularPrecioOferta(base: real, descuento: real): (r: Option<real>)
    ensures r.None? <==> base <= 0.0 || descuento < 0.0 || descuento > 100.0
    ensures r.Some? ==> 0.0 <= r.value <= base
    ensures r.Some? ==> r.value == base * (1.0 - descuento / 100.0)
  {
    if base <= 0.0 || descuento < 0.0 || descuento > 100.0 then None
    else
      OfferWithin(base, descuento);
      Some(base * (1.0 - descuento / 100.0))
  }

  /** `calcularDescuento`: `None` stands for the empty text it returns. */
  function CalcularDescuento(base: real, oferta: real): (r: Option<real>)
    ensures r.None? <==> base <= 0.0 || oferta < 0.0 || oferta > base
    ensures r.Some? ==> 0.0 <= r.value <= 100.0
    ensures r.Some? ==> r.value == ((base - oferta) / base) * 100.0
  {
    if base <= 0.0 || oferta < 0.0 || oferta > base then None
    else
      var q := (base - oferta) / base;
      RatioWithin(base - oferta, base);
      Some(q * 100.0)
  }

  lemma OfferWithin(base: real, descuento: real)
    requires base > 0.0 && 0.0 <= descuento <= 100.0
    ensures 0.0 <= base * (1.0 - descuento / 100.0) <= base
  {
    var f := 1.0 - descuento / 100.0;
    assert 0.0 <= f <= 1.0;
    assert base * f + base * (1.0 - f) == base;
    assert base * (1.0 - f) >= 0.0;
  }

  lemma RatioWithin(x: real, y: real)
    requires y > 0.0 && 0.0 <= x <= y
    ensures 0.0 <= x / y <= 1.0
  {
    assert (x / y) * y == x;
  }

  /** The discount of the computed offer price is the discount typed. */
  lemma DiscountOfOffer(base: real, descuento: real)
    requires CalcularPrecioOferta(base, descuento).Some?
    ensures CalcularDescuento(base, CalcularPrecioOferta(base, descuento).value) == Some(descuento)
  {
    var o := base * (1.0 - descuento / 100.0);
    assert base - o == base * (descuento / 100.0);
    assert (base - o) / base == descuento / 100.0;
  }

  /** The offer price of the computed discount is the offer price typed. */
  lemma OfferOfDiscount(base: real, oferta: real)
    requires CalcularDescuento(base, oferta).Some?
    ensures CalcularPrecioOferta(base, CalcularDescuento(base, oferta).value) == Some(oferta)
  {
    var q := (base - oferta) / base;
    var d := q * 100.0;
    assert d / 100.0 == q;
    assert base * q == base - oferta;
    assert base * (1.0 - q) == base - base * q;
  }

  /** A text field of the form, with the number `parseFloat` reads from it
      taken as given (`None` for `NaN`). `Fixed(v)` is the text
      `v.toFixed(2)` written by the auto-completion, and `NaNText` the text
      `"NaN"` it writes when the discount does not parse. */
  datatype FieldText = Typed(raw: string, value: Option<real>) | Fixed(v: real) | NaNText

  const Blank := Typed("", None)

  /** `parseFloat` of the field. */
  function Parsed(f: FieldText): Option<real> {
    match f
    case Typed(_, v) => v
    case Fixed(v) => Some(v)
    case NaNText => None
  }

  /** The field's truthiness: a non-empty text. */
  predicate IsFilled(f: FieldText) {
    !(f.Typed? && f.raw == "")
  }

  function OptionText(r: Option<real>): FieldText {
    if r.Some? then Fixed(r.value) else Blank
  }

  /** `calcularPrecioOferta(precio, parseFloat(descuento))` when the discount
      may be `NaN`: with a positive base it yields `"NaN"`. */
  function OfertaText(base: real, descuento: Option<real>): (r: FieldText)
    ensures descuento.Some? ==> r == OptionText(CalcularPrecioOferta(base, descuento.value))
    ensures descuento.None? ==> (r == Blank <==> base <= 0.0)
  {
    if descuento.Some? then OptionText(CalcularPrecioOferta(base, descuento.value))
    else if base <= 0.0 then Blank
    else NaNText
  }

  /** The three price fields of the product form. */
  datatype PriceFields = PriceFields(precio: FieldText, descuento: FieldText, oferta: FieldText)

  // ---------------------------------------------------------------- filter and pages

  /** The four product filters; `"all"` when unused. */
  datatype ProductFilters = ProductFilters(search: string, categoria: string, marca: string, estado: string)

  /** `x?.toLowerCase() || ""`. */
  function LowerOrEmpty(o: JsOpt<string>): string {
    if o.Val? then ToLower(o.v) else ""
  }

  /** The text search over the six fields; `priceText` is `Number#toString`. */
  predicate MatchesSearch(p: Producto, term: string, priceText: real -> string) {
    Includes(ToLower(p.descripcion), term) || Includes(LowerOrEmpty(p.descripcionDetallada), term)
    || Includes(LowerOrEmpty(p.categoriaNombre), term) || Includes(LowerOrEmpty(p.marcaNombre), term)
    || Includes(priceText(p.precio), term) || Includes(LowerOrEmpty(p.codigo), term)
  }

  /** `"sin_categoria"` keeps the uncategorised products, any other value the products of that category. */
  predicate MatchesCategoria(p: Producto, c: string) {
    if c == "sin_categoria" then !TruthyNat(p.categoria) else p.categoria.Val? && NatToString(p.categoria.v) == c
  }

  predicate MatchesMarca(p: Producto, m: string) {
    p.marca.Val? && NatToString(p.marca.v) == m
  }

  /** `producto.activo === (estado === "activo")`: a missing flag matches neither state. */
  predicate MatchesEstado(p: Producto, e: string) {
    p.activo == Val(e == "activo")
  }

  /** What the whole filter keeps. */
  predicate Keeps(p: Producto, f: ProductFilters, priceText: real -> string) {
    && (Trim(f.search) == "" || MatchesSearch(p, Trim(ToLower(f.search)), priceText))
    && (f.categoria == "all" || MatchesCategoria(p, f.categoria))
    && (f.marca == "all" || MatchesMarca(p, f.marca))
    && (f.estado == "all" || MatchesEstado(p, f.estado))
  }

  function SearchStage(ps: seq<Producto>, f: ProductFilters, priceText: real -> string): seq<Producto> {
    if Trim(f.search) != "" then Filter(ps, (p: Producto) => MatchesSearch(p, Trim(ToLower(f.search)), priceText))
    else ps
  }

  function CategoriaStage(ps: seq<Producto>, f: ProductFilters): seq<Producto> {
    if f.categoria == "all" then ps else Filter(ps, (p: Producto) => MatchesCategoria(p, f.categoria))
  }

  function MarcaStage(ps: seq<Producto>, f: ProductFilters): seq<Producto> {
    if f.marca == "all" then ps else Filter(ps, (p: Producto) => MatchesMarca(p, f.marca))
  }

  function EstadoStage(ps: seq<Producto>, f: ProductFilters): seq<Producto> {
    if f.estado == "all" then ps else Filter(ps, (p: Producto) => MatchesEstado(p, f.estado))
  }

  /** `filteredProductos`: the four filters applied one after another. */
  function FilteredProductos(ps: seq<Producto>, f: ProductFilters, priceText: real -> string): (r: seq<Producto>)
    ensures forall p :: p in r <==> p in ps && Keeps(p, f, priceText)
  {
    EstadoStage(MarcaStage(CategoriaStage(SearchStage(ps, f, priceText), f), f), f)
  }

  lemma StageIsSubseq(xs: seq<Producto>, ys: seq<Producto>, active: bool, p: Producto -> bool)
    requires ys == if active then Filter(xs, p) else xs
    ensures IsSubseq(ys, xs)
  {
    if active {
      FilterIsSubseq(xs, p);
    } else {
      IsSubseqRefl(xs);
    }
  }

  /** The filter keeps the list order: its result is a subsequence of the products. */
  lemma FilteredIsSubseq(ps: seq<Producto>, f: ProductFilters, priceText: real -> string)
    ensures IsSubseq(FilteredProductos(ps, f, priceText), ps)
  {
    var s1 := SearchStage(ps, f, priceText);
    var s2 := CategoriaStage(s1, f);
    var s3 := MarcaStage(s2, f);
    var s4 := EstadoStage(s3, f);
    StageIsSubseq(ps, s1, Trim(f.search) != "", (p: Producto) => MatchesSearch(p, Trim(ToLower(f.search)), priceText));
    StageIsSubseq(s1, s2, f.categoria != "all", (p: Producto) => MatchesCategoria(p, f.categoria));
    StageIsSubseq(s2, s3, f.marca != "all", (p: Producto) => MatchesMarca(p, f.marca));
    StageIsSubseq(s3, s4, f.estado != "all", (p: Producto) => MatchesEstado(p, f.estado));
    IsSubseqTrans(s2, s1, ps);
    IsSubseqTrans(s3, s2, ps);
    IsSubseqTrans(s4, s3, ps);
  }

  /** A blank search term (spaces only) filters nothing by text. */
  lemma BlankSearchFiltersNothing(ps: seq<Producto>, f: ProductFilters, priceText: real -> string)
    requires Trim(f.search) == ""
    ensures FilteredProductos(ps, f, priceText) == FilteredProductos(ps, f.(search := ""), priceText)
    ensures f.categoria == "all" && f.marca == "all" && f.estado == "all" ==> FilteredProductos(ps, f, priceText) == ps
  {
  }

  /** `"sin_categoria"` alone keeps exactly the products without a category, in order. */
  lemma SinCategoriaKeepsUncategorised(ps: seq<Producto>, priceText: real -> string)
    ensures FilteredProductos(ps, ProductFilters("", "sin_categoria", "all", "all"), priceText)
         == Filter(ps, (p: Producto) => !TruthyNat(p.categoria))
  {
    var f := ProductFilters("", "sin_categoria", "all", "all");
    FilterCongruent(ps, (p: Producto) => MatchesCategoria(p, f.categoria), (p: Producto) => !TruthyNat(p.categoria));
  }

  const ProductsPerPage: nat := 15

  /** `currentProductos`: page `page` of the filtered list, 15 per page. */
  function CurrentProductos(xs: seq<Producto>, page: int): (r: seq<Producto>)
    ensures |r| <= ProductsPerPage
    ensures 1 <= page && (page - 1) * ProductsPerPage <= |xs| ==>
      r == xs[(page - 1) * ProductsPerPage..if page * ProductsPerPage <= |xs| then page * ProductsPerPage else |xs|]
  {
    Page(xs, page, ProductsPerPage)
  }

  /** Every filtered product is shown on a page within `totalPages`: the
      product at position `i` on page `i / 15 + 1`, at offset `i % 15`. */
  lemma EveryProductOnAPage(xs: seq<Producto>, i: nat)
    requires i < |xs|
    ensures 1 <= i / ProductsPerPage + 1 <= TotalPages(|xs|, ProductsPerPage)
    ensures var p := CurrentProductos(xs, i / ProductsPerPage + 1);
      i % ProductsPerPage < |p| && p[i % ProductsPerPage] == xs[i]
  {
    PageOfIndex(xs, ProductsPerPage, i);
  }

  /** An entry of the page-number strip: a page or the `'...'` gap. */
  datatype PageItem = PageNum(n: int) | Dots

  /** The pages `a..b`, none when `b < a`. */
  function Range(a: int, b: int): (r: seq<PageItem>)
    ensures |r| == if b < a then 0 else b - a + 1
    ensures forall k :: 0 <= k < |r| ==> r[k] == PageNum(a + k)
  {
    if b < a then [] else seq(b - a + 1, k requires 0 <= k < b - a + 1 => PageNum(a + k))
  }

  /** The strip `getPageNumbers` returns, at most five pages around the current one. */
  function PageNumbers(total: nat, current: int): seq<PageItem> {
    if total <= 5 then Range(1, total)
    else if current <= 3 then Range(1, 4) + [Dots, PageNum(total)]
    else if current >= total - 2 then [PageNum(1), Dots] + Range(total - 3, total)
    else [PageNum(1), Dots] + Range(current - 1, current + 1) + [Dots, PageNum(total)]
  }

  /** The page numbers of the strip rise strictly from left to right. */
  ghost predicate Rising(s: seq<PageItem>) {
    forall i, j :: 0 <= i < j < |s| && s[i].PageNum? && s[j].PageNum? ==> s[i].n < s[j].n
  }

  /** Up to five pages, the strip lists them all. */
  lemma FewPagesAllShown(total: nat, current: int)
    requires total <= 5
    ensures |PageNumbers(total, current)| == total
    ensures forall k :: 0 <= k < total ==> PageNumbers(total, current)[k] == PageNum(k + 1)
  {
  }

  /** Beyond five, the strip starts at 1, ends at the last page, has six or
      seven entries, rises strictly, and shows the current page. */
  lemma ManyPagesStrip(total: nat, current: int)
    requires total > 5
    ensures var s := PageNumbers(total, current);
      && s[0] == PageNum(1) && s[|s| - 1] == PageNum(total)
      && (|s| == 6 || |s| == 7)
      && Rising(s)
      && (1 <= current <= total ==> PageNum(current) in s)
  {
    var s := PageNumbers(total, current);
    if current <= 3 {
      if 1 <= current {
        assert s[current - 1] == PageNum(current);
      }
    } else if current >= total - 2 {
      if current <= total {
        assert s[current - total + 5] == PageNum(current);
      }
    } else {
      assert s[3] == PageNum(current);
    }
  }

  /** A `for` loop that pushes the pages `a..b`. */
  method PushRange(pages: seq<PageItem>, a: int, b: int) returns (r: seq<PageItem>)
    ensures r == pages + Range(a, b)
  {
    r := pages;
    var i := a;
    while i <= b
      invariant a <= i <= if b < a then a else b + 1
      invariant r == pages + Range(a, i - 1)
    {
      assert Range(a, i) == Range(a, i - 1) + [PageNum(i)];
      r := r + [PageNum(i)];
      i := i + 1;
    }
  }

  /** `getPageNumbers`. */
  method GetPageNumbers(total: nat, current: int) returns (pages: seq<PageItem>)
    ensures pages == PageNumbers(total, current)
  {
    pages := [];
    if total <= 5 {
      pages := PushRange(pages, 1, total);
    } else if current <= 3 {
      pages := PushRange(pages, 1, 4);
      pages := pages + [Dots];
      pages := pages + [PageNum(total)];
    } else if current >= total - 2 {
      pages := pages + [PageNum(1)];
      pages := pages + [Dots];
      pages := PushRange(pages, total - 3, total);
    } else {
      pages := pages + [PageNum(1)];
      pages := pages + [Dots];
      pages := PushRange(pages, current - 1, current + 1);
      pages := pages + [Dots];
      pages := pages + [PageNum(total)];
    }
  }

  // ---------------------------------------------------------------- images

  const MaxImages: nat := 5
  const MaxFileSize: nat := 5 * 1024 * 1024

  /** The column `imagen_k` (`k` from 1) the form writes: the `k`-th image when
      present and not blank. */
  function ImageSlot(imagenes: seq<string>, k: nat): (r: JsOpt<string>)
    ensures r.Val? <==> 1 <= k <= |imagenes| && imagenes[k - 1] != "" && Trim(imagenes[k - 1]) != ""
    ensures r.Val? ==> r.v == imagenes[k - 1]
    ensures !r.Null?
  {
    if 1 <= k <= |imagenes| && imagenes[k - 1] != "" && Trim(imagenes[k - 1]) != "" then Val(imagenes[k - 1])
    else Undefined
  }

  /** The five image columns of a product. */
  function Columns(p: Producto): seq<JsOpt<string>> {
    [p.imagen, p.imagen2, p.imagen3, p.imagen4, p.imagen5]
  }

  /** `[imagen, ..., imagen_5].filter(Boolean)`: the product's images, as the edit form loads them. */
  function ProductImages(p: Producto): (r: seq<string>)
    ensures |r| <= MaxImages
    ensures forall s :: s in r <==> s != "" && Val(s) in Columns(p)
  {
    FilterTruthy(Columns(p))
  }

  function FilterTruthy(cs: seq<JsOpt<string>>): (r: seq<string>)
    ensures |r| <= |cs|
    ensures forall s :: s in r <==> s != "" && Val(s) in cs
  {
    if cs == [] then []
    else
      assert cs == [cs[0]] + cs[1..];
      (if TruthyString(cs[0]) then [cs[0].v] else []) + FilterTruthy(cs[1..])
  }

  /** The `Val` columns of non-empty images, then empty columns, load back as the images. */
  lemma {:induction false} FilterTruthyOfSlots(xs: seq<string>, extra: nat)
    requires forall k :: 0 <= k < |xs| ==> xs[k] != ""
    ensures FilterTruthy(seq(|xs|, k requires 0 <= k < |xs| => Val(xs[k])) + seq(extra, k => Undefined)) == xs
    decreases |xs| + extra
  {
    var cs := seq(|xs|, k requires 0 <= k < |xs| => Val(xs[k])) + seq(extra, k => Undefined);
    if xs != [] {
      assert cs[1..] == seq(|xs[1..]|, k requires 0 <= k < |xs[1..]| => Val(xs[1..][k])) + seq(extra, k => Undefined);
      FilterTruthyOfSlots(xs[1..], extra);
    } else if extra > 0 {
      assert cs[1..] == seq(|xs|, k requires 0 <= k < |xs| => Val(xs[k])) + seq(extra - 1, k => Undefined);
      FilterTruthyOfSlots(xs, extra - 1);
    }
  }

  /** The product a saved form writes, as far as the image columns go. */
  function WithImages(p: Producto, imagenes: seq<string>): Producto {
    p.(imagen := ImageSlot(imagenes, 1), imagen2 := ImageSlot(imagenes, 2), imagen3 := ImageSlot(imagenes, 3),
       imagen4 := ImageSlot(imagenes, 4), imagen5 := ImageSlot(imagenes, 5))
  }

  /** Saving up to five non-blank images and editing the product again loads
      the same images, in the same order. */
  lemma ImagesRoundTrip(p: Producto, imagenes: seq<string>)
    requires |imagenes| <= MaxImages && forall k :: 0 <= k < |imagenes| ==> Trim(imagenes[k]) != ""
    ensures ProductImages(WithImages(p, imagenes)) == imagenes
  {
    forall k | 0 <= k < |imagenes| ensures imagenes[k] != "" {
      if imagenes[k] == "" {
        TrimOfEmpty();
      }
    }
    var n := |imagenes|;
    ColumnsAreSlots(p, imagenes);
    SlotsOfImages(imagenes);
    FilterTruthyOfSlots(imagenes, MaxImages - n);
  }

  /** The five slots a form's images fill. */
  function Slots(imagenes: seq<string>): seq<JsOpt<string>> {
    seq(MaxImages, k requires 0 <= k < MaxImages => ImageSlot(imagenes, k + 1))
  }

  lemma ColumnsAreSlots(p: Producto, imagenes: seq<string>)
    ensures Columns(WithImages(p, imagenes)) == Slots(imagenes)
  {
    var q := WithImages(p, imagenes);
    assert q.imagen == ImageSlot(imagenes, 1) && q.imagen2 == ImageSlot(imagenes, 2) && q.imagen3 == ImageSlot(imagenes, 3);
    assert q.imagen4 == ImageSlot(imagenes, 4) && q.imagen5 == ImageSlot(imagenes, 5);
    var cs := [ImageSlot(imagenes, 1), ImageSlot(imagenes, 2), ImageSlot(imagenes, 3), ImageSlot(imagenes, 4), ImageSlot(imagenes, 5)];
    assert Columns(q) == cs;
    forall k | 0 <= k < MaxImages ensures cs[k] == Slots(imagenes)[k] {
      if k == 0 {
      } else if k == 1 {
      } else if k == 2 {
      } else if k == 3 {
      }
    }
  }

  lemma SlotsOfImages(imagenes: seq<string>)
    requires |imagenes| <= MaxImages && forall k :: 0 <= k < |imagenes| ==> imagenes[k] != "" && Trim(imagenes[k]) != ""
    ensures Slots(imagenes)
         == seq(|imagenes|, k requires 0 <= k < |imagenes| => Val(imagenes[k])) + seq(MaxImages - |imagenes|, k => Undefined)
  {
    var n := |imagenes|;
    var slots := seq(n, k requires 0 <= k < n => Val(imagenes[k])) + seq(MaxImages - n, k => Undefined);
    forall k | 0 <= k < MaxImages ensures Slots(imagenes)[k] == slots[k] {
      SlotAt(imagenes, k + 1);
    }
  }

  lemma SlotAt(imagenes: seq<string>, k: nat)
    requires 1 <= k <= MaxImages && forall j :: 0 <= j < |imagenes| ==> imagenes[j] != "" && Trim(imagenes[j]) != ""
    ensures ImageSlot(imagenes, k) == if k <= |imagenes| then Val(imagenes[k - 1]) else Undefined
  {
  }

  /** The stored images a save removes from storage: those no longer in the form. */
  function ImagesToRemove(original: seq<string>, imagenes: seq<string>): (r: seq<string>)
    ensures forall s :: s in r <==> s in original && s !in imagenes
  {
    Filter(original, (s: string) => s !in imagenes)
  }

  /** `imagenes.filter((_, i) => i !== index)`. */
  function RemoveIndex(xs: seq<string>, index: int): (r: seq<string>)
    ensures 0 <= index < |xs| ==> |r| == |xs| - 1 && r == xs[..index] + xs[index + 1..]
    ensures !(0 <= index < |xs|) ==> r == xs
  {
    if 0 <= index < |xs| then xs[..index] + xs[index + 1..] else xs
  }

  /** The index after a removal, for a list now `n` long. */
  function AdjustIndex(index: int, n: nat): (r: int)
    ensures 0 <= index ==> 0 <= r && (r < n || r == 0)
    ensures 0 <= index < n ==> r == index
  {
    if index >= n && n > 0 then n - 1
    else if n == 0 then 0
    else index
  }

  /** The previous image of `n`, wrapping from the first to the last. */
  function PrevIndex(index: int, n: nat): (r: int)
    ensures 0 <= index < n ==> r == (index + n - 1) % n
  {
    if index == 0 then n - 1 else index - 1
  }

  /** The next image of `n`, wrapping from the last to the first. */
  function NextIndex(index: int, n: nat): (r: int)
    ensures 0 <= index < n ==> r == (index + 1) % n
  {
    if index == n - 1 then 0 else index + 1
  }

  /** Going forward then back shows the same image again. */
  lemma PrevNextInverse(index: int, n: nat)
    requires 0 <= index < n
    ensures PrevIndex(NextIndex(index, n), n) == index && NextIndex(PrevIndex(index, n), n) == index
  {
  }

  /** A dropped or chosen file: whether its type is an image, and its size in bytes. */
  datatype FileInfo = FileInfo(isImage: bool, size: nat)

  /** The files an upload takes: at most `5 - count`. */
  function FilesToUpload(count: nat, files: seq<FileInfo>): (r: seq<FileInfo>)
    ensures count < MaxImages ==> |r| == if |files| <= MaxImages - count then |files| else MaxImages - count
    ensures count >= MaxImages ==> r == []
    ensures r == files[..|r|]
  {
    if count >= MaxImages then [] else Slice(files, 0, MaxImages - count)
  }

  /** The images after an upload of `files`; the `k`-th upload fails when
      `faults` says so, and on success its public URL is `urls(k)`. Any
      rejected or failed file aborts the whole upload. */
  function AfterUpload(imagenes: seq<string>, files: seq<FileInfo>, faults: seq<bool>, urls: nat -> string)
    : seq<string>
  {
    var take := FilesToUpload(|imagenes|, files);
    if files == [] || |imagenes| >= MaxImages then imagenes
    else if exists k :: 0 <= k < |take| && (!take[k].isImage || take[k].size > MaxFileSize || FaultAt(faults, k))
    then imagenes
    else imagenes + seq(|take|, k requires 0 <= k < |take| => urls(k))
  }

  /** An upload never takes a product beyond five images, and it only ever appends. */
  lemma UploadKeepsAtMostFive(imagenes: seq<string>, files: seq<FileInfo>, faults: seq<bool>, urls: nat -> string)
    ensures var r := AfterUpload(imagenes, files, faults, urls);
      r[..|imagenes|] == imagenes
      && (|imagenes| <= MaxImages ==> |r| <= MaxImages)
      && (|imagenes| > MaxImages ==> r == imagenes)
  {
  }

  // ---------------------------------------------------------------- paths and colours

  /** `extractFilePathFromUrl`, given the URL's path (`None` when `new URL`
      throws): the part after the `imagenes` segment when two segments follow
      it, else `productos/` and the last segment. */
  function ExtractFilePath(url: string, pathname: Option<string>): (r: string)
  {
    if pathname.Some? then
      var parts := Split(pathname.value, '/');
      match FirstIndex(parts, (part: string) => part == "imagenes")
      case Some(k) =>
        if k + 2 < |parts| then Join(parts[k + 1..], '/') else "productos/" + parts[|parts| - 1]
      case None => "productos/" + parts[|parts| - 1]
    else
      var parts := Split(url, '/');
      "productos/" + parts[|parts| - 1]
  }

  /** A storage URL path `.../imagenes/<dir>/<file>` gives back `<dir>/<file>`
      (and any deeper path after `imagenes`). */
  lemma ExtractFromStoragePath(url: string, before: seq<string>, after: seq<string>)
    requires |after| >= 2 && "imagenes" !in before
    requires forall k :: 0 <= k < |before| ==> '/' !in before[k]
    requires forall k :: 0 <= k < |after| ==> '/' !in after[k]
    ensures ExtractFilePath(url, Some(Join(before + ["imagenes"] + after, '/'))) == Join(after, '/')
  {
    var parts := before + ["imagenes"] + after;
    SplitOfStoragePath(before, after);
    FirstSegmentAt(before, after);
    assert parts[|before| + 1..] == after;
  }

  lemma SplitOfStoragePath(before: seq<string>, after: seq<string>)
    requires forall k :: 0 <= k < |before| ==> '/' !in before[k]
    requires forall k :: 0 <= k < |after| ==> '/' !in after[k]
    ensures Split(Join(before + ["imagenes"] + after, '/'), '/') == before + ["imagenes"] + after
  {
    var parts := before + ["imagenes"] + after;
    forall k | 0 <= k < |parts| ensures '/' !in parts[k] {
      if k < |before| {
        assert parts[k] == before[k];
      } else if k > |before| {
        assert parts[k] == after[k - |before| - 1];
      }
    }
    SplitJoin(parts, '/');
  }

  lemma FirstSegmentAt(before: seq<string>, after: seq<string>)
    requires "imagenes" !in before
    ensures FirstIndex(before + ["imagenes"] + after, (part: string) => part == "imagenes") == Some(|before|)
  {
    var parts := before + ["imagenes"] + after;
    assert parts[|before|] == "imagenes";
    forall k | 0 <= k < |before| ensures parts[k] != "imagenes" {
      assert parts[k] == before[k];
    }
  }

  /** Without an `imagenes` segment, the path falls back to `productos/` and its last segment. */
  lemma ExtractFallback(url: string, path: string)
    requires "imagenes" !in Split(path, '/')
    ensures ExtractFilePath(url, Some(path)) == "productos/" + Split(path, '/')[|Split(path, '/')| - 1]
  {
  }

  /** When the first `imagenes` segment is one of the last two, the path also
      falls back to `productos/` and its last segment: at most one segment
      follows it, which `imagenesIndex + 2 < length` rejects. */
  lemma ExtractShortTail(url: string, before: seq<string>, after: seq<string>)
    requires |after| < 2 && "imagenes" !in before
    requires forall k :: 0 <= k < |before| ==> '/' !in before[k]
    requires forall k :: 0 <= k < |after| ==> '/' !in after[k]
    ensures var parts := before + ["imagenes"] + after;
      ExtractFilePath(url, Some(Join(parts, '/'))) == "productos/" + parts[|parts| - 1]
  {
    SplitOfStoragePath(before, after);
    FirstSegmentAt(before, after);
  }

  /** The editor's colour names, by lower-case hex code. */
  const ColorNames: map<string, string> := map[
    "#000000" := "Negro", "#ffffff" := "Blanco", "#ff0000" := "Rojo", "#00ff00" := "Verde",
    "#0000ff" := "Azul", "#ffff00" := "Amarillo", "#ff00ff" := "Magenta", "#00ffff" := "Cian",
    "#808080" := "Gris", "#800000" := "Marr\U{00F3}n", "#008000" := "Verde Oscuro", "#000080" := "Azul Marino",
    "#800080" := "P\U{00FA}rpura", "#808000" := "Oliva", "#008080" := "Verde Azulado"]

  /** `getColorCode`: the colour's name, or else its code in upper case. */
  function GetColorCode(color: string): (r: string)
    ensures ToLower(color) in ColorNames ==> r == ColorNames[ToLower(color)]
    ensures ToLower(color) !in ColorNames ==> r == ToUpper(color)
  {
    if ToLower(color) in ColorNames then ColorNames[ToLower(color)] else ToUpper(color)
  }

  /** The name does not depend on the case the code is written in. */
  lemma ColorCodeIgnoresCase(color: string)
    ensures GetColorCode(ToLower(color)) == GetColorCode(color)
  {
    ToLowerIdempotent(color);
    UpperOfLower(color);
  }

  // ---------------------------------------------------------------- component

  /** The part of the products screen's state the logic above drives. */
  class ProductosScreen {
    var form: PriceFields
    var imagenes: seq<string>
    var currentImageIndex: int
    var currentPage: int

    constructor ()
      ensures form == PriceFields(Blank, Blank, Blank) && imagenes == [] && currentImageIndex == 0 && currentPage == 1
    {
      form := PriceFields(Blank, Blank, Blank);
      imagenes := [];
      currentImageIndex := 0;
      currentPage := 1;
    }

    /** `handlePrecioChange`: with a discount filled in and a number typed, the offer price follows. */
    method HandlePrecioChange(precio: FieldText)
      modifies this`form
      ensures IsFilled(old(form).descuento) && Parsed(precio).Some? ==>
        form == old(form).(precio := precio, oferta := OfertaText(Parsed(precio).value, Parsed(old(form).descuento)))
      ensures !(IsFilled(old(form).descuento) && Parsed(precio).Some?) ==> form == old(form).(precio := precio)
    {
      var next := form.(precio := precio);
      if IsFilled(form.descuento) && Parsed(precio).Some? {
        next := next.(oferta := OfertaText(Parsed(precio).value, Parsed(form.descuento)));
      }
      form := next;
    }

    /** `handleDescuentoChange`: the offer price is recomputed only for a
        parsed price and a parsed discount within [0, 100]. */
    method HandleDescuentoChange(descuento: FieldText)
      modifies this`form
      ensures var p, d := Parsed(old(form).precio), Parsed(descuento);
        p.Some? && d.Some? && 0.0 <= d.value <= 100.0 ==>
          form == old(form).(descuento := descuento, oferta := OptionText(CalcularPrecioOferta(p.value, d.value)))
      ensures var p, d := Parsed(old(form).precio), Parsed(descuento);
        !(p.Some? && d.Some? && 0.0 <= d.value <= 100.0) ==> form == old(form).(descuento := descuento)
    {
      var p, d := Parsed(form.precio), Parsed(descuento);
      if p.Some? && d.Some? && 0.0 <= d.value <= 100.0 {
        form := form.(descuento := descuento, oferta := OptionText(CalcularPrecioOferta(p.value, d.value)));
      } else {
        form := form.(descuento := descuento);
      }
    }

    /** `handlePrecioOfertaChange`: the discount is recomputed for a parsed
        price and a parsed, non-negative offer price. */
    method HandlePrecioOfertaChange(oferta: FieldText)
      modifies this`form
      ensures var p, o := Parsed(old(form).precio), Parsed(oferta);
        p.Some? && o.Some? && o.value >= 0.0 ==>
          form == old(form).(oferta := oferta, descuento := OptionText(CalcularDescuento(p.value, o.value)))
      ensures var p, o := Parsed(old(form).precio), Parsed(oferta);
        !(p.Some? && o.Some? && o.value >= 0.0) ==> form == old(form).(oferta := oferta)
    {
      var p, o := Parsed(form.precio), Parsed(oferta);
      if p.Some? && o.Some? && o.value >= 0.0 {
        form := form.(oferta := oferta, descuento := OptionText(CalcularDescuento(p.value, o.value)));
      } else {
        form := form.(oferta := oferta);
      }
    }

    /** Removing the image on show; the index stays on a valid image, or 0. */
    method RemoveCurrentImage()
      modifies this`imagenes, this`currentImageIndex
      ensures imagenes == RemoveIndex(old(imagenes), old(currentImageIndex))
      ensures currentImageIndex == AdjustIndex(old(currentImageIndex), |imagenes|)
      ensures 0 <= old(currentImageIndex) ==> 0 <= currentImageIndex && (currentImageIndex < |imagenes| || currentImageIndex == 0)
    {
      var next := RemoveIndex(imagenes, currentImageIndex);
      imagenes := next;
      if currentImageIndex >= |next| && |next| > 0 {
        currentImageIndex := |next| - 1;
      } else if |next| == 0 {
        currentImageIndex := 0;
      }
    }

    /** The left arrow, shown when there is more than one image. */
    method PrevImage()
      requires |imagenes| > 1
      modifies this`currentImageIndex
      ensures currentImageIndex == PrevIndex(old(currentImageIndex), |imagenes|)
    {
      currentImageIndex := if currentImageIndex == 0 then |imagenes| - 1 else currentImageIndex - 1;
    }

    /** The right arrow, shown when there is more than one image. */
    method NextImage()
      requires |imagenes| > 1
      modifies this`currentImageIndex
      ensures currentImageIndex == NextIndex(old(currentImageIndex), |imagenes|)
    {
      currentImageIndex := if currentImageIndex == |imagenes| - 1 then 0 else currentImageIndex + 1;
    }

    /** Dropping or choosing files. */
    method Upload(files: seq<FileInfo>, faults: seq<bool>, urls: nat -> string)
      modifies this`imagenes
      ensures imagenes == AfterUpload(old(imagenes), files, faults, urls)
    {
      if files == [] {
        return;
      }
      if MaxImages - |imagenes| <= 0 {
        return;
      }
      var take := Slice(files, 0, MaxImages - |imagenes|);
      var k := 0;
      while k < |take|
        invariant 0 <= k <= |take|
        invariant forall j :: 0 <= j < k ==> take[j].isImage && take[j].size <= MaxFileSize && !FaultAt(faults, j)
      {
        if !take[k].isImage || take[k].size > MaxFileSize || FaultAt(faults, k) {
          return;
        }
        k := k + 1;
      }
      imagenes := imagenes + seq(|take|, j requires 0 <= j < |take| => urls(j));
    }
  }
}
