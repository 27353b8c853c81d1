/** The web-appearance settings form: the record it starts from, the field
    edits and their text-to-number coercions, the reset, and the save through
    the data hook. The form is a record keyed by column name, as the settings
    row itself is. */
module ConfiguracionWeb {
  import opened Wrappers
  import opened Text
  import opened SupabaseData

  /** The form's keys: the columns of `configuracion_web` the screen edits. */
  const Fields: set<string> := {
    "logo_url", "logo_width", "logo_height",
    "appbar_height", "appbar_background_color", "appbar_text_color",
    "section_title_size", "section_subtitle_size", "section_text_size",
    "search_box_width", "search_box_height", "home_section_height",
    "mobile_logo_width", "mobile_logo_height", "mobile_appbar_height",
    "home_display_plan_id", "home_display_products_count",
    "home_display_category_filter", "home_display_brand_filter",
    "home_display_featured_only", "combos",
    "titulo_seccion_combos", "combos_subtitulo",
    "titulo_seccion_promos", "titulo_seccion_destacados",
    "banner_1", "banner_2", "banner_3"
  }

  /** Each field with the value it falls back to, in the order of the form. */
  const DefaultList: seq<(string, JsValue)> := [
    ("logo_url", VStr("")),
    ("logo_width", VNum(200)),
    ("logo_height", VNum(60)),
    ("appbar_height", VNum(64)),
    ("appbar_background_color", VStr("#ffffff")),
    ("appbar_text_color", VStr("#000000")),
    ("section_title_size", VNum(24)),
    ("section_subtitle_size", VNum(18)),
    ("section_text_size", VNum(16)),
    ("search_box_width", VNum(400)),
    ("search_box_height", VNum(40)),
    ("home_section_height", VNum(500)),
    ("mobile_logo_width", VNum(150)),
    ("mobile_logo_height", VNum(45)),
    ("mobile_appbar_height", VNum(56)),
    ("home_display_plan_id", VNull),
    ("home_display_products_count", VNum(12)),
    ("home_display_category_filter", VNull),
    ("home_display_brand_filter", VNull),
    ("home_display_featured_only", VBool(false)),
    ("combos", VBool(false)),
    ("titulo_seccion_combos", VStr("Combos Especiales")),
    ("combos_subtitulo", VStr("")),
    ("titulo_seccion_promos", VStr("Promociones")),
    ("titulo_seccion_destacados", VStr("Productos Destacados")),
    ("banner_1", VStr("")),
    ("banner_2", VStr("")),
    ("banner_3", VStr(""))
  ]

  /** The value paired with `f` in `list`; undefined when there is none. */
  function Lookup(list: seq<(string, JsValue)>, f: string): JsValue {
    if list == [] then VUndefined
    else if list[0].0 == f then list[0].1
    else Lookup(list[1..], f)
  }

  /** The value each field falls back to. */
  function DefaultOf(f: string): JsValue {
    Lookup(DefaultList, f)
  }

  /** The record holding every key of `keys` at its default. */
  function DefaultsOn(keys: set<string>): (r: Record)
    ensures r.Keys == keys
    ensures forall f :: f in r ==> r[f] == DefaultOf(f)
  {
    map f | f in keys :: DefaultOf(f)
  }

  /** The record the reset writes: every field at its default. */
  const Defaults: Record := DefaultsOn(Fields)

  /** `stored?.f || default`: a missing row or column reads as undefined. */
  function StoredOr(cfg: Option<Record>, f: string, d: JsValue): (r: JsValue)
    ensures cfg.Some? && f in cfg.value && cfg.value[f].Truthy() ==> r == cfg.value[f]
    ensures !(cfg.Some? && f in cfg.value && cfg.value[f].Truthy()) ==> r == d
  {
    if cfg.Some? && f in cfg.value && cfg.value[f].Truthy() then cfg.value[f] else d
  }

  /** Each key of `keys` taken from the stored settings when truthy there,
      and at its default otherwise. */
  function FormOn(cfg: Option<Record>, keys: set<string>): (r: Record)
    ensures r.Keys == keys
    ensures forall f :: f in r ==> r[f] == StoredOr(cfg, f, DefaultOf(f))
  {
    map f | f in keys :: StoredOr(cfg, f, DefaultOf(f))
  }

  /** The form the screen starts from, given the stored settings (None when
      there are none). */
  function InitialForm(cfg: Option<Record>): (r: Record)
    ensures r.Keys == Fields
    ensures forall f :: f in r ==> r[f] == StoredOr(cfg, f, DefaultOf(f))
  {
    FormOn(cfg, Fields)
  }

  /** A stored value is taken only when truthy: a stored 0, "", false or
      null gives the field's default. */
  lemma InitialFieldIff(cfg: Record, f: string)
    requires f in Fields
    ensures f in cfg && cfg[f].Truthy() ==> InitialForm(Some(cfg))[f] == cfg[f]
    ensures f !in cfg || !cfg[f].Truthy() ==> InitialForm(Some(cfg))[f] == DefaultOf(f)
    ensures f in cfg && cfg[f] == VNum(0) ==> InitialForm(Some(cfg))[f] == DefaultOf(f)
  {
  }

  lemma FormOnNull(keys: set<string>)
    ensures FormOn(None, keys) == DefaultsOn(keys)
  {
  }

  /** Starting from no stored settings gives the defaults. */
  lemma InitialOfNull()
    ensures InitialForm(None) == Defaults
  {
    FormOnNull(Fields);
  }

  lemma FormOnIdempotent(cfg: Option<Record>, keys: set<string>)
    ensures FormOn(Some(FormOn(cfg, keys)), keys) == FormOn(cfg, keys)
  {
    var r := FormOn(cfg, keys);
    forall f | f in keys
      ensures FormOn(Some(r), keys)[f] == r[f]
    {
      if !r[f].Truthy() {
        assert r[f] == DefaultOf(f);
      }
    }
  }

  /** Building the start form again from a start form changes nothing: a
      falsy field of it already holds its default. */
  lemma InitialIdempotent(cfg: Option<Record>)
    ensures InitialForm(Some(InitialForm(cfg))) == InitialForm(cfg)
  {
    FormOnIdempotent(cfg, Fields);
  }

  // --------------------------------------------------------------- inputs

  /** `handleInputChange(field, value)`: `{...prev, [field]: value}`. */
  function InputChanged(form: Record, field: string, value: JsValue): (r: Record)
    ensures r.Keys == form.Keys + {field}
    ensures r[field] == value
    ensures forall g :: g in form && g != field ==> r[g] == form[g]
  {
    form[field := value]
  }

  /** Changing a field and then putting its old value back restores the form. */
  lemma ChangeUndone(form: Record, field: string, value: JsValue)
    requires field in form
    ensures InputChanged(InputChanged(form, field, value), field, form[field]) == form
  {
    var r := InputChanged(InputChanged(form, field, value), field, form[field]);
    assert r.Keys == form.Keys;
    assert forall g :: g in r ==> r[g] == form[g];
  }

  /** `parseInt(text) || fallback`: NaN and 0 both give the fallback. */
  function IntOr(text: string, fallback: int): (r: int)
    ensures ParseInt(text).Some? && ParseInt(text).value != 0 ==> r == ParseInt(text).value
    ensures ParseInt(text).None? || ParseInt(text).value == 0 ==> r == fallback
  {
    var p := ParseInt(text);
    if p.Some? && p.value != 0 then p.value else fallback
  }

  /** The size inputs: `parseInt(value) || 0`. */
  function SizeInput(text: string): (r: JsValue)
    ensures r == VNum(IntOr(text, 0))
  {
    VNum(IntOr(text, 0))
  }

  /** The product-count input: `parseInt(value) || 12`; never 0. */
  function CountInput(text: string): (r: JsValue)
    ensures r.VNum? && r.n != 0
    ensures r == VNum(IntOr(text, 12))
  {
    VNum(IntOr(text, 12))
  }

  /** The plan, category and brand selects: "null" is null, anything else
      goes through `parseInt` (NaN included). */
  function SelectInput(value: string): (r: JsValue)
    ensures value == "null" ==> r == VNull
    ensures value != "null" && ParseInt(value).Some? ==> r == VNum(ParseInt(value).value)
    ensures value != "null" && ParseInt(value).None? ==> r == VNaN
  {
    if value == "null" then VNull
    else
      var p := ParseInt(value);
      if p.Some? then VNum(p.value) else VNaN
  }

  /** The size inputs read back the number they were typed from. */
  lemma SizeInputOfNumber(n: nat)
    ensures SizeInput(NatToString(n)) == VNum(n)
  {
    ParseIntNatToString(n);
  }

  /** The count input reads back any positive count; a typed 0 gives 12. */
  lemma CountInputOfNumber(n: nat)
    ensures CountInput(NatToString(n)) == VNum(if n == 0 then 12 else n)
  {
    ParseIntNatToString(n);
  }

  /** An emptied box parses to NaN: a size becomes 0 and the count 12. */
  lemma EmptyInputs(s: string)
    requires forall k :: 0 <= k < |s| ==> !IsDigit(s[k])
    ensures SizeInput(s) == VNum(0) && CountInput(s) == VNum(12)
  {
    ParseIntNoDigits(s);
  }

  /** A select offering an id gives that id back. */
  lemma SelectInputOfId(n: nat)
    ensures SelectInput(NatToString(n)) == VNum(n)
  {
    ParseIntNatToString(n);
    var s := NatToString(n);
    assert IsDigit(s[0]);
    assert s != "null";
  }

  const SizeFields: set<string> := {
    "logo_width", "logo_height", "appbar_height",
    "mobile_logo_width", "mobile_logo_height", "mobile_appbar_height"
  }

  const SelectFields: set<string> := {
    "home_display_plan_id", "home_display_category_filter", "home_display_brand_filter"
  }

  /** A record with exactly the form's keys. */
  ghost predicate HasFields(r: Record) {
    r.Keys == Fields
  }

  lemma InitialHasFields(cfg: Option<Record>)
    ensures HasFields(InitialForm(cfg))
  {
  }

  lemma ChangeKeepsFields(r: Record, field: string, value: JsValue)
    requires HasFields(r) && field in Fields
    ensures HasFields(InputChanged(r, field, value))
  {
  }

  // ---------------------------------------------------------------- screen

  /** The screen's state: the form and the saving flag. */
  class ConfigForm {
    var form: Record
    var isLoading: bool

    ghost predicate Valid()
      reads this
    {
      HasFields(form)
    }

    /** The form is built once from the settings the screen receives. */
    constructor (cfg: Option<Record>)
      ensures Valid()
      ensures form == InitialForm(cfg) && !isLoading
    {
      InitialHasFields(cfg);
      form := InitialForm(cfg);
      isLoading := false;
    }

    method HandleInputChange(field: string, value: JsValue)
      requires Valid() && field in Fields
      modifies this
      ensures Valid()
      ensures form == InputChanged(old(form), field, value)
      ensures isLoading == old(isLoading)
    {
      ChangeKeepsFields(form, field, value);
      form := InputChanged(form, field, value);
    }

    /** A size box edited. */
    method EditSize(field: string, text: string)
      requires Valid() && field in SizeFields
      modifies this
      ensures Valid()
      ensures form == InputChanged(old(form), field, SizeInput(text))
      ensures isLoading == old(isLoading)
    {
      HandleInputChange(field, SizeInput(text));
    }

    /** The product-count box edited. */
    method EditCount(text: string)
      requires Valid()
      modifies this
      ensures Valid()
      ensures form == InputChanged(old(form), "home_display_products_count", CountInput(text))
      ensures isLoading == old(isLoading)
    {
      HandleInputChange("home_display_products_count", CountInput(text));
    }

    /** A plan, category or brand chosen in a select. */
    method EditSelect(field: string, value: string)
      requires Valid() && field in SelectFields
      modifies this
      ensures Valid()
      ensures form == InputChanged(old(form), field, SelectInput(value))
      ensures isLoading == old(isLoading)
    {
      HandleInputChange(field, SelectInput(value));
    }

    /** `handleReset`: the defaults, whatever the form held. */
    method HandleReset()
      modifies this
      ensures Valid()
      ensures form == Defaults && form == InitialForm(None)
      ensures isLoading == old(isLoading)
    {
      InitialOfNull();
      InitialHasFields(None);
      form := Defaults;
    }

    /** `handleSubmit`: the whole form goes to the hook's settings upsert;
      the form itself is kept and the saving flag is off afterwards. Only the
      settings row of the store changes; the hook shows the saved row, or
      keeps its copy and reports the error when the upsert throws. */
    method HandleSubmit(hook: DataHook, selectFails: bool, writeFails: bool) returns (r: Option<Record>)
      modifies this, hook
      ensures (r, hook.store.web) == WebEffect(old(hook.store.web), old(form), selectFails, writeFails)
      ensures hook.store.(web := old(hook.store.web)) == old(hook.store)
      ensures r.Some? ==> hook.configuracionWeb == r && hook.error == old(hook.error)
      ensures r.None? ==> hook.configuracionWeb == old(hook.configuracionWeb) && hook.error == ErrorConfigWeb
      ensures hook.productos == old(hook.productos) && hook.planes == old(hook.planes)
      ensures hook.defaults == old(hook.defaults) && hook.configuracion == old(hook.configuracion)
      ensures form == old(form) && !isLoading
    {
      isLoading := true;
      r := hook.UpdateConfiguracionWeb(form, selectFails, writeFails);
      isLoading := false;
    }
  }
}
