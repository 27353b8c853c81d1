/** The administration shell: which section the URL hash selects, the title
    shown for it, and what the content area renders given the data hook's
    loading flag and error message. */
module Dashboard {
  import opened Wrappers
  import opened Text

  /** The content sections; `Resumen` is the summary shown for any other key. */
  datatype Section =
    | Productos | Combos | Lineas | Categorias | Marcas | Zonas | Planes
    | ProductosPlan | ProductosPlanes | Promos | Configuracion | Resumen

  /** The hash key that selects a section. */
  function KeyOf(s: Section): string {
    match s
    case Productos => "productos"
    case Combos => "combos"
    case Lineas => "lineas"
    case Categorias => "categorias"
    case Marcas => "marcas"
    case Zonas => "zonas"
    case Planes => "planes"
    case ProductosPlan => "productos-plan"
    case ProductosPlanes => "productos-planes"
    case Promos => "promos"
    case Configuracion => "configuracion"
    case Resumen => "dashboard"
  }

  /** The switch on the active key: the eleven known keys, anything else the summary. */
  function SectionOf(key: string): (s: Section)
    ensures s != Resumen ==> KeyOf(s) == key
  {
    if key == "productos" then Productos
    else if key == "combos" then Combos
    else if key == "lineas" then Lineas
    else if key == "categorias" then Categorias
    else if key == "marcas" then Marcas
    else if key == "zonas" then Zonas
    else if key == "planes" then Planes
    else if key == "productos-plan" then ProductosPlan
    else if key == "productos-planes" then ProductosPlanes
    else if key == "promos" then Promos
    else if key == "configuracion" then Configuracion
    else Resumen
  }

  /** Each section's key selects that section again. */
  lemma SectionOfKey(s: Section)
    ensures SectionOf(KeyOf(s)) == s
  {
  }

  /** A key is known exactly when it is the key of one of the eleven sections. */
  lemma KnownKeyIff(key: string)
    ensures SectionOf(key) != Resumen <==> exists s: Section :: s != Resumen && KeyOf(s) == key
  {
    if exists s: Section :: s != Resumen && KeyOf(s) == key {
      var s: Section :| s != Resumen && KeyOf(s) == key;
      SectionOfKey(s);
    }
  }

  /** The title of each section. */
  function TitleOf(s: Section): string {
    match s
    case Productos => "Productos"
    case Combos => "Combos"
    case Lineas => "L\U{00ED}neas"
    case Categorias => "Categor\U{00ED}as"
    case Marcas => "Marcas"
    case Zonas => "Zonas"
    case Planes => "Planes de Financiaci\U{00F3}n"
    case ProductosPlan => "Planes Especiales"
    case ProductosPlanes => "Productos por Planes"
    case Promos => "Promociones"
    case Configuracion => "Configuraci\U{00F3}n"
    case Resumen => "Dashboard"
  }

  /** `getSectionTitle`. */
  function SectionTitle(key: string): (t: string)
    ensures t == TitleOf(SectionOf(key))
    ensures SectionOf(key) == Resumen <==> t == "Dashboard"
  {
    TitleOf(SectionOf(key))
  }

  // ----------------------------------------------------------------- hash

  /** `s.replace("#", "")`: a string pattern replaces its first occurrence only. */
  function RemoveFirstHash(s: string): (r: string)
    ensures '#' !in s ==> r == s
    ensures '#' in s ==> |r| == |s| - 1
    ensures '#' in s ==> exists i :: 0 <= i < |s| && s[i] == '#' && '#' !in s[..i] && r == s[..i] + s[i + 1..]
  {
    match IndexOf(s, '#')
    case None => s
    case Some(i) => s[..i] + s[i + 1..]
  }

  /** A hash of the form `#key` gives back `key`, whatever `key` holds. */
  lemma RemoveLeadingHash(key: string)
    ensures RemoveFirstHash("#" + key) == key
  {
    assert ("#" + key)[0] == '#';
    assert IndexOf("#" + key, '#') == Some(0);
    assert ("#" + key)[1..] == key;
  }

  /** `handleHashChange`: the section changes only when the hash, without
      its first '#', is not empty. */
  function OnHashChange(hash: string, active: string): (r: string)
    ensures RemoveFirstHash(hash) != "" ==> r == RemoveFirstHash(hash)
    ensures RemoveFirstHash(hash) == "" ==> r == active
  {
    var h := RemoveFirstHash(hash);
    if h != "" then h else active
  }

  // --------------------------------------------------------------- render

  datatype View = LoadingView | ErrorView(message: string) | SectionView(section: Section)

  /** `renderContent`: loading wins over an error, an error over the section,
      and any unknown section renders the summary. The error message is
      empty when there is none. */
  function RenderContent(loading: bool, error: string, active: string): (v: View)
    ensures loading <==> v == LoadingView
    ensures !loading && error != "" <==> v == ErrorView(error)
    ensures !loading && error == "" ==> v == SectionView(SectionOf(active))
  {
    if loading then LoadingView
    else if error != "" then ErrorView(error)
    else SectionView(SectionOf(active))
  }

  /** The title and the content always agree on the section once the data
      has loaded without error. */
  lemma TitleMatchesContent(active: string)
    ensures RenderContent(false, "", active).section == SectionOf(active)
    ensures SectionTitle(active) == TitleOf(RenderContent(false, "", active).section)
  {
  }

  /** The shell's state: the active section key, "dashboard" at first. */
  class Shell {
    var activeSection: string

    constructor ()
      ensures activeSection == "dashboard"
    {
      activeSection := "dashboard";
    }

    /** The `hashchange` listener, also run once on load. */
    method HandleHashChange(hash: string)
      modifies this
      ensures activeSection == OnHashChange(hash, old(activeSection))
    {
      var h := RemoveFirstHash(hash);
      if h != "" {
        activeSection := h;
      }
    }

    function Title(): string
      reads this
    {
      SectionTitle(activeSection)
    }
  }
}
