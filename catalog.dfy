/** The public catalogue of src/pages/Catalog.tsx: the book list it loads
    (from the backend for a signed-in user, sample data otherwise or on
    failure), and the search and category filter over it. The same search
    test, without the category, filters the landing page's list
    (src/components/LandingPage.tsx). */
module Catalog {
  import opened Wrappers
  import opened Text
  import Seqs
  import Api

  /** The fields of a book the page filters on. */
  datatype Libro = Libro(id: string, titulo: string, autor: string, categoria: string)

  datatype Categoria = Categoria(id: string, nombre: string)

  const Todas := "todas"

  const MockLibros: seq<Libro> := [
    Libro("1", "Cien años de soledad", "Gabriel García Márquez", "Literatura"),
    Libro("2", "Don Quijote de la Mancha", "Miguel de Cervantes", "Clásicos"),
    Libro("3", "El amor en los tiempos del cólera", "Gabriel García Márquez", "Romance"),
    Libro("4", "La Casa de los Espíritus", "Isabel Allende", "Literatura"),
    Libro("5", "El Principito", "Antoine de Saint-Exupéry", "Infantil")
  ]

  const MockCategorias: seq<Categoria> := [
    Categoria("1", "Literatura"),
    Categoria("2", "Clásicos"),
    Categoria("3", "Romance"),
    Categoria("4", "Infantil"),
    Categoria("5", "Ciencia")
  ]

  // ---------------------------------------------------------------------------
  // The filter

  /** The search term, lower-cased, occurs in the lower-cased title, author or
      category. */
  predicate CoincideBusqueda(l: Libro, busqueda: string)
    ensures CoincideBusqueda(l, busqueda) <==>
              HasIgnoringCase(l.titulo, busqueda) || HasIgnoringCase(l.autor, busqueda) ||
              HasIgnoringCase(l.categoria, busqueda)
  {
    ContainsIff(Lower(l.titulo), Lower(busqueda));
    ContainsIff(Lower(l.autor), Lower(busqueda));
    ContainsIff(Lower(l.categoria), Lower(busqueda));
    Contains(Lower(l.titulo), Lower(busqueda)) ||
    Contains(Lower(l.autor), Lower(busqueda)) ||
    Contains(Lower(l.categoria), Lower(busqueda))
  }

  /** The selection is 'todas' or exactly the book's category. */
  predicate CoincideCategoria(l: Libro, seleccion: string)
    ensures seleccion == Todas ==> CoincideCategoria(l, seleccion)
    ensures seleccion != Todas ==> (CoincideCategoria(l, seleccion) <==> l.categoria == seleccion)
  {
    seleccion == Todas || l.categoria == seleccion
  }

  /** `librosFiltrados`. */
  function LibrosFiltrados(libros: seq<Libro>, busqueda: string, seleccion: string): (r: seq<Libro>)
    ensures Seqs.SubseqOf(r, libros)
    ensures forall l :: l in r <==> l in libros && CoincideBusqueda(l, busqueda) && CoincideCategoria(l, seleccion)
    ensures forall l :: l in libros ==>
              multiset(r)[l] == if CoincideBusqueda(l, busqueda) && CoincideCategoria(l, seleccion)
                                then multiset(libros)[l] else 0
  {
    var keep := l => CoincideBusqueda(l, busqueda) && CoincideCategoria(l, seleccion);
    var r := Seqs.Filter(libros, keep);
    forall l
      ensures l in r <==> l in libros && CoincideBusqueda(l, busqueda) && CoincideCategoria(l, seleccion)
      ensures l in libros ==>
                multiset(r)[l] == if CoincideBusqueda(l, busqueda) && CoincideCategoria(l, seleccion)
                                  then multiset(libros)[l] else 0
    {
      assert keep(l) == (CoincideBusqueda(l, busqueda) && CoincideCategoria(l, seleccion));
    }
    r
  }

  /** The landing page's `librosFiltrados`: the search test alone. */
  function LandingFiltrados(libros: seq<Libro>, busqueda: string): (r: seq<Libro>)
    ensures Seqs.SubseqOf(r, libros)
    ensures forall l :: l in r <==> l in libros && CoincideBusqueda(l, busqueda)
    ensures forall l :: l in libros ==>
              multiset(r)[l] == if CoincideBusqueda(l, busqueda) then multiset(libros)[l] else 0
  {
    var keep := l => CoincideBusqueda(l, busqueda);
    var r := Seqs.Filter(libros, keep);
    forall l
      ensures l in r <==> l in libros && CoincideBusqueda(l, busqueda)
      ensures l in libros ==> multiset(r)[l] == if CoincideBusqueda(l, busqueda) then multiset(libros)[l] else 0
    {
      assert keep(l) == CoincideBusqueda(l, busqueda);
    }
    r
  }

  /** The search ignores the letter case of the term: searching for the
      lower-cased term finds the same books. */
  lemma SearchIgnoresCase(l: Libro, busqueda: string)
    ensures CoincideBusqueda(l, Lower(busqueda)) == CoincideBusqueda(l, busqueda)
  {
    LowerIdempotent(busqueda);
  }

  /** The empty search matches every book. */
  lemma EmptySearchMatches(l: Libro)
    ensures CoincideBusqueda(l, "")
  {
    assert Lower("") == "";
    ContainsEmpty(Lower(l.titulo));
  }

  /** An empty search with 'todas' keeps every book, in order. */
  lemma EmptySearchTodasKeepsAll(libros: seq<Libro>)
    ensures LibrosFiltrados(libros, "", Todas) == libros
  {
    forall l | l in libros ensures CoincideBusqueda(l, "") && CoincideCategoria(l, Todas) {
      EmptySearchMatches(l);
    }
    var keep := l => CoincideBusqueda(l, "") && CoincideCategoria(l, Todas);
    assert forall l :: l in libros ==> keep(l);
    assert Seqs.Filter(libros, keep) == libros;
  }

  /** With 'todas' selected the catalogue filters as the landing page does. */
  lemma TodasIsLandingFilter(libros: seq<Libro>, busqueda: string)
    ensures LibrosFiltrados(libros, busqueda, Todas) == LandingFiltrados(libros, busqueda)
  {
    var k1 := l => CoincideBusqueda(l, busqueda) && CoincideCategoria(l, Todas);
    var k2 := l => CoincideBusqueda(l, busqueda);
    assert forall l :: k1(l) == k2(l);
    FilterSamePredicate(libros, k1, k2);
  }

  lemma {:induction false} FilterSamePredicate<T>(xs: seq<T>, p: T -> bool, q: T -> bool)
    requires forall x :: p(x) == q(x)
    ensures Seqs.Filter(xs, p) == Seqs.Filter(xs, q)
    decreases |xs|
  {
    if xs != [] { FilterSamePredicate(xs[1..], p, q); }
  }

  /** The category test is exact: a book whose category differs from the
      selection in any way, letter case included, is dropped unless the
      selection is 'todas'. */
  lemma CategoryIsExact(libros: seq<Libro>, busqueda: string, seleccion: string, l: Libro)
    requires seleccion != Todas && l.categoria != seleccion
    ensures l !in LibrosFiltrados(libros, busqueda, seleccion)
  {
  }

  /** `{n} libro{s} encontrado{s}`: the plural 's' appears iff `n` is not 1. */
  function ResultLabel(n: nat): (r: string)
    ensures IsPrefix(NatToString(n), r)
    ensures r[|r| - 1] == 's' <==> n != 1
    ensures r == NatToString(n) + (if n != 1 then " libros encontrados" else " libro encontrado")
  {
    var s := if n != 1 then "s" else "";
    var r := NatToString(n) + " libro" + s + " encontrado" + s;
    assert r[..|NatToString(n)|] == NatToString(n);
    r
  }

  // ---------------------------------------------------------------------------
  // Loading

  /** What `response.libros || response` (or `.categorias`) meets: an object
      whose member is the list, the list itself (arrays are truthy),
      `null`/`undefined` (reading the member throws a `TypeError`), or any
      other value, such as an object without a truthy member, which is stored
      as it is. */
  datatype Payload<T> = Field(items: seq<T>) | Bare(items: seq<T>) | Nullish | NotAList

  /** The two backend calls: one of them rejected, or both answered. */
  datatype CatalogReply = Failed | Loaded(libros: Payload<Libro>, categorias: Payload<Categoria>)

  /** A state cell meant to hold a list: the list, or the non-list value a
      reply of another shape stored there. Rendering such a cell throws
      (`libros.filter`, `categorias.map`). */
  datatype Held<T> = List(items: seq<T>) | Other

  /** The value `response.libros || response` stores; `None` when reading the
      member throws. */
  function Unwrap<T>(p: Payload<T>): (r: Option<Held<T>>)
    ensures r.None? <==> p.Nullish?
    ensures r.Some? && r.value.List? <==> p.Field? || p.Bare?
    ensures r.Some? && r.value.List? ==> r.value.items == p.items
  {
    match p
    case Field(items) => Some(List(items))
    case Bare(items) => Some(List(items))
    case Nullish => None
    case NotAList => Some(Other)
  }

  /** `cargarDatos` ends in the sample data: signed out, a rejected call, or a
      `null`/`undefined` reply whose member access throws inside the `try`. */
  predicate FallsBack(authenticated: bool, reply: CatalogReply) {
    !authenticated || reply.Failed? || reply.libros.Nullish? || reply.categorias.Nullish?
  }

  /** The parameters `cargarDatos` passes to `getLibros`. */
  function QueryFor(busqueda: string, seleccion: string): (q: Api.LibroQueryParams)
    ensures q.busqueda == (if busqueda != "" then Some(busqueda) else None)
    ensures q.categoria == (if seleccion != Todas then Some(seleccion) else None)
    ensures q.page.None? && q.limit.None?
  {
    Api.LibroQueryParams(if seleccion != Todas then Some(seleccion) else None,
                         if busqueda != "" then Some(busqueda) else None, None, None)
  }

  /** With no search and 'todas', the request is the bare `/libros`. */
  lemma DefaultFiltersPlainRequest(enc: string -> string)
    ensures Api.ListingPath(Api.LibrosEndpoint, Some(QueryFor("", Todas)), enc) == "/libros"
  {
    Api.FalsyParamsPlainPath(Api.LibrosEndpoint, Some(QueryFor("", Todas)), enc);
  }

  /** A selected category is sent as the `categoria` parameter and a search
      as `busqueda`. */
  lemma FiltersReachTheRequest(busqueda: string, seleccion: string)
    ensures Api.ParamValue(Api.QueryPairs(Some(QueryFor(busqueda, seleccion))), "categoria") ==
            (if seleccion != Todas && seleccion != "" then Some(seleccion) else None)
    ensures Api.ParamValue(Api.QueryPairs(Some(QueryFor(busqueda, seleccion))), "busqueda") ==
            (if busqueda != "" then Some(busqueda) else None)
  {
    Api.ReadBackCategoria(QueryFor(busqueda, seleccion));
    Api.ReadBackBusqueda(QueryFor(busqueda, seleccion));
  }

  /** The page's state cells. */
  class CatalogPage {
    var libros: Held<Libro>
    var categorias: Held<Categoria>
    var busqueda: string
    var categoriaSeleccionada: string
    var loading: bool

    constructor ()
      ensures libros == List([]) && categorias == List([])
      ensures busqueda == "" && categoriaSeleccionada == Todas && loading
    {
      libros, categorias := List([]), List([]);
      busqueda, categoriaSeleccionada := "", Todas;
      loading := true;
    }

    /** The books shown, or `None` when `libros.filter` throws because the
        cell does not hold a list. */
    function Shown(): (r: Option<seq<Libro>>)
      reads this
      ensures r.Some? <==> libros.List?
      ensures r.Some? ==> Seqs.SubseqOf(r.value, libros.items) && multiset(r.value) <= multiset(libros.items)
      ensures r.Some? ==> r.value == LibrosFiltrados(libros.items, busqueda, categoriaSeleccionada)
    {
      if libros.List? then
        var r := LibrosFiltrados(libros.items, busqueda, categoriaSeleccionada);
        Seqs.SubseqOfMultiset(r, libros.items);
        Some(r)
      else None
    }

    /** `cargarDatosMock`. */
    method CargarDatosMock()
      modifies this`libros, this`categorias
      ensures libros == List(MockLibros) && categorias == List(MockCategorias)
    {
      libros := List(MockLibros);
      categorias := List(MockCategorias);
    }

    /** `cargarDatos`. `authenticated` is `isAuthenticated()`; `reply` is what
        the two calls give if they are made. `requested` is the parameters
        of the `getLibros` call, or `None` when no call is made. */
    method CargarDatos(authenticated: bool, reply: CatalogReply) returns (requested: Option<Api.LibroQueryParams>)
      modifies this`libros, this`categorias, this`loading
      ensures !loading
      ensures requested == (if authenticated then Some(QueryFor(busqueda, categoriaSeleccionada)) else None)
      ensures FallsBack(authenticated, reply) ==> libros == List(MockLibros) && categorias == List(MockCategorias)
      ensures !FallsBack(authenticated, reply) ==>
                Some(libros) == Unwrap(reply.libros) && Some(categorias) == Unwrap(reply.categorias)
      ensures !FallsBack(authenticated, reply) ==> (Shown().Some? <==> !reply.libros.NotAList?)
    {
      loading := true;
      requested := None;
      if authenticated {
        requested := Some(QueryFor(busqueda, categoriaSeleccionada));
        match reply {
          case Failed =>
            CargarDatosMock();
          case Loaded(lp, cp) =>
            var l := Unwrap(lp);
            if l.None? {
              CargarDatosMock();
            } else {
              libros := l.value;
              var c := Unwrap(cp);
              if c.None? {
                CargarDatosMock();
              } else {
                categorias := c.value;
              }
            }
        }
      } else {
        CargarDatosMock();
      }
      loading := false;
    }
  }
}
