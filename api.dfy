/** The request layer of src/services/api.ts: the query string of the book
    listings, the request `apiRequest` sends, how it turns a response into a
    value or an error, and the unwrapping of two list endpoints. */
module Api {
  import opened Wrappers
  import opened Text

  // ---------------------------------------------------------------------------
  // JSON values

  /** A parsed JSON value. Numbers are the integers the model covers. */
  datatype Json =
    | JNull
    | JBool(b: bool)
    | JNum(n: int)
    | JStr(s: string)
    | JArr(items: seq<Json>)
    | JObj(fields: map<string, Json>)

  /** JavaScript truthiness of a JSON value. Arrays and objects are always truthy. */
  predicate JsTruthy(v: Json) {
    match v
    case JNull => false
    case JBool(b) => b
    case JNum(n) => n != 0
    case JStr(s) => s != ""
    case JArr(_) => true
    case JObj(_) => true
  }

  /** `v?.[key]`: the member of an object; anything else has no such member. */
  function Member(v: Option<Json>, key: string): (r: Option<Json>)
    ensures r.Some? <==> v.Some? && v.value.JObj? && key in v.value.fields
    ensures r.Some? ==> r.value == v.value.fields[key]
  {
    if v.Some? && v.value.JObj? && key in v.value.fields then Some(v.value.fields[key]) else None
  }

  // ---------------------------------------------------------------------------
  // The query string of `getLibros` and `getLibrosPublicos`

  datatype LibroQueryParams = LibroQueryParams(
    categoria: Option<string>,
    busqueda: Option<string>,
    page: Option<int>,
    limit: Option<int>)

  /** A number parameter is truthy when present and not 0. */
  predicate NumTruthy(o: Option<int>) {
    o.Some? && o.value != 0
  }

  /** The `(name, value)` pairs appended, in order: categoria, busqueda, page,
      limit, each only when truthy. */
  function QueryPairs(params: Option<LibroQueryParams>): (r: seq<(string, string)>)
    ensures |r| <= 4
    ensures forall i :: 0 <= i < |r| ==> r[i].1 != ""
    ensures r == [] <==> params.None? || !(Truthy(params.value.categoria) || Truthy(params.value.busqueda) ||
                                          NumTruthy(params.value.page) || NumTruthy(params.value.limit))
  {
    if params.None? then []
    else
      var p := params.value;
      (if Truthy(p.categoria) then [("categoria", p.categoria.value)] else []) +
      (if Truthy(p.busqueda) then [("busqueda", p.busqueda.value)] else []) +
      (if NumTruthy(p.page) then [("page", IntToString(p.page.value))] else []) +
      (if NumTruthy(p.limit) then [("limit", IntToString(p.limit.value))] else [])
  }

  /** Each pair is named after one of the four parameters, and no name is
      appended twice. */
  lemma QueryPairsNames(params: Option<LibroQueryParams>)
    ensures var r := QueryPairs(params);
            && (forall i :: 0 <= i < |r| ==> r[i].0 in {"categoria", "busqueda", "page", "limit"})
            && (forall i, j :: 0 <= i < j < |r| ==> r[i].0 != r[j].0)
  {
  }

  /** The `URLSearchParams` built step by step as in `getLibros`. */
  method SearchParams(params: Option<LibroQueryParams>) returns (pairs: seq<(string, string)>)
    ensures pairs == QueryPairs(params)
  {
    pairs := [];
    if params.Some? {
      var p := params.value;
      if Truthy(p.categoria) { pairs := pairs + [("categoria", p.categoria.value)]; }
      if Truthy(p.busqueda) { pairs := pairs + [("busqueda", p.busqueda.value)]; }
      if NumTruthy(p.page) { pairs := pairs + [("page", IntToString(p.page.value))]; }
      if NumTruthy(p.limit) { pairs := pairs + [("limit", IntToString(p.limit.value))]; }
    }
  }

  /** `searchParams.get(name)`: the first value appended under `name`. */
  function ParamValue(pairs: seq<(string, string)>, name: string): (r: Option<string>)
    ensures r.Some? ==> (name, r.value) in pairs
    ensures r.None? <==> forall i :: 0 <= i < |pairs| ==> pairs[i].0 != name
  {
    if pairs == [] then None
    else if pairs[0].0 == name then Some(pairs[0].1)
    else ParamValue(pairs[1..], name)
  }

  /** `categoria` can be read back from the query exactly when it is truthy. */
  lemma ReadBackCategoria(p: LibroQueryParams)
    ensures ParamValue(QueryPairs(Some(p)), "categoria") == (if Truthy(p.categoria) then p.categoria else None)
  {
    var c: seq<(string, string)> := if Truthy(p.categoria) then [("categoria", p.categoria.value)] else [];
    var b: seq<(string, string)> := if Truthy(p.busqueda) then [("busqueda", p.busqueda.value)] else [];
    var g: seq<(string, string)> := if NumTruthy(p.page) then [("page", IntToString(p.page.value))] else [];
    var l: seq<(string, string)> := if NumTruthy(p.limit) then [("limit", IntToString(p.limit.value))] else [];
    assert QueryPairs(Some(p)) == c + (b + g + l);
    ParamValueAppend(c, b + g + l, "categoria");
    assert ParamValue(b + g + l, "categoria").None?;
  }

  /** `busqueda` can be read back from the query exactly when it is truthy. */
  lemma ReadBackBusqueda(p: LibroQueryParams)
    ensures ParamValue(QueryPairs(Some(p)), "busqueda") == (if Truthy(p.busqueda) then p.busqueda else None)
  {
    var c: seq<(string, string)> := if Truthy(p.categoria) then [("categoria", p.categoria.value)] else [];
    var b: seq<(string, string)> := if Truthy(p.busqueda) then [("busqueda", p.busqueda.value)] else [];
    var g: seq<(string, string)> := if NumTruthy(p.page) then [("page", IntToString(p.page.value))] else [];
    var l: seq<(string, string)> := if NumTruthy(p.limit) then [("limit", IntToString(p.limit.value))] else [];
    assert QueryPairs(Some(p)) == c + (b + (g + l));
    ParamValueAppend(c, b + (g + l), "busqueda");
    ParamValueAppend(b, g + l, "busqueda");
    assert ParamValue(g + l, "busqueda").None?;
  }

  /** `page` can be read back, as its decimal text, exactly when it is truthy. */
  lemma ReadBackPage(p: LibroQueryParams)
    ensures ParamValue(QueryPairs(Some(p)), "page") ==
            (if NumTruthy(p.page) then Some(IntToString(p.page.value)) else None)
  {
    var c: seq<(string, string)> := if Truthy(p.categoria) then [("categoria", p.categoria.value)] else [];
    var b: seq<(string, string)> := if Truthy(p.busqueda) then [("busqueda", p.busqueda.value)] else [];
    var g: seq<(string, string)> := if NumTruthy(p.page) then [("page", IntToString(p.page.value))] else [];
    var l: seq<(string, string)> := if NumTruthy(p.limit) then [("limit", IntToString(p.limit.value))] else [];
    assert QueryPairs(Some(p)) == (c + b) + (g + l);
    ParamValueAppend(c + b, g + l, "page");
    ParamValueAppend(g, l, "page");
  }

  /** `limit` can be read back, as its decimal text, exactly when it is truthy. */
  lemma ReadBackLimit(p: LibroQueryParams)
    ensures ParamValue(QueryPairs(Some(p)), "limit") ==
            (if NumTruthy(p.limit) then Some(IntToString(p.limit.value)) else None)
  {
    var c: seq<(string, string)> := if Truthy(p.categoria) then [("categoria", p.categoria.value)] else [];
    var b: seq<(string, string)> := if Truthy(p.busqueda) then [("busqueda", p.busqueda.value)] else [];
    var g: seq<(string, string)> := if NumTruthy(p.page) then [("page", IntToString(p.page.value))] else [];
    var l: seq<(string, string)> := if NumTruthy(p.limit) then [("limit", IntToString(p.limit.value))] else [];
    assert QueryPairs(Some(p)) == (c + b + g) + l;
    ParamValueAppend(c + b + g, l, "limit");
  }

  /** Looking a name up in a concatenation looks in the first part, then the second. */
  lemma {:induction false} ParamValueAppend(a: seq<(string, string)>, b: seq<(string, string)>, name: string)
    ensures ParamValue(a + b, name) == if ParamValue(a, name).Some? then ParamValue(a, name) else ParamValue(b, name)
  {
    if a != [] {
      assert (a + b)[1..] == a[1..] + b;
      ParamValueAppend(a[1..], b, name);
    } else {
      assert a + b == b;
    }
  }

  /** `searchParams.toString()`: `name=value` pairs joined by `&`, each part
      form-encoded by `enc`. */
  function RenderQuery(pairs: seq<(string, string)>, enc: string -> string): (r: string)
    ensures r == "" <==> pairs == []
  {
    if pairs == [] then ""
    else
      var head := enc(pairs[0].0) + "=" + enc(pairs[0].1);
      assert head[|enc(pairs[0].0)|] == '=';
      if |pairs| == 1 then head else head + "&" + RenderQuery(pairs[1..], enc)
  }

  const LibrosEndpoint := "/libros"
  const LibrosPublicosEndpoint := "/libros/publicos"

  /** The endpoint a listing requests: `getLibros` under `/libros`,
      `getLibrosPublicos` under `/libros/publicos`. */
  function ListingPath(prefix: string, params: Option<LibroQueryParams>, enc: string -> string): (r: string)
    ensures QueryPairs(params) == [] ==> r == prefix
    ensures QueryPairs(params) != [] ==> r == prefix + "?" + RenderQuery(QueryPairs(params), enc)
  {
    var q := RenderQuery(QueryPairs(params), enc);
    prefix + (if q != "" then "?" + q else "")
  }

  /** Without parameters, or with every parameter falsy (absent, '' or 0),
      the listing is requested with no '?'. */
  lemma FalsyParamsPlainPath(prefix: string, params: Option<LibroQueryParams>, enc: string -> string)
    requires params.Some? ==> !Truthy(params.value.categoria) && !Truthy(params.value.busqueda) &&
                              !NumTruthy(params.value.page) && !NumTruthy(params.value.limit)
    ensures ListingPath(prefix, params, enc) == prefix
  {
  }

  /** A '?' is present iff some parameter is truthy. */
  lemma QueryMarkIffTruthyParam(prefix: string, p: LibroQueryParams, enc: string -> string)
    ensures ListingPath(prefix, Some(p), enc) != prefix <==>
            Truthy(p.categoria) || Truthy(p.busqueda) || NumTruthy(p.page) || NumTruthy(p.limit)
  {
    if ListingPath(prefix, Some(p), enc) != prefix {
      assert QueryPairs(Some(p)) != [];
    }
  }

  /** Both listings carry the same query string after their own prefix. */
  lemma PublicListingSameQuery(params: Option<LibroQueryParams>, enc: string -> string)
    ensures var libros := ListingPath(LibrosEndpoint, params, enc);
            && IsPrefix(LibrosEndpoint, libros)
            && ListingPath(LibrosPublicosEndpoint, params, enc) == LibrosPublicosEndpoint + libros[|LibrosEndpoint|..]
  {
  }

  // ---------------------------------------------------------------------------
  // `apiRequest`

  const DefaultBaseUrl := "http://localhost:3001"

  /** `import.meta.env.VITE_API_URL || 'http://localhost:3001'`. */
  function BaseUrl(env: Option<string>): (r: string)
    ensures Truthy(env) ==> r == env.value
    ensures !Truthy(env) ==> r == DefaultBaseUrl
  {
    if Truthy(env) then env.value else DefaultBaseUrl
  }

  /** The `fetch` call: URL, HTTP method (`verb`), headers and the body (the JSON value
      that is stringified), if any. */
  datatype Request = Request(url: string, verb: string, headers: map<string, string>, body: Option<Json>)

  /** The request `apiRequest(endpoint, method, data)` sends, with `token`
      read from the storage key `token`. */
  method ApiRequestConfig(base: string, endpoint: string, verb: Option<string>, data: Option<Json>,
                          token: Option<string>) returns (r: Request)
    ensures r.url == base + endpoint
    ensures r.verb == (if verb.Some? then verb.value else "GET")
    ensures "Content-Type" in r.headers && r.headers["Content-Type"] == "application/json"
    ensures "Authorization" in r.headers <==> Truthy(token)
    ensures Truthy(token) ==> r.headers["Authorization"] == "Bearer " + token.value
    ensures r.headers.Keys <= {"Content-Type", "Authorization"}
    ensures r.body.Some? <==> data.Some? && JsTruthy(data.value)
    ensures r.body.Some? ==> r.body == data
  {
    var headers := map["Content-Type" := "application/json"];
    if token.Some? && token.value != "" {
      headers := headers["Authorization" := "Bearer " + token.value];
    }
    var m := if verb.Some? then verb.value else "GET";
    r := Request(base + endpoint, m, headers, None);
    if data.Some? && JsTruthy(data.value) {
      r := r.(body := data);
    }
  }

  /** A `fetch` response: whether it is OK, its status, and its body parsed as
      JSON (`None` when the body is not JSON). */
  datatype Response = Response(ok: bool, status: int, body: Option<Json>)

  /** What the call resolves to: a value, an `Error` built from `message`, or
      an exception raised by the runtime itself (reading `.message` of a
      `null` body, or an OK body that is not JSON). */
  datatype Outcome = Returned(value: Json) | Threw(message: Json) | Crashed

  const ConnectionError := "Error de conexión"

  /** How `apiRequest` turns a response into its result. */
  function HandleResponse(resp: Response): (r: Outcome)
    ensures resp.ok ==> r == (if resp.body.Some? then Returned(resp.body.value) else Crashed)
    ensures !resp.ok ==> !r.Returned?
    ensures !resp.ok && resp.body.None? ==> r == Threw(JStr(ConnectionError))
    ensures r.Threw? ==> JsTruthy(r.message)
  {
    if resp.ok then (if resp.body.Some? then Returned(resp.body.value) else Crashed)
    else if resp.body.None? then Threw(JStr(ConnectionError))
    else if resp.body.value.JNull? then Crashed
    else
      var m := Member(resp.body, "message");
      if m.Some? && JsTruthy(m.value) then Threw(m.value)
      else
        var text := "Error: " + IntToString(resp.status);
        assert text[0] == 'E';
        Threw(JStr(text))
  }

  /** A failed response whose body has no truthy `message` yields
      `Error: <status>`; a truthy message is passed on. */
  lemma ErrorMessageFallback(status: int, body: Json)
    requires !body.JNull?
    ensures var r := HandleResponse(Response(false, status, Some(body)));
            var m := Member(Some(body), "message");
            r == Threw(if m.Some? && JsTruthy(m.value) then m.value else JStr("Error: " + IntToString(status)))
  {
  }

  /** `res?.data?.<key> || []`: `getGeneros` reads `data.data`,
      `getEstanterias` reads `data.items`. */
  function ListMember(res: Option<Json>, key: string): (r: Json)
    ensures JsTruthy(r)
    ensures r == JArr([]) || Member(Member(res, "data"), key) == Some(r)
    ensures var v := Member(Member(res, "data"), key);
            v.Some? && JsTruthy(v.value) ==> r == v.value
  {
    var v := Member(Member(res, "data"), key);
    if v.Some? && JsTruthy(v.value) then v.value else JArr([])
  }

  /** The documented shape `{ data: { <key>: [...] } }` yields its list;
      a reply without the member, `null` or `undefined` yields []. */
  lemma ListMemberShapes(key: string, list: seq<Json>, other: map<string, Json>)
    requires key !in other
    ensures ListMember(Some(JObj(map["data" := JObj(map[key := JArr(list)])])), key) == JArr(list)
    ensures ListMember(Some(JObj(map["data" := JObj(other)])), key) == JArr([])
    ensures ListMember(None, key) == ListMember(Some(JNull), key) == JArr([])
  {
  }
}
