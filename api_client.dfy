/**
 * The storefront's API client (`lib/api.ts`): the base URL, the request
 * headers, the decision between resolving with the reply and throwing, and
 * the query strings of the product listing and the admin order listing.
 *
 * The network call itself is not modelled: a reply is given as its `ok` flag
 * and the `error` field of its JSON body. The form encoding that
 * `URLSearchParams` applies to names and values is the parameter `encode`.
 */
module ApiClient {
  import opened Wrappers
  import Text

  const DEFAULT_API_BASE_URL := "http://localhost:3001/api"
  const REQUEST_FAILED := "Request failed"
  const CONTENT_TYPE := "Content-Type"
  const AUTHORIZATION := "Authorization"
  const JSON_TYPE := "application/json"

  /** `process.env.NEXT_PUBLIC_API_URL || 'http://localhost:3001/api'`. */
  function BaseUrl(configured: Option<string>): (r: string)
    ensures Truthy(configured) ==> r == configured.value
    ensures !Truthy(configured) ==> r == DEFAULT_API_BASE_URL
    ensures r != ""
  {
    if Truthy(configured) then configured.value else DEFAULT_API_BASE_URL
  }

  /** The chosen base url is a fixed point: configuring it explicitly changes nothing. */
  lemma BaseUrlStable(configured: Option<string>)
    ensures BaseUrl(Some(BaseUrl(configured))) == BaseUrl(configured)
    ensures BaseUrl(Some("")) == BaseUrl(None)
  {
  }

  /**
   * The headers of a request: the JSON content type, then `Authorization:
   * Bearer <token>` when a token is stored, then the caller's own headers,
   * each later one overriding an earlier one of the same name.
   */
  function RequestHeaders(token: Option<string>, extra: map<string, string>): (h: map<string, string>)
    ensures AUTHORIZATION !in extra ==> (AUTHORIZATION in h <==> Truthy(token))
    ensures AUTHORIZATION !in extra && Truthy(token) ==> h[AUTHORIZATION] == "Bearer " + token.value
    ensures CONTENT_TYPE !in extra ==> CONTENT_TYPE in h && h[CONTENT_TYPE] == JSON_TYPE
    ensures forall k :: k in extra ==> k in h && h[k] == extra[k]
    ensures forall k :: k in h ==> k in extra || k == CONTENT_TYPE || k == AUTHORIZATION
  {
    var base := map[CONTENT_TYPE := JSON_TYPE];
    var auth := if Truthy(token) then base[AUTHORIZATION := "Bearer " + token.value] else base;
    auth + extra
  }

  /**
   * What `request` does with a reply: None when it resolves with the body;
   * otherwise the message of the Error it throws, the body's `error` or
   * 'Request failed' when that is absent or empty.
   */
  function ThrownMessage(ok: bool, dataError: Option<string>): (r: Option<string>)
    ensures r.None? <==> ok
    ensures !ok && Truthy(dataError) ==> r == dataError
    ensures !ok && !Truthy(dataError) ==> r == Some(REQUEST_FAILED)
  {
    if ok then None
    else if Truthy(dataError) then dataError
    else Some(REQUEST_FAILED)
  }

  /** A refused reply never surfaces as an empty message. */
  lemma ThrownMessageNotEmpty(dataError: Option<string>)
    ensures ThrownMessage(false, dataError).Some?
    ensures ThrownMessage(false, dataError).value != ""
  {
  }

  /** The parameter names the listing helpers set, in the order the helpers set them. */
  datatype Key = Category | Search | Featured | Sort | Status | Limit | Offset

  function KeyName(k: Key): string
  {
    match k
    case Category => "category"
    case Search => "search"
    case Featured => "featured"
    case Sort => "sort"
    case Status => "status"
    case Limit => "limit"
    case Offset => "offset"
  }

  /** The position of a name in the order the helpers set names. */
  function Rank(k: Key): nat
  {
    match k
    case Category => 0
    case Search => 1
    case Featured => 2
    case Sort => 3
    case Status => 4
    case Limit => 5
    case Offset => 6
  }

  /** One `name=value` pair of a query string. */
  datatype Param = Param(name: Key, value: string)

  /** The first value of `name`, if any. */
  function Lookup(entries: seq<Param>, name: Key): (r: Option<string>)
    ensures r.Some? <==> exists i :: 0 <= i < |entries| && entries[i].name == name
  {
    if entries == [] then None
    else if entries[0].name == name then Some(entries[0].value)
    else Lookup(entries[1..], name)
  }

  /** The pairs not named `name`, in order. */
  function Without(entries: seq<Param>, name: Key): (r: seq<Param>)
    ensures Lookup(r, name).None?
    ensures forall n :: n != name ==> Lookup(r, n) == Lookup(entries, n)
  {
    if entries == [] then []
    else if entries[0].name == name then Without(entries[1..], name)
    else [entries[0]] + Without(entries[1..], name)
  }

  /**
   * `URLSearchParams.set`: the first pair named `name` takes the value and the
   * later ones are deleted; without such a pair one is appended.
   */
  function SetParam(entries: seq<Param>, name: Key, value: string): (r: seq<Param>)
    ensures Lookup(entries, name).None? ==> r == entries + [Param(name, value)]
    ensures Lookup(r, name) == Some(value)
    ensures forall n :: n != name ==> Lookup(r, n) == Lookup(entries, n)
  {
    if entries == [] then [Param(name, value)]
    else if entries[0].name == name then [Param(name, value)] + Without(entries[1..], name)
    else [entries[0]] + SetParam(entries[1..], name, value)
  }

  /** `URLSearchParams.toString`: the encoded pairs joined with '&'; empty only without pairs. */
  function Serialize(entries: seq<Param>, encode: string -> string): (r: string)
    ensures r == "" <==> entries == []
  {
    if entries == [] then ""
    else
      var pair := encode(KeyName(entries[0].name)) + "=" + encode(entries[0].value);
      assert pair[|encode(KeyName(entries[0].name))|] == '=';
      pair + (if |entries| == 1 then "" else "&" + Serialize(entries[1..], encode))
  }

  /** `path` followed by '?' and the query, or `path` alone when there are no pairs. */
  function WithQuery(path: string, entries: seq<Param>, encode: string -> string): string
  {
    var query := Serialize(entries, encode);
    path + (if query != "" then "?" + query else "")
  }

  /** The query builder the listing helpers fill with successive `set` calls. */
  class SearchParams {
    var entries: seq<Param>

    constructor ()
      ensures entries == []
    {
      entries := [];
    }

    method Set(name: Key, value: string)
      modifies this
      ensures entries == SetParam(old(entries), name, value)
    {
      entries := SetParam(entries, name, value);
    }

    function ToString(encode: string -> string): string
      reads this
    {
      Serialize(entries, encode)
    }
  }

  /** The optional filters of `productsApi.getAll`; a missing `params` object is every field absent. */
  datatype ProductsParams = ProductsParams(
    category: Option<string>,
    search: Option<string>,
    featured: Option<bool>,
    sort: Option<string>,
    limit: Option<int>,
    offset: Option<int>)

  /** A text parameter that is set: present and not empty. */
  function TextParam(name: Key, value: Option<string>): seq<Param>
  {
    if Truthy(value) then [Param(name, value.value)] else []
  }

  /** A number parameter that is set: present and not 0, written in decimal. */
  function NumberParam(name: Key, value: Option<int>): seq<Param>
  {
    if value.Some? && value.value != 0 then [Param(name, Text.IntText(value.value))] else []
  }

  /** The pairs `productsApi.getAll` sets, in the order it sets them. */
  function ProductsEntries(p: ProductsParams): seq<Param>
  {
    TextParam(Category, p.category)
      + TextParam(Search, p.search)
      + (if p.featured == Some(true) then [Param(Featured, "true")] else [])
      + TextParam(Sort, p.sort)
      + NumberParam(Limit, p.limit)
      + NumberParam(Offset, p.offset)
  }

  /** The pairs' names appear in the order the helpers set names, each at most once. */
  ghost predicate InOrder(entries: seq<Param>)
  {
    forall i, j :: 0 <= i < j < |entries| ==> Rank(entries[i].name) < Rank(entries[j].name)
  }

  /** All pairs carry names set before `k`. */
  ghost predicate Before(entries: seq<Param>, k: Key)
  {
    forall i :: 0 <= i < |entries| ==> Rank(entries[i].name) < Rank(k)
  }

  /** Appending at most one pair named `k` to ordered pairs named before `k` keeps them ordered. */
  lemma AppendInOrder(a: seq<Param>, e: seq<Param>, k: Key, next: Key)
    requires InOrder(a) && Before(a, k)
    requires |e| <= 1 && (|e| == 1 ==> e[0].name == k)
    requires Rank(k) < Rank(next)
    ensures InOrder(a + e)
    ensures Before(a + e, next)
  {
  }

  /** Appending at most one pair named `k` to ordered pairs named before `k` keeps them ordered. */
  lemma AppendLast(a: seq<Param>, e: seq<Param>, k: Key)
    requires InOrder(a) && Before(a, k)
    requires |e| <= 1 && (|e| == 1 ==> e[0].name == k)
    ensures InOrder(a + e)
  {
  }

  /** A pair named `k` is appended by `set` when every pair so far is named before `k`. */
  lemma SetNewParam(entries: seq<Param>, k: Key, value: string)
    requires Before(entries, k)
    ensures SetParam(entries, k, value) == entries + [Param(k, value)]
  {
    forall i | 0 <= i < |entries|
      ensures entries[i].name != k
    {
      assert Rank(entries[i].name) < Rank(k);
    }
  }

  /** Looking up a name in `a + b` finds it in `a` first. */
  lemma {:induction false} LookupAppend(a: seq<Param>, b: seq<Param>, name: Key)
    ensures Lookup(a + b, name) == if Lookup(a, name).Some? then Lookup(a, name) else Lookup(b, name)
  {
    if a != [] {
      assert (a + b)[1..] == a[1..] + b;
      LookupAppend(a[1..], b, name);
    } else {
      assert a + b == b;
    }
  }

  /** The listing order of the products query's names. */
  lemma ProductsEntriesInOrder(p: ProductsParams)
    ensures InOrder(ProductsEntries(p))
  {
    var e1 := TextParam(Category, p.category);
    var a2 := e1 + TextParam(Search, p.search);
    var a3 := a2 + (if p.featured == Some(true) then [Param(Featured, "true")] else []);
    var a4 := a3 + TextParam(Sort, p.sort);
    var a5 := a4 + NumberParam(Limit, p.limit);
    AppendInOrder([], e1, Category, Search);
    assert [] + e1 == e1;
    AppendInOrder(e1, TextParam(Search, p.search), Search, Featured);
    AppendInOrder(a2, if p.featured == Some(true) then [Param(Featured, "true")] else [], Featured, Sort);
    AppendInOrder(a3, TextParam(Sort, p.sort), Sort, Limit);
    AppendInOrder(a4, NumberParam(Limit, p.limit), Limit, Offset);
    AppendLast(a5, NumberParam(Offset, p.offset), Offset);
  }

  /**
   * The products query holds only the set parameters, each under its own name:
   * a text parameter when it is not empty, featured only as featured=true,
   * and a limit or offset only when it is not 0.
   */
  lemma ProductsEntriesLookup(p: ProductsParams, n: Key)
    ensures Lookup(ProductsEntries(p), n) ==
              match n
              case Category => if Truthy(p.category) then p.category else None
              case Search => if Truthy(p.search) then p.search else None
              case Featured => if p.featured == Some(true) then Some("true") else None
              case Sort => if Truthy(p.sort) then p.sort else None
              case Limit => if p.limit.Some? && p.limit.value != 0 then Some(Text.IntText(p.limit.value)) else None
              case Offset => if p.offset.Some? && p.offset.value != 0 then Some(Text.IntText(p.offset.value)) else None
              case Status => None
  {
    var e1 := TextParam(Category, p.category);
    var a2 := e1 + TextParam(Search, p.search);
    var a3 := a2 + (if p.featured == Some(true) then [Param(Featured, "true")] else []);
    var a4 := a3 + TextParam(Sort, p.sort);
    var a5 := a4 + NumberParam(Limit, p.limit);
    LookupAppend(a5, NumberParam(Offset, p.offset), n);
    LookupAppend(a4, NumberParam(Limit, p.limit), n);
    LookupAppend(a3, TextParam(Sort, p.sort), n);
    LookupAppend(a2, if p.featured == Some(true) then [Param(Featured, "true")] else [], n);
    LookupAppend(e1, TextParam(Search, p.search), n);
    LookupText(Category, p.category, n);
    LookupText(Search, p.search, n);
    LookupText(Sort, p.sort, n);
    LookupNumber(Limit, p.limit, n);
    LookupNumber(Offset, p.offset, n);
    var featured := if p.featured == Some(true) then [Param(Featured, "true")] else [];
    assert Lookup(featured, n) == if n == Featured && p.featured == Some(true) then Some("true") else None;
  }

  /** A text parameter is found under its own name only, and only when set. */
  lemma LookupText(name: Key, value: Option<string>, n: Key)
    ensures Lookup(TextParam(name, value), n) == if n == name && Truthy(value) then value else None
  {
  }

  /** A number parameter is found under its own name only, and only when set. */
  lemma LookupNumber(name: Key, value: Option<int>, n: Key)
    ensures Lookup(NumberParam(name, value), n) == if n == name && value.Some? && value.value != 0 then Some(Text.IntText(value.value)) else None
  {
  }

  /** With no parameter set the path is '/products' with no '?'. */
  lemma ProductsPathWithoutParams(encode: string -> string)
    ensures WithQuery("/products", ProductsEntries(ProductsParams(None, None, None, None, None, None)), encode) == "/products"
  {
    assert ProductsEntries(ProductsParams(None, None, None, None, None, None)) == [];
  }

  /** `if (value) searchParams.set(name, value)` for a text parameter. */
  method SetText(sp: SearchParams, name: Key, value: Option<string>)
    requires Before(sp.entries, name)
    modifies sp
    ensures sp.entries == old(sp.entries) + TextParam(name, value)
  {
    if Truthy(value) {
      SetNewParam(sp.entries, name, value.value);
      sp.Set(name, value.value);
    }
  }

  /** `if (value) searchParams.set(name, value.toString())` for a number parameter. */
  method SetNumber(sp: SearchParams, name: Key, value: Option<int>)
    requires Before(sp.entries, name)
    modifies sp
    ensures sp.entries == old(sp.entries) + NumberParam(name, value)
  {
    if value.Some? && value.value != 0 {
      SetNewParam(sp.entries, name, Text.IntText(value.value));
      sp.Set(name, Text.IntText(value.value));
    }
  }

  /** `if (featured) searchParams.set('featured', 'true')`. */
  method SetFeatured(sp: SearchParams, featured: Option<bool>)
    requires Before(sp.entries, Featured)
    modifies sp
    ensures sp.entries == old(sp.entries) + (if featured == Some(true) then [Param(Featured, "true")] else [])
  {
    if featured == Some(true) {
      SetNewParam(sp.entries, Featured, "true");
      sp.Set(Featured, "true");
    }
  }

  /** Each prefix of the products query names only parameters set before the next one. */
  lemma ProductsPrefixesBefore(p: ProductsParams)
    ensures var e1 := TextParam(Category, p.category);
            var a2 := e1 + TextParam(Search, p.search);
            var a3 := a2 + (if p.featured == Some(true) then [Param(Featured, "true")] else []);
            var a4 := a3 + TextParam(Sort, p.sort);
            var a5 := a4 + NumberParam(Limit, p.limit);
            Before(e1, Search) && Before(a2, Featured) && Before(a3, Sort) && Before(a4, Limit) && Before(a5, Offset)
  {
  }

  /** `productsApi.getAll`: the path it requests, built with successive `set` calls. */
  method ProductsPath(p: ProductsParams, encode: string -> string) returns (path: string)
    ensures path == WithQuery("/products", ProductsEntries(p), encode)
  {
    ProductsPrefixesBefore(p);
    var sp := new SearchParams();
    assert sp.entries == [];
    SetText(sp, Category, p.category);
    assert sp.entries == TextParam(Category, p.category);
    SetText(sp, Search, p.search);
    SetFeatured(sp, p.featured);
    SetText(sp, Sort, p.sort);
    SetNumber(sp, Limit, p.limit);
    SetNumber(sp, Offset, p.offset);
    var query := sp.ToString(encode);
    path := "/products" + (if query != "" then "?" + query else "");
  }

  /** The optional filters of `ordersApi.getAllAdmin`. */
  datatype AdminOrdersParams = AdminOrdersParams(status: Option<string>, limit: Option<int>, offset: Option<int>)

  /** The pairs `ordersApi.getAllAdmin` sets, in the order it sets them. */
  function AdminOrdersEntries(p: AdminOrdersParams): seq<Param>
  {
    TextParam(Status, p.status) + NumberParam(Limit, p.limit) + NumberParam(Offset, p.offset)
  }

  /** Three pieces of at most one pair each, named in increasing rank, are in order together. */
  lemma ThreeInOrder(e1: seq<Param>, e2: seq<Param>, e3: seq<Param>, k1: Key, k2: Key, k3: Key)
    requires |e1| <= 1 && (|e1| == 1 ==> e1[0].name == k1)
    requires |e2| <= 1 && (|e2| == 1 ==> e2[0].name == k2)
    requires |e3| <= 1 && (|e3| == 1 ==> e3[0].name == k3)
    requires Rank(k1) < Rank(k2) < Rank(k3)
    ensures InOrder(e1 + e2 + e3)
  {
    AppendInOrder([], e1, k1, k2);
    assert [] + e1 == e1;
    AppendInOrder(e1, e2, k2, k3);
    AppendLast(e1 + e2, e3, k3);
  }

  /** The admin query's names come in the order status, limit, offset. */
  lemma AdminOrdersEntriesInOrder(p: AdminOrdersParams)
    ensures InOrder(AdminOrdersEntries(p))
  {
    ThreeInOrder(TextParam(Status, p.status), NumberParam(Limit, p.limit), NumberParam(Offset, p.offset),
                 Status, Limit, Offset);
  }

  /** The admin query holds only the set parameters: a status that is not empty, a limit or offset that is not 0. */
  lemma AdminOrdersEntriesLookup(p: AdminOrdersParams, n: Key)
    ensures Lookup(AdminOrdersEntries(p), n) ==
              match n
              case Status => if Truthy(p.status) then p.status else None
              case Limit => if p.limit.Some? && p.limit.value != 0 then Some(Text.IntText(p.limit.value)) else None
              case Offset => if p.offset.Some? && p.offset.value != 0 then Some(Text.IntText(p.offset.value)) else None
              case _ => None
  {
    var e1 := TextParam(Status, p.status);
    var e2 := NumberParam(Limit, p.limit);
    var e3 := NumberParam(Offset, p.offset);
    LookupAppend(e1 + e2, e3, n);
    LookupAppend(e1, e2, n);
  }

  /** With no parameter set the admin path is '/orders/admin/all' with no '?'. */
  lemma AdminOrdersPathWithoutParams(encode: string -> string)
    ensures WithQuery("/orders/admin/all", AdminOrdersEntries(AdminOrdersParams(None, None, None)), encode) == "/orders/admin/all"
  {
    assert AdminOrdersEntries(AdminOrdersParams(None, None, None)) == [];
  }

  /** Each prefix of the admin query names only parameters set before the next one. */
  lemma AdminPrefixesBefore(p: AdminOrdersParams)
    ensures var e1 := TextParam(Status, p.status);
            Before(e1, Limit) && Before(e1 + NumberParam(Limit, p.limit), Offset)
  {
  }

  /** `ordersApi.getAllAdmin`: the path it requests, built with successive `set` calls. */
  method AdminOrdersPath(p: AdminOrdersParams, encode: string -> string) returns (path: string)
    ensures path == WithQuery("/orders/admin/all", AdminOrdersEntries(p), encode)
  {
    AdminPrefixesBefore(p);
    var sp := new SearchParams();
    assert sp.entries == [];
    SetText(sp, Status, p.status);
    assert sp.entries == TextParam(Status, p.status);
    SetNumber(sp, Limit, p.limit);
    SetNumber(sp, Offset, p.offset);
    var query := sp.ToString(encode);
    path := "/orders/admin/all" + (if query != "" then "?" + query else "");
  }
}
