/** The commerce-API client: categories, products, product search and
    orders, each request authenticated by the consumer key and secret in
    its query string. It extends the content-API client by composition: it
    owns a WordPressConnector that shares its base connector. */
module WooCommerce {
  import opened Php
  import opened Urls
  import opened Responses
  import opened Transport
  import opened WordPress
  import ErrorMessages

  const Categories: string := "categories"
  const Products: string := "products"
  const Order: string := "orders"

  /** The authentication parameters, key first. */
  function Consumer(key: string, secret: string): seq<Param> {
    [("consumer_key", key), ("consumer_secret", secret)]
  }

  /** getConsumerString: the query string that carries the consumer key and
      secret, with the key first and nothing else in it. */
  function ConsumerString(key: string, secret: string): (s: string)
    ensures s == "?" + Encode(Consumer(key, secret))
  {
    Separators();
    var q := "?consumer_key=" + key;
    QueryFirst("consumer_key", "?consumer_key=", key);
    QueryExtend(q, [("consumer_key", key)], "consumer_secret", "&consumer_secret=", secret);
    assert [("consumer_key", key)] + [("consumer_secret", secret)] == Consumer(key, secret);
    q + "&consumer_secret=" + secret
  }

  /** Proof helper: the literal separators the endpoints write, split into
      a delimiter, a parameter name and `=`. */
  lemma Separators()
    ensures "?consumer_key=" == "?" + "consumer_key" + "="
    ensures "&consumer_secret=" == "&" + "consumer_secret" + "="
    ensures "&per_page=" == "&" + "per_page" + "="
    ensures "&page=" == "&" + "page" + "="
    ensures "&slug=" == "&" + "slug" + "="
    ensures "&search=" == "&" + "search" + "="
    ensures "&customer=" == "&" + "customer" + "="
  {
  }

  lemma ConsumerPath(path: string, key: string, secret: string)
    ensures path + ConsumerString(key, secret) == Render(path, Consumer(key, secret))
  {
  }

  lemma ConsumerWellFormed(key: string, secret: string)
    requires QueryValue(key) && QueryValue(secret)
    ensures WellFormed(Consumer(key, secret))
  {
    assert QueryName("consumer_key") && QueryName("consumer_secret");
    WellFormedSnoc([], "consumer_key", key);
    WellFormedSnoc([("consumer_key", key)], "consumer_secret", secret);
  }

  /** The envelope of a guarded endpoint called before a base URL was set:
      a 400 failure whose data names the method. */
  function MissingBaseUrl(methodName: string): (r: Envelope)
    ensures r.Failure? && r.status == 400 && r.message == ErrorMessages.EmptyWooBaseUrl
    ensures r.data == map["method" := Str(methodName)]
  {
    FailedResponse(ErrorMessages.EmptyWooBaseUrl, 400, map["method" := Str(methodName)])
  }

  /** getCategories' path: the stored base URL, as set and not normalised,
      followed by products/categories, the consumer parameters and per_page. */
  function CategoriesUri(wooUrl: string, key: string, secret: string, perPage: int): (u: string)
    ensures u == Render(wooUrl + "products/categories", Consumer(key, secret) + [("per_page", IntToString(perPage))])
  {
    var url := wooUrl + Products + "/" + Categories;
    assert url == wooUrl + "products/categories";
    Separators();
    ConsumerPath(url, key, secret);
    RenderExtend(url, Consumer(key, secret), "per_page", "&per_page=", IntToString(perPage));
    url + ConsumerString(key, secret) + "&per_page=" + IntToString(perPage)
  }

  /** getCategory's path: products/categories, relative, then the consumer
      parameters and the slug. */
  function CategoryUri(key: string, secret: string, slug: string): (u: string)
    ensures u == Render("products/categories", Consumer(key, secret) + [("slug", slug)])
  {
    var path := Products + "/" + Categories;
    assert path == "products/categories";
    Separators();
    ConsumerPath(path, key, secret);
    RenderExtend(path, Consumer(key, secret), "slug", "&slug=", slug);
    path + ConsumerString(key, secret) + "&slug=" + slug
  }

  /** getProducts' path: per_page comes before page. */
  function ProductsUri(key: string, secret: string, perPage: int, page: int): (u: string)
    ensures u == Render("products", Consumer(key, secret)
                                    + [("per_page", IntToString(perPage)), ("page", IntToString(page))])
  {
    var ps0 := Consumer(key, secret);
    var ps1 := ps0 + [("per_page", IntToString(perPage))];
    var s0 := Products + ConsumerString(key, secret);
    Separators();
    ConsumerPath(Products, key, secret);
    var s1 := s0 + "&per_page=" + IntToString(perPage);
    RenderExtend(Products, ps0, "per_page", "&per_page=", IntToString(perPage));
    RenderExtend(Products, ps1, "page", "&page=", IntToString(page));
    assert ps1 + [("page", IntToString(page))]
        == ps0 + [("per_page", IntToString(perPage)), ("page", IntToString(page))];
    s1 + "&page=" + IntToString(page)
  }

  /** getProductSearchResults' path: the search term before per_page and page. */
  function SearchUri(key: string, secret: string, term: string, perPage: int, page: int): (u: string)
    ensures u == Render("products", Consumer(key, secret)
                                    + [("search", term), ("per_page", IntToString(perPage)), ("page", IntToString(page))])
  {
    var ps0 := Consumer(key, secret);
    var ps1 := ps0 + [("search", term)];
    var ps2 := ps1 + [("per_page", IntToString(perPage))];
    var s0 := Products + ConsumerString(key, secret);
    Separators();
    ConsumerPath(Products, key, secret);
    var s1 := s0 + "&search=" + term;
    RenderExtend(Products, ps0, "search", "&search=", term);
    var s2 := s1 + "&per_page=" + IntToString(perPage);
    RenderExtend(Products, ps1, "per_page", "&per_page=", IntToString(perPage));
    RenderExtend(Products, ps2, "page", "&page=", IntToString(page));
    assert ps2 + [("page", IntToString(page))]
        == ps0 + [("search", term), ("per_page", IntToString(perPage)), ("page", IntToString(page))];
    s2 + "&page=" + IntToString(page)
  }

  /** getProduct's path: products, the consumer parameters and the slug. */
  function ProductUri(key: string, secret: string, slug: string): (u: string)
    ensures u == Render("products", Consumer(key, secret) + [("slug", slug)])
  {
    Separators();
    ConsumerPath(Products, key, secret);
    RenderExtend(Products, Consumer(key, secret), "slug", "&slug=", slug);
    Products + ConsumerString(key, secret) + "&slug=" + slug
  }

  /** getOrdersForUser's path: customer, then page before per_page. */
  function UserOrdersUri(key: string, secret: string, userId: int, page: int, perPage: int): (u: string)
    ensures u == Render("orders", Consumer(key, secret)
                                  + [("customer", IntToString(userId)), ("page", IntToString(page)),
                                     ("per_page", IntToString(perPage))])
  {
    var ps0 := Consumer(key, secret);
    var ps1 := ps0 + [("customer", IntToString(userId))];
    var ps2 := ps1 + [("page", IntToString(page))];
    var s0 := Order + ConsumerString(key, secret);
    Separators();
    ConsumerPath(Order, key, secret);
    var s1 := s0 + "&customer=" + IntToString(userId);
    RenderExtend(Order, ps0, "customer", "&customer=", IntToString(userId));
    var s2 := s1 + "&page=" + IntToString(page);
    RenderExtend(Order, ps1, "page", "&page=", IntToString(page));
    RenderExtend(Order, ps2, "per_page", "&per_page=", IntToString(perPage));
    assert ps2 + [("per_page", IntToString(perPage))]
        == ps0 + [("customer", IntToString(userId)), ("page", IntToString(page)), ("per_page", IntToString(perPage))];
    s2 + "&per_page=" + IntToString(perPage)
  }

  /** getAllOrders' path: page before per_page, no customer. */
  function AllOrdersUri(key: string, secret: string, page: int, perPage: int): (u: string)
    ensures u == Render("orders", Consumer(key, secret)
                                  + [("page", IntToString(page)), ("per_page", IntToString(perPage))])
  {
    var ps0 := Consumer(key, secret);
    var ps1 := ps0 + [("page", IntToString(page))];
    var s0 := Order + ConsumerString(key, secret);
    Separators();
    ConsumerPath(Order, key, secret);
    var s1 := s0 + "&page=" + IntToString(page);
    RenderExtend(Order, ps0, "page", "&page=", IntToString(page));
    RenderExtend(Order, ps1, "per_page", "&per_page=", IntToString(perPage));
    assert ps1 + [("per_page", IntToString(perPage))]
        == ps0 + [("page", IntToString(page)), ("per_page", IntToString(perPage))];
    s1 + "&per_page=" + IntToString(perPage)
  }

  /** postOrder's path: orders and the consumer parameters alone. */
  function OrderUri(key: string, secret: string): (u: string)
    ensures u == Render("orders", Consumer(key, secret))
  {
    Separators();
    ConsumerPath(Order, key, secret);
    Order + ConsumerString(key, secret)
  }

  /** A consumer-authenticated path followed by further well-formed
      parameters reads back as that path with the key, the secret and the
      further parameters, in order. */
  lemma ConsumerQueryReadsBack(path: string, key: string, secret: string, extra: seq<Param>)
    requires '?' !in path && QueryValue(key) && QueryValue(secret) && WellFormed(extra)
    ensures ParseUri(Render(path, Consumer(key, secret) + extra)) == (path, Consumer(key, secret) + extra)
  {
    ConsumerWellFormed(key, secret);
    WellFormedAppend(Consumer(key, secret), extra);
    ParseRender(path, Consumer(key, secret) + extra);
  }

  lemma OneParam(name: string, value: string)
    requires QueryName(name) && QueryValue(value)
    ensures WellFormed([(name, value)])
  {
    WellFormedSnoc([], name, value);
  }

  /* Each endpoint's request reads back as its path with the consumer key
     and secret and then exactly the parameters its method documents, in the
     source's order, whenever the key, the secret and the caller's strings
     cannot end a parameter early. */

  lemma CategoriesUriReadsBack(wooUrl: string, key: string, secret: string, perPage: int)
    requires '?' !in wooUrl && QueryValue(key) && QueryValue(secret)
    ensures ParseUri(CategoriesUri(wooUrl, key, secret, perPage))
            == (wooUrl + "products/categories", Consumer(key, secret) + [("per_page", IntToString(perPage))])
  {
    IntToStringIsQueryValue(perPage);
    assert QueryName("per_page");
    OneParam("per_page", IntToString(perPage));
    ConsumerQueryReadsBack(wooUrl + "products/categories", key, secret, [("per_page", IntToString(perPage))]);
  }

  lemma CategoryUriReadsBack(key: string, secret: string, slug: string)
    requires QueryValue(key) && QueryValue(secret) && QueryValue(slug)
    ensures ParseUri(CategoryUri(key, secret, slug)) == ("products/categories", Consumer(key, secret) + [("slug", slug)])
  {
    assert QueryName("slug");
    OneParam("slug", slug);
    ConsumerQueryReadsBack("products/categories", key, secret, [("slug", slug)]);
  }

  lemma ProductsUriReadsBack(key: string, secret: string, perPage: int, page: int)
    requires QueryValue(key) && QueryValue(secret)
    ensures ParseUri(ProductsUri(key, secret, perPage, page))
            == ("products", Consumer(key, secret) + [("per_page", IntToString(perPage)), ("page", IntToString(page))])
  {
    IntToStringIsQueryValue(perPage);
    IntToStringIsQueryValue(page);
    assert QueryName("per_page") && QueryName("page");
    WellFormedSnoc([], "per_page", IntToString(perPage));
    WellFormedSnoc([("per_page", IntToString(perPage))], "page", IntToString(page));
    ConsumerQueryReadsBack("products", key, secret, [("per_page", IntToString(perPage)), ("page", IntToString(page))]);
  }

  lemma SearchUriReadsBack(key: string, secret: string, term: string, perPage: int, page: int)
    requires QueryValue(key) && QueryValue(secret) && QueryValue(term)
    ensures ParseUri(SearchUri(key, secret, term, perPage, page))
            == ("products", Consumer(key, secret)
                            + [("search", term), ("per_page", IntToString(perPage)), ("page", IntToString(page))])
  {
    IntToStringIsQueryValue(perPage);
    IntToStringIsQueryValue(page);
    assert QueryName("search") && QueryName("per_page") && QueryName("page");
    WellFormedSnoc([], "search", term);
    WellFormedSnoc([("search", term)], "per_page", IntToString(perPage));
    WellFormedSnoc([("search", term), ("per_page", IntToString(perPage))], "page", IntToString(page));
    ConsumerQueryReadsBack("products", key, secret,
                           [("search", term), ("per_page", IntToString(perPage)), ("page", IntToString(page))]);
  }

  lemma ProductUriReadsBack(key: string, secret: string, slug: string)
    requires QueryValue(key) && QueryValue(secret) && QueryValue(slug)
    ensures ParseUri(ProductUri(key, secret, slug)) == ("products", Consumer(key, secret) + [("slug", slug)])
  {
    assert QueryName("slug");
    OneParam("slug", slug);
    ConsumerQueryReadsBack("products", key, secret, [("slug", slug)]);
  }

  lemma UserOrdersUriReadsBack(key: string, secret: string, userId: int, page: int, perPage: int)
    requires QueryValue(key) && QueryValue(secret)
    ensures ParseUri(UserOrdersUri(key, secret, userId, page, perPage))
            == ("orders", Consumer(key, secret) + [("customer", IntToString(userId)), ("page", IntToString(page)),
                                                   ("per_page", IntToString(perPage))])
  {
    IntToStringIsQueryValue(userId);
    IntToStringIsQueryValue(page);
    IntToStringIsQueryValue(perPage);
    assert QueryName("customer") && QueryName("page") && QueryName("per_page");
    WellFormedSnoc([], "customer", IntToString(userId));
    WellFormedSnoc([("customer", IntToString(userId))], "page", IntToString(page));
    WellFormedSnoc([("customer", IntToString(userId)), ("page", IntToString(page))], "per_page", IntToString(perPage));
    ConsumerQueryReadsBack("orders", key, secret,
                           [("customer", IntToString(userId)), ("page", IntToString(page)), ("per_page", IntToString(perPage))]);
  }

  lemma AllOrdersUriReadsBack(key: string, secret: string, page: int, perPage: int)
    requires QueryValue(key) && QueryValue(secret)
    ensures ParseUri(AllOrdersUri(key, secret, page, perPage))
            == ("orders", Consumer(key, secret) + [("page", IntToString(page)), ("per_page", IntToString(perPage))])
  {
    IntToStringIsQueryValue(page);
    IntToStringIsQueryValue(perPage);
    assert QueryName("page") && QueryName("per_page");
    WellFormedSnoc([], "page", IntToString(page));
    WellFormedSnoc([("page", IntToString(page))], "per_page", IntToString(perPage));
    ConsumerQueryReadsBack("orders", key, secret, [("page", IntToString(page)), ("per_page", IntToString(perPage))]);
  }

  lemma OrderUriReadsBack(key: string, secret: string)
    requires QueryValue(key) && QueryValue(secret)
    ensures ParseUri(OrderUri(key, secret)) == ("orders", Consumer(key, secret))
  {
    ConsumerWellFormed(key, secret);
    ParseRender("orders", Consumer(key, secret));
  }

  /** The options postOrder sends: JSON accepted, the order as the JSON body. */
  function OrderOptions(data: Assoc): (o: Assoc)
    ensures o.Keys == {"headers", "json"} && o["json"] == Arr(data) && o["headers"] == AcceptJson()["headers"]
  {
    AcceptJson()["json" := Arr(data)]
  }

  class WooCommerceConnector {
    /** The base connector, shared with wordPress. */
    const transport: AbstractConnector
    /** The content-API part of this client. */
    const wordPress: WordPressConnector
    const consumerKey: string
    const consumerSecret: string
    /** The base URL as it was set, not normalised. */
    var wooUrl: string

    constructor (upstream: (nat, Request) -> Reply, consumerKey: string, consumerSecret: string)
      ensures fresh(transport) && fresh(wordPress) && wordPress.transport == transport
      ensures transport.upstream == upstream && transport.log == []
      ensures transport.config == map["http_errors" := Bool(false), "Content-Type" := Str("application/json")]
      ensures wordPress.wordPressUrl == "" && wooUrl == ""
      ensures this.consumerKey == consumerKey && this.consumerSecret == consumerSecret
    {
      var t := new AbstractConnector(upstream);
      transport := t;
      wordPress := new WordPressConnector(t);
      this.consumerKey := consumerKey;
      this.consumerSecret := consumerSecret;
      wooUrl := "";
    }

    /** getCategories: no base-URL check; always one GET. */
    method GetCategories(perPage: int := 100) returns (r: Outcome)
      modifies transport`log
      ensures Issued(transport, Request(GET, CategoriesUri(wooUrl, consumerKey, consumerSecret, perPage), map[],
                                        transport.config), r)
    {
      r := transport.Get(CategoriesUri(wooUrl, consumerKey, consumerSecret, perPage));
    }

    method GetCategory(slug: string) returns (r: Outcome)
      modifies transport`log
      ensures Empty(wooUrl) ==>
                transport.log == old(transport.log) && r == Returned(MissingBaseUrl("WooCommerceConnector->getCategory"))
      ensures !Empty(wooUrl) ==>
                Issued(transport, Request(GET, CategoryUri(consumerKey, consumerSecret, slug), map[], transport.config), r)
    {
      if Empty(wooUrl) {
        return Returned(MissingBaseUrl("WooCommerceConnector->getCategory"));
      }
      r := transport.Get(CategoryUri(consumerKey, consumerSecret, slug));
    }

    method GetProducts(page: int := 1, perPage: int := 10) returns (r: Outcome)
      modifies transport`log
      ensures Empty(wooUrl) ==>
                transport.log == old(transport.log) && r == Returned(MissingBaseUrl("WooCommerceConnector->getProducts"))
      ensures !Empty(wooUrl) ==>
                Issued(transport, Request(GET, ProductsUri(consumerKey, consumerSecret, perPage, page), map[],
                                          transport.config), r)
    {
      if Empty(wooUrl) {
        return Returned(MissingBaseUrl("WooCommerceConnector->getProducts"));
      }
      r := transport.Get(ProductsUri(consumerKey, consumerSecret, perPage, page));
    }

    method GetProductSearchResults(term: string, page: int := 1, perPage: int := 10) returns (r: Outcome)
      modifies transport`log
      ensures Empty(wooUrl) ==>
                transport.log == old(transport.log) && r == Returned(MissingBaseUrl("WooCommerceConnector->getProductSearchResults"))
      ensures !Empty(wooUrl) ==>
                Issued(transport, Request(GET, SearchUri(consumerKey, consumerSecret, term, perPage, page), map[],
                                          transport.config), r)
    {
      if Empty(wooUrl) {
        return Returned(MissingBaseUrl("WooCommerceConnector->getProductSearchResults"));
      }
      r := transport.Get(SearchUri(consumerKey, consumerSecret, term, perPage, page));
    }

    method GetProduct(slug: string) returns (r: Outcome)
      modifies transport`log
      ensures Empty(wooUrl) ==>
                transport.log == old(transport.log) && r == Returned(MissingBaseUrl("WooCommerceConnector->getProduct"))
      ensures !Empty(wooUrl) ==>
                Issued(transport, Request(GET, ProductUri(consumerKey, consumerSecret, slug), map[], transport.config), r)
    {
      if Empty(wooUrl) {
        return Returned(MissingBaseUrl("WooCommerceConnector->getProduct"));
      }
      r := transport.Get(ProductUri(consumerKey, consumerSecret, slug));
    }

    method GetOrdersForUser(userId: int, page: int := 1, perPage: int := 10) returns (r: Outcome)
      modifies transport`log
      ensures Empty(wooUrl) ==>
                transport.log == old(transport.log) && r == Returned(MissingBaseUrl("WooCommerceConnector->getOrdersForUser"))
      ensures !Empty(wooUrl) ==>
                Issued(transport, Request(GET, UserOrdersUri(consumerKey, consumerSecret, userId, page, perPage),
                                          AcceptJson(), transport.config), r)
    {
      if Empty(wooUrl) {
        return Returned(MissingBaseUrl("WooCommerceConnector->getOrdersForUser"));
      }
      r := transport.Get(UserOrdersUri(consumerKey, consumerSecret, userId, page, perPage), AcceptJson());
    }

    method GetAllOrders(page: int := 1, perPage: int := 6) returns (r: Outcome)
      modifies transport`log
      ensures Empty(wooUrl) ==>
                transport.log == old(transport.log) && r == Returned(MissingBaseUrl("WooCommerceConnector->getAllOrders"))
      ensures !Empty(wooUrl) ==>
                Issued(transport, Request(GET, AllOrdersUri(consumerKey, consumerSecret, page, perPage), AcceptJson(),
                                          transport.config), r)
    {
      if Empty(wooUrl) {
        return Returned(MissingBaseUrl("WooCommerceConnector->getAllOrders"));
      }
      r := transport.Get(AllOrdersUri(consumerKey, consumerSecret, page, perPage), AcceptJson());
    }

    /** postOrder: no base-URL check; always one POST carrying the order. */
    method PostOrder(data: Assoc) returns (r: Outcome)
      modifies transport`log
      ensures Issued(transport, Request(POST, OrderUri(consumerKey, consumerSecret), OrderOptions(data), transport.config), r)
    {
      r := transport.Post(OrderUri(consumerKey, consumerSecret), OrderOptions(data));
    }

    /** getWooCommerceUrl: the stored URL with a trailing slash. */
    function GetWooCommerceUrl(): (u: string)
      reads this
      ensures u == WithTrailingSlash(wooUrl)
      ensures EndsWithSlash(u) && (u == wooUrl <==> EndsWithSlash(wooUrl))
    {
      WithTrailingSlash(wooUrl)
    }

    /** setWooCommerceUrl: stores the URL as given and merges its normalised
        form into the shared client options as base_uri. */
    method SetWooCommerceUrl(pUrl: string)
      modifies this`wooUrl, transport`config
      ensures wooUrl == pUrl
      ensures transport.config == Merge(old(transport.config), map["base_uri" := Str(WithTrailingSlash(pUrl))])
    {
      wooUrl := pUrl;
      transport.AddConfig(map["base_uri" := Str(GetWooCommerceUrl())]);
    }
  }
}
