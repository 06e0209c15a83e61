/** Whole-client consequences of the connectors' contracts, each on fresh
    connectors against a fixed upstream. */
module Scenarios {
  import opened Php
  import opened Urls
  import opened Responses
  import opened Transport
  import opened WordPress
  import opened WooCommerce
  import ErrorMessages

  /** Listing page 2 of products, 5 per page, against an upstream that
      answers 200 with `{"id": 1}`: one GET of the authenticated products
      path, resolved against the normalised base URL, and a success. */
  method ListProducts(key: string, secret: string, headers: Headers) returns (r: Outcome, sent: seq<Request>)
    ensures |sent| == 1 && sent[0].verb == GET && sent[0].uri == ProductsUri(key, secret, 5, 2)
    ensures "base_uri" in sent[0].config && sent[0].config["base_uri"] == Str("https://shop.example/")
    ensures r == Returned(Success(200, map["id" := Int(1)], headers))
  {
    var woo := new WooCommerceConnector(
      (n: nat, request: Request) => Answered(HttpResponse(200, Some(map["id" := Int(1)]), headers)), key, secret);
    woo.SetWooCommerceUrl("https://shop.example");
    ShopBaseUrl();
    assert woo.transport.config["base_uri"] == Str("https://shop.example/");
    r := woo.GetProducts(2, 5);
    sent := woo.transport.log;
    assert r == Exchange(Answered(HttpResponse(200, Some(map["id" := Int(1)]), headers)));
  }

  lemma ShopBaseUrl()
    ensures !Empty("https://shop.example") && WithTrailingSlash("https://shop.example") == "https://shop.example/"
  {
  }

  /** The path of that listing carries, in order, the key, the secret,
      per_page=5 and page=2. */
  lemma ListProductsQuery(key: string, secret: string)
    requires QueryValue(key) && QueryValue(secret)
    ensures ParseUri(ProductsUri(key, secret, 5, 2))
            == ("products", [("consumer_key", key), ("consumer_secret", secret), ("per_page", "5"), ("page", "2")])
  {
    ProductsUriReadsBack(key, secret, 5, 2);
    assert IntToString(5) == "5" && IntToString(2) == "2";
    assert Consumer(key, secret) + [("per_page", "5"), ("page", "2")]
        == [("consumer_key", key), ("consumer_secret", secret), ("per_page", "5"), ("page", "2")];
  }

  /** Posting an order that the upstream rejects with 422 and a message:
      a failure carrying the upstream status, the message and the body. The
      order is posted although no base URL was ever set. */
  method RejectedOrder(key: string, secret: string, headers: Headers) returns (r: Outcome, sent: seq<Request>)
    ensures |sent| == 1 && sent[0].verb == POST && sent[0].uri == OrderUri(key, secret)
    ensures sent[0].options == OrderOptions(map["item" := Str("sku1")])
    ensures r == Returned(Failure("Invalid SKU", 422, map["message" := Str("Invalid SKU")]))
  {
    var body := map["message" := Str("Invalid SKU")];
    var woo := new WooCommerceConnector(
      (n: nat, request: Request) => Answered(HttpResponse(422, Some(body), headers)), key, secret);
    r := woo.PostOrder(map["item" := Str("sku1")]);
    sent := woo.transport.log;
  }

  /** A base URL of "0" counts as missing, as PHP's empty() has it: the
      endpoint refuses without a request although base_uri was set to "0/". */
  method ZeroBaseUrl(upstream: (nat, Request) -> Reply, key: string, secret: string)
    returns (r: Outcome, sent: seq<Request>, config: Assoc)
    ensures sent == []
    ensures r == Returned(MissingBaseUrl("WooCommerceConnector->getProducts")) && r.envelope.status == 400
    ensures "base_uri" in config && config["base_uri"] == Str("0/")
  {
    var woo := new WooCommerceConnector(upstream, key, secret);
    woo.SetWooCommerceUrl("0");
    assert WithTrailingSlash("0") == "0/";
    assert woo.transport.config["base_uri"] == Str("0/");
    r := woo.GetProducts();
    sent := woo.transport.log;
    config := woo.transport.config;
  }

  /** An error the HTTP client throws for a request it could not send is
      not the exception the connectors catch: it reaches the caller of
      getProduct, and no envelope is returned. */
  method ConnectionErrorEscapes(key: string, secret: string) returns (r: Outcome, sent: seq<Request>)
    ensures |sent| == 1 && sent[0].uri == ProductUri(key, secret, "mug")
    ensures r == Fatal("Could not resolve host")
  {
    var woo := new WooCommerceConnector((n: nat, request: Request) => Thrown("Could not resolve host"), key, secret);
    woo.SetWooCommerceUrl("https://shop.example");
    ShopBaseUrl();
    r := woo.GetProduct("mug");
    sent := woo.transport.log;
  }

  /** getCategories has no guard: with no base URL it still issues its GET,
      to the bare relative path. */
  method UnguardedCategories(upstream: (nat, Request) -> Reply, key: string, secret: string)
    returns (r: Outcome, sent: seq<Request>)
    ensures |sent| == 1 && sent[0].uri == CategoriesUri("", key, secret, 100)
    ensures r == Exchange(upstream(0, sent[0]))
  {
    var woo := new WooCommerceConnector(upstream, key, secret);
    r := woo.GetCategories();
    sent := woo.transport.log;
  }

  /** Both clients write base_uri into the one set of options they share, so
      the URL set last is the one every later request resolves against;
      each client still keeps its own URL for its guard. */
  method LastBaseUrlWins(upstream: (nat, Request) -> Reply, key: string, secret: string, first: string, second: string)
    returns (config: Assoc, wordPressUrl: string, wooUrl: string)
    ensures "base_uri" in config && config["base_uri"] == Str(WithTrailingSlash(second))
    ensures wordPressUrl == first && wooUrl == second
    ensures config.Keys == {"http_errors", "Content-Type", "base_uri"}
  {
    var woo := new WooCommerceConnector(upstream, key, secret);
    woo.wordPress.SetWordPressUrl(first);
    woo.SetWooCommerceUrl(second);
    config := woo.transport.config;
    wordPressUrl := woo.wordPress.wordPressUrl;
    wooUrl := woo.wooUrl;
  }

  /** Setting a base URL with or without its trailing slash configures the
      same base_uri, and the getter reports it with the slash. */
  method TrailingSlashScenario(upstream: (nat, Request) -> Reply) returns (bare: string, slashed: string)
    ensures bare == "https://api.example.com/" && slashed == "https://api.example.com/"
  {
    var t1 := new AbstractConnector(upstream);
    var wp1 := new WordPressConnector(t1);
    wp1.SetWordPressUrl("https://api.example.com");
    bare := wp1.GetWordPressUrl();
    var t2 := new AbstractConnector(upstream);
    var wp2 := new WordPressConnector(t2);
    wp2.SetWordPressUrl("https://api.example.com/");
    slashed := wp2.GetWordPressUrl();
  }
}
