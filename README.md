# API connector: a Dafny model

The PHP package `ypa/api-connector` is a thin adapter over two REST APIs.
One is the WordPress content API. The other is the WooCommerce store API,
which is built on top of it. This project models the package's three
connector classes and proves properties of them:

- `AbstractConnector` keeps the HTTP client options. It issues GET, PUT
  and POST requests and turns every answer into one uniform envelope.
  Its catch clause is meant to do the same for Symfony's
  BadRequestException, but as written that branch fails (see Findings);
  the model uses the corrected branch. Any other exception reaches the
  caller.
  `success` is true only for status 200 or 201, and a success always
  reports status 200.
- `WordPressConnector` lists posts and fetches a post by slug. Before
  either, it checks that a base URL was set; PHP's `empty()` also treats
  `"0"` as unset. The base URL is stored as given; the trailing slash is
  added only in the client's `base_uri` option and in the getter's result.
- `WooCommerceConnector` covers categories, products, product search and
  orders. Every request carries the consumer key and secret as query
  parameters. Six of its eight endpoints check the base URL first;
  `getCategories` and `postOrder` do not.

How the model is built:

- The HTTP client is replaced by two things. A request log
  (`AbstractConnector.log`) records every request: the verb, the URI, the
  per-request options and the client options in force. An upstream oracle
  (`upstream(n, request)`) gives the reply to the n-th request. "No
  network call" then means "the log is unchanged".
- Each envelope-producing function has an independent partner:
  - `ToArray` renders an envelope as the PHP array the source returns.
  - `Urls.ParseUri` parses a request URI back into its path and its
    ordered query parameters. The endpoint paths are proved to read back
    as exactly the parameters the source concatenates.
  - `Php.ParseInt` reads back the decimal form of an integer.
- PHP inheritance (`WooCommerceConnector extends WordPressConnector
  extends AbstractConnector`) is modelled by composition. A
  `WooCommerceConnector` owns a `WordPressConnector`, and the two share
  one `AbstractConnector`. So they also share one set of client options.
- The consumer key and secret come from the environment in the source.
  Here they are constructor parameters.
- `json_decode` is not modelled. The decoded body is part of the response
  (`HttpResponse.body`: `None` for a body that decodes to null).

Modules: `Php` (values, integer rendering, `empty()`, `array_merge`),
`Urls` (trailing slash, query strings and their parser), `Responses`
(the envelope), `ErrorMessages`, `Transport` (`AbstractConnector`),
`WordPress`, `WooCommerce` and `Scenarios` (whole-client consequences on
fresh connectors).

## Model

| member | source | states |
|---|---|---|
| `Php.Merge` | src/AbstractConnector.php:72-74 | array_merge on string keys: the result has the keys of both arrays; every new key has its new value; every old key that is not overridden keeps its old value |
| `Php.MergeIdempotent` | src/AbstractConnector.php:72-74 | merging the same options twice gives what merging them once gives |
| `Php.Option.GetOr` | src/AbstractConnector.php:88-94 | the `??` operator: the present value, or the default when there is none (null) |
| `Php.Empty` | src/WordPressConnector.php:21 | PHP `empty()` on a string: true exactly for a string of at most one character that is '0' if present, that is "" and "0" |
| `Php.IntToString` | src/WordPressConnector.php:28 | an int concatenated into a string: nonempty, a leading '-' exactly for a negative number, every other character a decimal digit, and no leading zero ("0" only for zero, never "05" or "-05") |
| `Php.IntToStringRoundTrip` | src/WordPressConnector.php:28 | the decimal form PHP writes for a page or page-size integer reads back as that integer, so distinct numbers give distinct query values |
| `Urls.WithTrailingSlash` | src/WordPressConnector.php:58-65 | the result ends with '/'; it extends the URL by at most one character; it equals the URL exactly when the URL already ends with '/' (the empty URL becomes "/") |
| `Urls.TrailingSlashIdempotent` | src/WooCommerceConnector.php:141-148 | normalising a normalised URL changes nothing |
| `Urls.NormalisedNeverEmpty` | src/WooCommerceConnector.php:154-160 | the base_uri written into the options is never empty in the sense of `empty()`, even for an empty or "0" URL, which the guards still refuse |
| `Urls.ParseRender` | src/WooCommerceConnector.php:130-135 | a path with no '?' followed by a query of well-formed parameters parses back as that path and those parameters, in order |
| `Urls.RenderInjective` | src/WooCommerceConnector.php:130-135 | two such URIs are equal only when their paths and parameter lists are equal |
| `Responses.ToArray` | src/AbstractConnector.php:114-139 | an envelope as a PHP array has four keys: success, status and data, plus headers for a success or message for a failure, never both |
| `Responses.ToArrayInjective` | src/AbstractConnector.php:114-139 | the PHP array determines the envelope, so the datatype loses nothing the array carries |
| `Responses.SuccessResponse` | src/AbstractConnector.php:114-122 | the array is success=true, status=200 whatever the upstream status, data=the body and headers=the headers |
| `Responses.FailedResponse` | src/AbstractConnector.php:131-139 | the array is success=false with the message, status and data unchanged; status defaults to 200 and data to the empty array |
| `Responses.MessageOf` | src/AbstractConnector.php:93-94 | an absent or null message entry gives ''; a string entry is returned as is; an integer entry becomes its decimal form; a boolean entry becomes "1" or '' |
| `Responses.Response` | src/AbstractConnector.php:83-97 | success if and only if the status is exactly 200 or 201; a success carries status 200, the decoded body (or the empty array) and the headers; a failure carries the upstream status, the decoded body (or the empty array) and the body's message |
| `Responses.CreatedReadsAsOk` | src/AbstractConnector.php:86-91 | a 201 reply gives the same envelope as the same reply with status 200 |
| `Responses.ExchangeAsWritten` | src/AbstractConnector.php:19-33 | as written, a call returns if and only if it got an answer, and then returns the normalised response; the caught BadRequestException ends the call in an error; any other exception passes through unchanged |
| `Responses.Exchange` | src/AbstractConnector.php:19-33 | as intended, the caught BadRequestException gives a failure with its message and code and empty data; an answered call gives the normalised response; any other exception still passes through to the caller; a success only comes from a 200 or 201 answer |
| `Responses.ExchangeCorrectsCatchBranch` | src/AbstractConnector.php:23-29 | the written and the intended behaviour differ exactly on the caught BadRequestException, and agree on answers and on every uncaught exception |
| `Transport.AbstractConnector.constructor` | src/AbstractConnector.php:14-17 | the initial options are exactly http_errors=false and Content-Type='application/json'; the log is empty |
| `Transport.AbstractConnector.SetConfig` | src/AbstractConnector.php:67-70 | the options become the given array, whatever they were |
| `Transport.AbstractConnector.AddConfig` | src/AbstractConnector.php:72-76 | the options become the old options merged with the given ones, new keys winning |
| `Transport.AbstractConnector.Get` | src/AbstractConnector.php:19-33 | exactly one GET with this URI, these options and the current client options is appended to the log; the result is what the call makes of the upstream reply to it: an envelope, or the uncaught exception |
| `Transport.AcceptJson` | src/WordPressConnector.php:29-33 | the per-request options are exactly one entry, headers, holding exactly one header, Accept: application/json |
| `Transport.AbstractConnector.Put` | src/AbstractConnector.php:35-49 | the same for exactly one PUT |
| `Transport.AbstractConnector.Post` | src/AbstractConnector.php:51-65 | the same for exactly one POST |
| `Transport.AddedOptionsTravel` | src/AbstractConnector.php:141-144 | after addConfig, the next request carries every added option and every earlier option not overridden |
| `WordPress.PostsUri` | src/WordPressConnector.php:28-29 | getPosts' path is the post type with the query page, then per_page |
| `WordPress.SingleUri` | src/WordPressConnector.php:51 | getSingle's path is the post type with the single query parameter slug |
| `WordPress.PostsUriReadsBack` | src/WordPressConnector.php:28-29 | for a post type without '?', that path parses back as the post type with page and per_page, in that order |
| `WordPress.SingleUriReadsBack` | src/WordPressConnector.php:51 | for a post type without '?' and a slug without '&', that path parses back as the post type with the slug |
| `WordPress.WordPressConnector.constructor` | src/WordPressConnector.php:11 | the stored base URL starts empty |
| `WordPress.WordPressConnector.GetPosts` | src/WordPressConnector.php:19-34 | with an empty or "0" base URL: no request, and a 400 failure whose data is the post type and 'WordPressConnector->getPosts'; otherwise exactly one GET of the posts path asking for JSON, and its envelope; page 1 and 10 per page by default |
| `WordPress.WordPressConnector.GetSingle` | src/WordPressConnector.php:42-52 | with an empty or "0" base URL: no request, and a 400 failure naming the post type and 'WordPressConnector->getSingle'; otherwise exactly one GET by slug with no per-request options |
| `WordPress.WordPressConnector.GetWordPressUrl` | src/WordPressConnector.php:58-65 | the stored URL normalised to a trailing slash: the result ends with '/', and is the stored URL itself exactly when that already ends with '/' |
| `WordPress.WordPressConnector.SetWordPressUrl` | src/WordPressConnector.php:71-78 | stores the URL as given, not normalised, and merges base_uri = the normalised URL into the options, keeping every other option |
| `WooCommerce.ConsumerString` | src/WooCommerceConnector.php:130-135 | '?' followed by the query of exactly consumer_key and then consumer_secret |
| `WooCommerce.MissingBaseUrl` | src/WooCommerceConnector.php:25-31 | the guard's envelope: a failure with status 400, the missing-base-URL message and data naming the method |
| `WooCommerce.CategoriesUri` | src/WooCommerceConnector.php:18-19 | the raw stored base URL followed by products/categories, the consumer parameters and per_page |
| `WooCommerce.CategoryUri` | src/WooCommerceConnector.php:32-34 | the relative path products/categories with the consumer parameters and slug |
| `WooCommerce.ProductsUri` | src/WooCommerceConnector.php:48 | products with the consumer parameters, then per_page, then page |
| `WooCommerce.SearchUri` | src/WooCommerceConnector.php:61-62 | products with the consumer parameters, then search, per_page and page |
| `WooCommerce.ProductUri` | src/WooCommerceConnector.php:76-77 | products with the consumer parameters and slug |
| `WooCommerce.UserOrdersUri` | src/WooCommerceConnector.php:91-92 | orders with the consumer parameters, then customer, page and per_page |
| `WooCommerce.AllOrdersUri` | src/WooCommerceConnector.php:108-109 | orders with the consumer parameters, then page and per_page, and no customer |
| `WooCommerce.OrderUri` | src/WooCommerceConnector.php:118 | orders with the consumer parameters only |
| `WooCommerce.OrderOptions` | src/WooCommerceConnector.php:118-123 | postOrder's options are exactly the Accept: application/json header and the order as the JSON body |
| `WooCommerce.ConsumerQueryReadsBack` | src/WooCommerceConnector.php:130-135 | a consumer-authenticated path parses back with the key, then the secret, then the further parameters, when neither key nor secret holds '&' |
| `WooCommerce.CategoriesUriReadsBack` | src/WooCommerceConnector.php:18-19 | getCategories' path parses back as base URL + products/categories with key, secret and per_page |
| `WooCommerce.CategoryUriReadsBack` | src/WooCommerceConnector.php:32-34 | getCategory's path parses back with key, secret and slug |
| `WooCommerce.ProductsUriReadsBack` | src/WooCommerceConnector.php:48 | getProducts' path parses back with key, secret, per_page and page, in that order |
| `WooCommerce.SearchUriReadsBack` | src/WooCommerceConnector.php:61-62 | getProductSearchResults' path parses back with key, secret, search, per_page and page |
| `WooCommerce.ProductUriReadsBack` | src/WooCommerceConnector.php:76-77 | getProduct's path parses back with key, secret and slug |
| `WooCommerce.UserOrdersUriReadsBack` | src/WooCommerceConnector.php:91-92 | getOrdersForUser's path parses back with key, secret, customer, page and per_page |
| `WooCommerce.AllOrdersUriReadsBack` | src/WooCommerceConnector.php:108-109 | getAllOrders' path parses back with key, secret, page and per_page |
| `WooCommerce.OrderUriReadsBack` | src/WooCommerceConnector.php:118 | postOrder's path parses back with key and secret alone |
| `WooCommerce.WooCommerceConnector.constructor` | src/WooCommerceConnector.php:10 | the stored base URLs start empty; the content-API part shares the fresh base connector; the options are the defaults |
| `WooCommerce.WooCommerceConnector.GetCategories` | src/WooCommerceConnector.php:16-21 | no guard: always exactly one GET of the categories path, whose per_page defaults to 100, and its envelope |
| `WooCommerce.WooCommerceConnector.GetCategory` | src/WooCommerceConnector.php:23-36 | with an empty or "0" base URL: no request and the guard failure naming getCategory; otherwise exactly one GET by slug |
| `WooCommerce.WooCommerceConnector.GetProducts` | src/WooCommerceConnector.php:39-50 | guard as above naming getProducts; otherwise exactly one GET of the products page, page 1 and 10 per page by default |
| `WooCommerce.WooCommerceConnector.GetProductSearchResults` | src/WooCommerceConnector.php:52-64 | guard naming getProductSearchResults; otherwise exactly one GET of the search path |
| `WooCommerce.WooCommerceConnector.GetProduct` | src/WooCommerceConnector.php:67-80 | guard naming getProduct; otherwise exactly one GET by slug |
| `WooCommerce.WooCommerceConnector.GetOrdersForUser` | src/WooCommerceConnector.php:82-97 | guard naming getOrdersForUser; otherwise exactly one GET of the customer's orders asking for JSON |
| `WooCommerce.WooCommerceConnector.GetAllOrders` | src/WooCommerceConnector.php:99-114 | guard naming getAllOrders; otherwise exactly one GET of all orders asking for JSON, 6 per page by default |
| `WooCommerce.WooCommerceConnector.PostOrder` | src/WooCommerceConnector.php:116-125 | no guard: always exactly one POST of the order, and the envelope of the reply |
| `WooCommerce.WooCommerceConnector.GetWooCommerceUrl` | src/WooCommerceConnector.php:141-148 | the stored URL normalised to a trailing slash: the result ends with '/', and is the stored URL itself exactly when that already ends with '/' |
| `WooCommerce.WooCommerceConnector.SetWooCommerceUrl` | src/WooCommerceConnector.php:154-160 | stores the URL as given and merges base_uri = the normalised URL into the shared options, keeping every other option |
| `Scenarios.ListProducts` | src/WooCommerceConnector.php:39-50 | after setting a base URL, a 200 reply with body {"id": 1} gives Success(200, {"id": 1}, headers); the one request went to the products path with base_uri normalised |
| `Scenarios.ListProductsQuery` | src/WooCommerceConnector.php:48 | page 2 with 5 per page sends consumer_key, consumer_secret, per_page=5 and page=2, in that order |
| `Scenarios.RejectedOrder` | src/WooCommerceConnector.php:116-125 | a 422 reply whose body has message 'Invalid SKU' gives Failure('Invalid SKU', 422, that body), even with no base URL set |
| `Scenarios.ZeroBaseUrl` | src/WooCommerceConnector.php:39-47 | with base URL "0": no request and a 400 failure, although the options say base_uri = "0/" |
| `Scenarios.ConnectionErrorEscapes` | src/WooCommerceConnector.php:67-80 | an error the HTTP client throws for getProduct's one request is not caught: the caller gets that error, not an envelope |
| `Scenarios.UnguardedCategories` | src/WooCommerceConnector.php:16-21 | with no base URL, getCategories still sends one request |
| `Scenarios.LastBaseUrlWins` | src/WooCommerceConnector.php:154-160 | when the WordPress URL is set first and the WooCommerce URL second, base_uri is the second URL, normalised; each client still stores its own URL |
| `Scenarios.TrailingSlashScenario` | src/WordPressConnector.php:58-78 | "https://api.example.com" and "https://api.example.com/" both read back as "https://api.example.com/" |

## Findings

| source | as written | input that shows it | evidently intended | confidence | as-written member | corrected member |
|---|---|---|---|---|---|---|
| src/AbstractConnector.php:23-29 (the same code is at 39-45 and 55-61) | the catch branch reads `$query->getBody()`, but `$query` was never assigned because the client call threw. The call stops with an uncaught error instead of returning an envelope | a client call that raises `BadRequestException` with message "Bad Request" and code 400 | a failure envelope with the exception's message and code, and no response data | high, not executed | `Responses.ExchangeAsWritten` | `Responses.Exchange` |

The connector methods (`Get`, `Put`, `Post` and every endpoint) use the
corrected `Exchange`.

## Left out

- The HTTP transport (Guzzle) is not modelled. Its replies come from the
  `upstream` oracle. So do its exceptions. `Reply.Raised` stands for the
  BadRequestException the connectors catch. `Reply.Thrown` stands for
  every other exception: the client's own connection errors, which the
  connectors do not catch and which reach the caller. Exception classes
  and codes of uncaught exceptions are not modelled, only their message.
- `Responses.Exchange`: the stack trace and the `trace` and `stack` data
  entries of the catch branch are not modelled. These are runtime
  diagnostics. The corrected failure carries empty data.
- The `catch (\Exception)` branch of `response()`
  (src/AbstractConnector.php:98-106) is left out. It guards reading the
  body stream (`getBody()->getContents()`), which happens inside code that
  is not part of this model. `json_decode` without `JSON_THROW_ON_ERROR`
  returns null instead of throwing, and the TypeError of a non-string
  message is an `Error`, which that branch does not catch either.
- `json_decode` is left out. The model is given its result: an object
  decoded as an array, or `None` for null. A body that decodes to a scalar
  or to a top-level JSON list is not modelled.
- `Responses.MessageOf`: a message entry that is an array or a list makes
  PHP raise a TypeError when the message is passed as a `string`. The
  model gives '' for it. Floats are not among the modelled values.
- Integer-keyed PHP arrays are not modelled. `array_merge` renumbers
  integer keys, and numeric strings become integer keys. The model's keys
  are strings, as all configuration keys in the source are. JSON lists are
  modelled as `List`.
- Key order in PHP arrays is not modelled. Maps are unordered.
- `client()` (src/AbstractConnector.php:141-144) is left out. `$this->client`
  is never assigned, so every call builds a new client from the current
  options. This is why each logged `Request` records the options in force.
- `Transport.AbstractConnector.AddConfig`: the push to a fresh client at
  src/AbstractConnector.php:75 is left out. Guzzle's client has no
  `addConfig` method, so that call may throw after line 74 has already
  merged the options. The model returns normally after the merge.
- `env()` lookups for the consumer key and secret
  (src/WooCommerceConnector.php:132-133) are left out. The key and secret
  are constructor parameters.
- The texts of the `ErrorMessages` constants are not part of this model.
  Distinct stand-in strings replace them.
- src/YpaApiConnectorServiceProvider.php is left out. It is framework
  registration only.
- URL encoding is left out. The source concatenates slugs and search terms
  unencoded, and so does the model. The read-back lemmas therefore require
  those strings to hold no '&'.
