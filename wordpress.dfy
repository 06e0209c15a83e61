/** The content-API client: posts of a post type, one post by slug, and the
    base URL it resolves them against. It uses the base connector by
    composition where the original class inherits from it. */
module WordPress {
  import opened Php
  import opened Urls
  import opened Responses
  import opened Transport
  import ErrorMessages

  /** The path getPosts requests: the post type, then page and per_page. */
  function PostsUri(postType: string, page: int, perPage: int): (u: string)
    ensures u == Render(postType, [("page", IntToString(page)), ("per_page", IntToString(perPage))])
  {
    PaginationSeparators();
    var q := "?page=" + IntToString(page);
    QueryFirst("page", "?page=", IntToString(page));
    QueryExtend(q, [("page", IntToString(page))], "per_page", "&per_page=", IntToString(perPage));
    assert [("page", IntToString(page))] + [("per_page", IntToString(perPage))]
        == [("page", IntToString(page)), ("per_page", IntToString(perPage))];
    postType + (q + "&per_page=" + IntToString(perPage))
  }

  /** Proof helper: the literal separators getPosts and getSingle write,
      split into a delimiter, a parameter name and `=`. */
  lemma PaginationSeparators()
    ensures "?page=" == "?" + "page" + "="
    ensures "&per_page=" == "&" + "per_page" + "="
    ensures "?slug=" == "?" + "slug" + "="
  {
  }

  /** The path getSingle requests: the post type, then the slug. */
  function SingleUri(postType: string, slug: string): (u: string)
    ensures u == Render(postType, [("slug", slug)])
  {
    PaginationSeparators();
    QueryFirst("slug", "?slug=", slug);
    postType + ("?slug=" + slug)
  }

  /** A getPosts path reads back as the post type with the page and the page
      size, in that order, whenever the post type holds no '?'. */
  lemma PostsUriReadsBack(postType: string, page: int, perPage: int)
    requires '?' !in postType
    ensures ParseUri(PostsUri(postType, page, perPage))
            == (postType, [("page", IntToString(page)), ("per_page", IntToString(perPage))])
  {
    IntToStringIsQueryValue(page);
    IntToStringIsQueryValue(perPage);
    assert QueryName("page") && QueryName("per_page");
    WellFormedSnoc([], "page", IntToString(page));
    WellFormedSnoc([("page", IntToString(page))], "per_page", IntToString(perPage));
    ParseRender(postType, [("page", IntToString(page)), ("per_page", IntToString(perPage))]);
  }

  /** A getSingle path reads back as the post type with the slug. */
  lemma SingleUriReadsBack(postType: string, slug: string)
    requires '?' !in postType && QueryValue(slug)
    ensures ParseUri(SingleUri(postType, slug)) == (postType, [("slug", slug)])
  {
    assert QueryName("slug");
    WellFormedSnoc([], "slug", slug);
    ParseRender(postType, [("slug", slug)]);
  }

  class WordPressConnector {
    const transport: AbstractConnector
    /** The base URL as it was set, not normalised. */
    var wordPressUrl: string

    constructor (transport: AbstractConnector)
      ensures this.transport == transport && wordPressUrl == ""
    {
      this.transport := transport;
      wordPressUrl := "";
    }

    /** getPosts: without a base URL a 400 failure naming the post type and
        the method, and no request; otherwise one GET of the page asking for
        JSON. */
    method GetPosts(postType: string, page: int := 1, perPage: int := 10) returns (r: Outcome)
      modifies transport`log
      ensures Empty(wordPressUrl) ==> transport.log == old(transport.log)
      ensures Empty(wordPressUrl) ==>
                r == Returned(FailedResponse(ErrorMessages.EmptyWordPressBaseUrl, 400,
                                             map["post_type" := Str(postType), "method" := Str("WordPressConnector->getPosts")]))
      ensures !Empty(wordPressUrl) ==>
                Issued(transport, Request(GET, PostsUri(postType, page, perPage), AcceptJson(), transport.config), r)
    {
      if Empty(wordPressUrl) {
        return Returned(FailedResponse(ErrorMessages.EmptyWordPressBaseUrl, 400,
                                       map["post_type" := Str(postType), "method" := Str("WordPressConnector->getPosts")]));
      }
      r := transport.Get(PostsUri(postType, page, perPage), AcceptJson());
    }

    /** getSingle: without a base URL a 400 failure naming the post type and
        the method, and no request; otherwise one GET by slug with no
        per-request options. */
    method GetSingle(postType: string, slug: string) returns (r: Outcome)
      modifies transport`log
      ensures Empty(wordPressUrl) ==> transport.log == old(transport.log)
      ensures Empty(wordPressUrl) ==>
                r == Returned(FailedResponse(ErrorMessages.EmptyWordPressBaseUrl, 400,
                                             map["post_type" := Str(postType), "method" := Str("WordPressConnector->getSingle")]))
      ensures !Empty(wordPressUrl) ==>
                Issued(transport, Request(GET, SingleUri(postType, slug), map[], transport.config), r)
    {
      if Empty(wordPressUrl) {
        return Returned(FailedResponse(ErrorMessages.EmptyWordPressBaseUrl, 400,
                                       map["post_type" := Str(postType), "method" := Str("WordPressConnector->getSingle")]));
      }
      r := transport.Get(SingleUri(postType, slug));
    }

    /** getWordPressUrl: the stored URL with a trailing slash. */
    function GetWordPressUrl(): (u: string)
      reads this
      ensures u == WithTrailingSlash(wordPressUrl)
      ensures EndsWithSlash(u) && (u == wordPressUrl <==> EndsWithSlash(wordPressUrl))
    {
      WithTrailingSlash(wordPressUrl)
    }

    /** setWordPressUrl: stores the URL as given and merges its normalised
        form into the client options as base_uri. */
    method SetWordPressUrl(pUrl: string)
      modifies this`wordPressUrl, transport`config
      ensures wordPressUrl == pUrl
      ensures transport.config == Merge(old(transport.config), map["base_uri" := Str(WithTrailingSlash(pUrl))])
    {
      wordPressUrl := pUrl;
      transport.AddConfig(map["base_uri" := Str(GetWordPressUrl())]);
    }
  }
}
