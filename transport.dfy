/** The base connector: the client options it keeps, the requests it
    issues through the HTTP client and the envelope it makes of each reply. */
module Transport {
  import opened Php
  import opened Responses

  datatype Verb = GET | PUT | POST

  /** One call made through the HTTP client: the verb, the URI, the
      per-request options and the client options in force, since every call
      builds its client from the connector's current options. */
  datatype Request = Request(verb: Verb, uri: string, options: Assoc, config: Assoc)

  /** The per-request options `['headers' => ['Accept' => 'application/json']]`. */
  function AcceptJson(): (o: Assoc)
    ensures o.Keys == {"headers"} && o["headers"].Arr?
    ensures o["headers"].entries.Keys == {"Accept"} && o["headers"].entries["Accept"] == Str("application/json")
  {
    map["headers" := Arr(map["Accept" := Str("application/json")])]
  }

  class AbstractConnector {
    /** The HTTP client options. */
    var config: Assoc
    /** Every request issued so far, oldest first. */
    var log: seq<Request>
    /** The upstream side: the reply to the n-th request (counting from 0). */
    const upstream: (nat, Request) -> Reply

    constructor (upstream: (nat, Request) -> Reply)
      ensures config == map["http_errors" := Bool(false), "Content-Type" := Str("application/json")]
      ensures log == [] && this.upstream == upstream
    {
      config := map["http_errors" := Bool(false), "Content-Type" := Str("application/json")];
      log := [];
      this.upstream := upstream;
    }

    /** setConfig: replaces the options outright. */
    method SetConfig(pConfig: Assoc)
      modifies this`config
      ensures config == pConfig
    {
      config := pConfig;
    }

    /** addConfig: merges into the options, the new keys winning. */
    method AddConfig(pConfig: Assoc)
      modifies this`config
      ensures config == Merge(old(config), pConfig)
    {
      SetConfig(Merge(config, pConfig));
    }

    method Get(pUri: string, pOptions: Assoc := map[]) returns (r: Outcome)
      modifies this`log
      ensures Issued(this, Request(GET, pUri, pOptions, config), r)
    {
      var request := Request(GET, pUri, pOptions, config);
      var reply := upstream(|log|, request);
      log := log + [request];
      r := Exchange(reply);
    }

    method Put(pUri: string, pOptions: Assoc := map[]) returns (r: Outcome)
      modifies this`log
      ensures Issued(this, Request(PUT, pUri, pOptions, config), r)
    {
      var request := Request(PUT, pUri, pOptions, config);
      var reply := upstream(|log|, request);
      log := log + [request];
      r := Exchange(reply);
    }

    method Post(pUri: string, pOptions: Assoc := map[]) returns (r: Outcome)
      modifies this`log
      ensures Issued(this, Request(POST, pUri, pOptions, config), r)
    {
      var request := Request(POST, pUri, pOptions, config);
      var reply := upstream(|log|, request);
      log := log + [request];
      r := Exchange(reply);
    }
  }

  /** Exactly one request, `request`, was issued through `c` since the old
      state, and `r` is what the call makes of the reply to it. */
  twostate predicate Issued(c: AbstractConnector, request: Request, r: Outcome)
    reads c
  {
    && c.log == old(c.log) + [request]
    && r == Exchange(c.upstream(|old(c.log)|, request))
  }

  /** Options added with addConfig travel with every later request, next to
      the options that were there before. */
  method AddedOptionsTravel(c: AbstractConnector, extra: Assoc, uri: string) returns (r: Outcome)
    modifies c
    ensures |c.log| == |old(c.log)| + 1
    ensures c.log[|c.log| - 1].config.Keys == old(c.config).Keys + extra.Keys
    ensures forall k :: k in extra ==> k in c.log[|c.log| - 1].config && c.log[|c.log| - 1].config[k] == extra[k]
    ensures forall k :: k in old(c.config) && k !in extra ==>
              k in c.log[|c.log| - 1].config && c.log[|c.log| - 1].config[k] == old(c.config)[k]
  {
    c.AddConfig(extra);
    r := c.Get(uri);
  }
}
