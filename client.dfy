/**
 * The Mailgun client: its response cache, the request path shared by all
 * operations, construction with domain resolution, and sending mail.
 */
module MailgunClient {
  import opened Wrappers
  import opened Api
  import opened DomainSelection
  import opened Message

  /** The cache key of the domain listing, GET domains. */
  const ListingKey := RequestKey(Get, "domains", None, None)

  /**
   * The cache after a request that reached the network: a success is
   * stored under the request's key (whatever use_cache said), an error
   * leaves the cache as it was.
   */
  function Store(cache: map<RequestKey, Json>, key: RequestKey, r: Result<Json, Error>): (after: map<RequestKey, Json>)
    ensures r.Success? ==> key in after && after[key] == r.value
    ensures after.Keys == if r.Success? then cache.Keys + {key} else cache.Keys
    ensures forall k :: k in cache && k != key ==> after[k] == cache[k]
    ensures r.Failure? ==> after == cache
  {
    if r.Success? then cache[key := r.value] else cache
  }

  /** The cache key of a send: POST {domain}/messages with the payload and attachments. */
  function SendKey(domain: string, sender: Value, to: Value, subject: Value, text: Value,
                   html: Value, cc: Value, bcc: Value, files: Value): (key: RequestKey)
    ensures key.verb == Post
    ensures |domain| <= |key.path| && key.path[..|domain|] == domain && key.path[|domain|..] == "/messages"
    ensures key.data == Some(Payload(sender, to, subject, text, html, cc, bcc))
    ensures key.files == Some(Attachments(files))
  {
    RequestKey(Post, domain + "/messages", Some(Payload(sender, to, subject, text, html, cc, bcc)),
               Some(Attachments(files)))
  }

  class Client {
    const apiKey: string
    const transport: Transport
    /** The response cache: every success, by request key. */
    var cache: map<RequestKey, Json>
    /** For each cached key, which transport call produced the cached value. */
    ghost var origin: map<RequestKey, nat>
    /** The sending domain; unset (None) until construction has checked it. */
    var domain: Option<string>

    /**
     * Every cached value is the body of a successful response that the
     * provider gave to a request made with exactly that key.
     */
    ghost predicate Valid()
      reads this, transport
    {
      origin.Keys == cache.Keys &&
      forall k | k in origin ::
        origin[k] < |transport.log| &&
        transport.log[origin[k]] == ToHttp(k, apiKey) &&
        Translate(transport.respond(origin[k], transport.log[origin[k]])) == Success(cache[k])
    }

    /** The start of construction: an empty cache, the key, no domain yet. */
    constructor (key: string, transport: Transport)
      ensures Valid()
      ensures apiKey == key && this.transport == transport
      ensures cache == map[] && domain == None
    {
      apiKey := key;
      this.transport := transport;
      cache := map[];
      origin := map[];
      domain := None;
    }

    /** What a request with `key` would return now. */
    function Pending(key: RequestKey, useCache: bool): Result<Json, Error>
      reads this, transport
    {
      if useCache && key in cache then Success(cache[key])
      else Translate(transport.Next(ToHttp(key, apiKey)))
    }

    /**
     * The request every operation goes through. A cached answer is used
     * only when use_cache is set; otherwise exactly one request reaches
     * the transport, its status is translated, and a success is cached.
     */
    method Request(verb: HttpMethod, path: string, data: Option<Form>, files: Option<seq<Attachment>>,
                   useCache: bool) returns (r: Result<Json, Error>)
      requires Valid()
      modifies this, transport
      ensures Valid() && domain == old(domain)
      ensures var key := RequestKey(verb, path, data, files);
              && r == old(Pending(key, useCache))
              && if useCache && key in old(cache) then
                   cache == old(cache) && transport.log == old(transport.log)
                 else
                   && transport.log == old(transport.log) + [ToHttp(key, apiKey)]
                   && cache == Store(old(cache), key, r)
      ensures r.Success? ==>
                exists i :: 0 <= i < |transport.log| && transport.log[i] == ToHttp(RequestKey(verb, path, data, files), apiKey) &&
                            Translate(transport.respond(i, transport.log[i])) == r
    {
      var key := RequestKey(verb, path, data, files);
      if useCache && key in cache {
        ghost var i := origin[key];
        assert transport.log[i] == ToHttp(key, apiKey);
        return Success(cache[key]);
      }
      var resp := transport.Send(ToHttp(key, apiKey));
      r := Translate(resp);
      if r.Success? {
        cache := cache[key := r.value];
        origin := origin[key := |transport.log| - 1];
      }
    }

    /** All domains of the account (GET domains). */
    method Domains(useCache: bool) returns (r: Result<Json, Error>)
      requires Valid()
      modifies this, transport
      ensures Valid() && domain == old(domain)
      ensures r == old(Pending(ListingKey, useCache))
      ensures if useCache && ListingKey in old(cache) then
                cache == old(cache) && transport.log == old(transport.log)
              else
                && transport.log == old(transport.log) + [ToHttp(ListingKey, apiKey)]
                && cache == Store(old(cache), ListingKey, r)
    {
      r := Request(Get, "domains", None, None, useCache);
    }

    /** guess_domain, on the (cached) listing. */
    method GuessDomain(sandbox: bool) returns (r: Result<Option<string>, Error>)
      requires Valid()
      modifies this, transport
      ensures Valid() && domain == old(domain)
      ensures r == GuessFromListing(old(Pending(ListingKey, true)), sandbox)
      ensures cache == Store(old(cache), ListingKey, old(Pending(ListingKey, true)))
      ensures transport.log == old(transport.log) + (if ListingKey in old(cache) then [] else [ToHttp(ListingKey, apiKey)])
    {
      var listing := Domains(true);
      if listing.Failure? {
        return Failure(listing.error);
      }
      var records := DecodeListing(listing.value);
      if records.Failure? {
        return Failure(records.error);
      }
      r := Success(DomainSelection.GuessDomain(records.value, sandbox));
    }

    /** check_domain, on the (cached) listing; None when the domain is listed. */
    method CheckDomain(d: Option<string>) returns (failure: Option<Error>)
      requires Valid()
      modifies this, transport
      ensures Valid() && domain == old(domain)
      ensures failure == CheckAgainstListing(old(Pending(ListingKey, true)), d)
      ensures cache == Store(old(cache), ListingKey, old(Pending(ListingKey, true)))
      ensures transport.log == old(transport.log) + (if ListingKey in old(cache) then [] else [ToHttp(ListingKey, apiKey)])
    {
      var listing := Domains(true);
      if listing.Failure? {
        return Some(listing.error);
      }
      var records := DecodeListing(listing.value);
      if records.Failure? {
        return Some(records.error);
      }
      failure := DomainSelection.CheckDomain(d, Names(records.value));
    }

    /**
     * The rest of construction: the explicit domain, or a guessed one when
     * none is given, is checked against the listing and only then becomes
     * the client's domain. The listing is fetched at most once.
     */
    method Configure(requested: Option<string>, sandbox: bool) returns (failure: Option<Error>)
      requires Valid()
      modifies this, transport
      ensures Valid()
      ensures var outcome := old(Resolve(Pending(ListingKey, true), requested, sandbox));
              && (failure.None? <==> outcome.Success?)
              && (failure.Some? ==> failure.value == outcome.error && domain == old(domain))
              && (failure.None? ==> domain == Some(outcome.value))
      ensures cache == Store(old(cache), ListingKey, old(Pending(ListingKey, true)))
      ensures transport.log == old(transport.log) + (if ListingKey in old(cache) then [] else [ToHttp(ListingKey, apiKey)])
    {
      ghost var listing := Pending(ListingKey, true);
      ghost var outcome := Resolve(listing, requested, sandbox);
      var d := requested;
      if !Given(requested) {
        var guess := GuessDomain(sandbox);
        if guess.Failure? {
          assert outcome == Failure(guess.error);
          return Some(guess.error);
        }
        d := guess.value;
        assert Pending(ListingKey, true) == listing;
      }
      failure := CheckDomain(d);
      assert failure == CheckAgainstListing(listing, d);
      assert outcome == if failure.Some? then Failure(failure.value) else Success(d.value);
      if failure.None? {
        domain := d;
      }
    }

    /**
     * Constructs a client: with an empty cache, exactly one listing
     * request reaches the provider, and the client exists only when the
     * resolved domain is listed.
     */
    static method Connect(key: string, transport: Transport, requested: Option<string>, sandbox: bool)
      returns (r: Result<Client, Error>)
      modifies transport
      ensures var listing := Translate(old(transport.Next(ToHttp(ListingKey, key))));
              var outcome := Resolve(listing, requested, sandbox);
              && (r.Success? <==> outcome.Success?)
              && (r.Failure? ==> r.error == outcome.error)
              && (r.Success? ==> fresh(r.value) && r.value.Valid() && r.value.transport == transport &&
                                 r.value.apiKey == key && r.value.domain == Some(outcome.value) &&
                                 r.value.cache == map[ListingKey := listing.value])
      ensures transport.log == old(transport.log) + [ToHttp(ListingKey, key)]
    {
      var c := new Client(key, transport);
      var failure := c.Configure(requested, sandbox);
      if failure.Some? {
        return Failure(failure.value);
      }
      r := Success(c);
    }

    /**
     * send_mail: always exactly one request to the provider, whatever the
     * cache holds; a successful response is cached like any other.
     */
    method SendMail(sender: Value, to: Value, subject: Value, text: Value,
                    html: Value, cc: Value, bcc: Value, files: Value) returns (r: Result<Json, Error>)
      requires Valid() && domain.Some?
      modifies this, transport
      ensures Valid() && domain == old(domain)
      ensures var key := SendKey(domain.value, sender, to, subject, text, html, cc, bcc, files);
              && r == Translate(transport.respond(|old(transport.log)|, ToHttp(key, apiKey)))
              && transport.log == old(transport.log) + [ToHttp(key, apiKey)]
              && cache == Store(old(cache), key, r)
    {
      var data := BuildPayload(sender, to, subject, text, html, cc, bcc);
      var attached := Attach(files);
      r := Request(Post, domain.value + "/messages", Some(data), Some(attached), false);
    }
  }

  /** Listing the domains twice with use_cache reaches the provider once when the first succeeds. */
  method ListTwiceWithCache(c: Client) returns (first: Result<Json, Error>, second: Result<Json, Error>)
    requires c.Valid() && ListingKey !in c.cache
    modifies c, c.transport
    ensures c.Valid()
    ensures first.Success? ==> second == first && |c.transport.log| == |old(c.transport.log)| + 1
    ensures first.Failure? ==> |c.transport.log| == |old(c.transport.log)| + 2
  {
    first := c.Domains(true);
    second := c.Domains(true);
  }

  /** Listing the domains without use_cache reaches the provider every time. */
  method ListTwiceWithoutCache(c: Client) returns (first: Result<Json, Error>, second: Result<Json, Error>)
    requires c.Valid()
    modifies c, c.transport
    ensures c.Valid()
    ensures c.transport.log == old(c.transport.log) + [ToHttp(ListingKey, c.apiKey), ToHttp(ListingKey, c.apiKey)]
  {
    first := c.Domains(false);
    second := c.Domains(false);
  }

  /** Sending the same message twice makes two identical requests: sends are never served from the cache. */
  method SendTwice(c: Client, sender: Value, to: Value, subject: Value, text: Value,
                   html: Value, cc: Value, bcc: Value, files: Value)
    returns (first: Result<Json, Error>, second: Result<Json, Error>)
    requires c.Valid() && c.domain.Some?
    modifies c, c.transport
    ensures c.Valid() && c.domain == old(c.domain)
    ensures var req := ToHttp(SendKey(c.domain.value, sender, to, subject, text, html, cc, bcc, files), c.apiKey);
            c.transport.log == old(c.transport.log) + [req, req]
  {
    first := c.SendMail(sender, to, subject, text, html, cc, bcc, files);
    second := c.SendMail(sender, to, subject, text, html, cc, bcc, files);
  }
}
