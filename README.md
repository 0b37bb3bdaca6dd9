# pymailgun client, modelled in Dafny

A model of `Client` from `pymailgun/client.py`, a thin client for Mailgun's
HTTP API. The model covers the decisions the client takes on top of the
network:

- which sending domain to use when none is given (`guess_domain`);
- whether a domain is one of the account's domains (`check_domain`), and
  how construction combines the two before setting `self.domain`;
- the request path every call goes through (`__request`): the response
  cache, the single round trip, and the translation of HTTP statuses into
  `MailgunCredentialsError` and `MailgunError`;
- how `send_mail` builds its form payload and attachment list, and that it
  always reaches the provider.

The network is an oracle. `Api.Transport` holds a fixed function
`respond(n, request)` giving the status and JSON body of the n-th request,
and a `log` of every request made, so "how many calls reached the provider"
is `|transport.log|`. `Client` is a class whose `cache` (a map from
request key to JSON body) and `domain` fields are updated in place, as in
the source. Its invariant `Valid()` says that every cached value is the
body of a successful response the provider gave to a request with exactly
that key. Python's exceptions are `Failure` values of a `Result`.

Files:

- `wrappers.dfy`: `Option` and `Result`.
- `api.dfy`: JSON values, error kinds, request and response shapes,
  `Translate` (status to error) and the `Transport` oracle.
- `domain_selection.dfy`: decoding the domain listing, `GuessDomain`,
  `CheckDomain`, the domain error message, and `Resolve`. `Resolve` is the
  decision construction takes from one listing.
- `message.dfy`: the send payload and the attachment list.
- `client.dfy`: the `Client` class and three two-call scenarios. These
  cover the cache, listing without the cache, and repeated sends.

Two points worth knowing about the code. This model follows the code in both.

- The docstring of `guess_domain` (client.py:71) says a lone domain is
  used whatever it is. The code only ever picks a `custom` or a `sandbox`
  domain. `GuessNoneExactly` states what the code does.
- The comment at client.py:147-148 keeps `send_mail` from reading the
  cache, so that repeated messages are still sent. Line 114 still stores
  every successful response, including the response to `send_mail`'s
  request, which is made with `use_cache=False`. `Client.SendMail` states
  both facts.

## Model

| member | source | states |
|---|---|---|
| `Api.Translate` | pymailgun/client.py:106-112 | 401 gives the credentials error exactly, with the message `Invalid credentials`. A failure happens exactly for 4xx/5xx statuses. Any other failure status becomes a generic Mailgun error carrying that status. Never a domain error. A success returns the body unchanged. |
| `Api.ToHttp` | pymailgun/client.py:103-105 | The request sent for a key has URL `https://api.mailgun.net/v2/` followed by the path. It uses basic auth `("api", key)` and the same method, data and files as the key. |
| `Api.ToHttpInjective` | pymailgun/client.py:103-105 | Distinct request keys give distinct requests, so a logged request identifies its key. |
| `Api.Transport.Send` | pymailgun/client.py:105 | One round trip: the request is appended to the log. The answer is the oracle's answer for that call index. |
| `DomainSelection.DecodeItems` | pymailgun/client.py:53 | The listing's items decode exactly when every item is an object with a string `name` and a `type`. The records then match the items one for one, in order. Otherwise the result is a shape error. |
| `DomainSelection.Iterated` | pymailgun/client.py:53 | What iterating `items` yields: a list gives its elements. An empty string or empty object gives no entries. Any other value gives nothing, as Python raises there or yields strings that `d['name']` rejects. |
| `DomainSelection.DecodeListing` | pymailgun/client.py:53 | Decoding succeeds exactly when the body is an object whose `items` iterates to entries that all decode. The records then match those entries one for one, in order. Any other body gives the shape error and nothing else. |
| `DomainSelection.Names` | pymailgun/client.py:53 | The name comprehension: one name per record, in listing order. Every listed record's name is in it. |
| `DomainSelection.OfKind` | pymailgun/client.py:81 | The filter comprehension keeps exactly the listed records of the requested type: every one of them, and no other. The result is no longer than the listing. |
| `DomainSelection.OfKindConcat` | pymailgun/client.py:81-84 | Filtering a concatenation filters each part and keeps the parts in order. So the filtered records keep listing order. |
| `DomainSelection.GuessDomain` | pymailgun/client.py:68-86 | Any guessed name is one of the listed names. It belongs to a `custom` or `sandbox` record, never another type. With the sandbox flag set, it belongs to a `sandbox` record. |
| `DomainSelection.OfKindStartsAtFirst` | pymailgun/client.py:81-84 | If i is the first position of a type, the filtered list is non-empty and starts with the record at i. |
| `DomainSelection.OfKindEmpty` | pymailgun/client.py:82-85 | The filtered list is empty exactly when no record has that type. |
| `DomainSelection.GuessPicksFirstCustom` | pymailgun/client.py:79-83 | Without the sandbox flag, the guess is the name of the first `custom` record in listing order. |
| `DomainSelection.GuessPicksFirstSandbox` | pymailgun/client.py:84-86 | With the sandbox flag, or when no record is `custom`, the guess is the name of the first `sandbox` record in listing order. |
| `DomainSelection.GuessNoneExactly` | pymailgun/client.py:79-86 | Nothing is guessed exactly when no record is `sandbox` and no `custom` record is eligible. So a lone domain of another type yields nothing. |
| `DomainSelection.CheckDomain` | pymailgun/client.py:53-58 | The check passes exactly when a domain is given and is among the listed names. Otherwise it raises a domain error, which is a Mailgun error. |
| `DomainSelection.DomainMessageShape` | pymailgun/client.py:55-58 | The message starts with `Invalid domain `, then shows the domain (`None` when absent), and ends with all names joined by `", "`. |
| `DomainSelection.JoinSuffix` | pymailgun/client.py:57 | From the start of item i on, the joined string is the join of the items from i on. |
| `DomainSelection.JoinAt` | pymailgun/client.py:57 | `', '.join(names)` holds each name at its offset, in list order. Exactly one separator sits between neighbours, and the last name ends the string. |
| `DomainSelection.GuessFromListing` | pymailgun/client.py:78-86 | `guess_domain` on the listing response. The listing's error propagates. A malformed listing gives the shape error. Otherwise the result is `GuessDomain` on the decoded records, so any guess is a listed name. |
| `DomainSelection.CheckAgainstListing` | pymailgun/client.py:53-58 | `check_domain` on the listing response. The listing's error propagates. A malformed listing gives the shape error. Otherwise the result is `CheckDomain` on the listed names. It passes exactly when the listing decodes and lists the domain. |
| `DomainSelection.Given` | pymailgun/client.py:42 | A domain argument counts as given exactly when it is neither `None` nor the empty string, Python's truthiness. |
| `DomainSelection.Resolve` | pymailgun/client.py:42-45 | Construction's outcome on one listing. A failing listing's error propagates. A malformed listing gives the shape error. A success is always a listed name. An explicit truthy domain is kept as it is. |
| `DomainSelection.ResolveFailsExactlyWhenAbsent` | pymailgun/client.py:42-58 | On a well-formed listing, an explicit domain succeeds iff it is listed. A guessed domain always succeeds, so construction without a domain fails iff nothing is guessed. Failure is a domain error whose message names the domain or `None`. |
| `Message.Payload` | pymailgun/client.py:131-138 | `from`, `to`, `subject` and `text` are always present with their values. `html`, `cc` and `bcc` are present iff truthy, then with their value. No other field appears. |
| `Message.BuildPayload` | pymailgun/client.py:131-138 | The conditional insertions build exactly `Payload`. |
| `Message.Paths` | pymailgun/client.py:141-143 | Falsy `files` give no paths. A single path becomes a one-element list. A list is taken as it is. |
| `Message.Attachments` | pymailgun/client.py:140-145 | One entry per path, in order, each under the field name `attachment` with that path opened. |
| `Message.Attach` | pymailgun/client.py:140-145 | The appending loop builds exactly `Attachments`. |
| `MailgunClient.SendKey` | pymailgun/client.py:149-150 | A send is a POST to the path `{domain}/messages`. It carries `Payload` as data and `Attachments` as files. |
| `MailgunClient.Store` | pymailgun/client.py:113-114 | After a request that reached the network, a success is stored under its key and errors add nothing. No other entry changes. |
| `MailgunClient.Client.constructor` | pymailgun/client.py:39-41 | A new client starts with an empty cache, the given key and no domain. |
| `MailgunClient.Client.Request` | pymailgun/client.py:88-115 | With `use_cache` set and the key cached: returns the cached value, makes no call and leaves the cache alone. Otherwise: exactly one call, the translated answer is returned, and the cache becomes `Store` of the old cache. Any success, cached or not, is the translated answer the provider gave to an earlier logged request with this key. `Valid()` is kept. |
| `MailgunClient.Client.Domains` | pymailgun/client.py:60-66 | The same contract, for `GET domains`. |
| `MailgunClient.Client.GuessDomain` | pymailgun/client.py:68-86 | Returns the guess on the cached-or-fetched listing, or that listing's error. Makes at most one call, none when the listing is cached. |
| `MailgunClient.Client.CheckDomain` | pymailgun/client.py:47-58 | Returns the check on the cached-or-fetched listing, or that listing's error. Makes at most one call. |
| `MailgunClient.Client.Configure` | pymailgun/client.py:42-45 | Fails iff `Resolve` fails, with the same error and `domain` left unset. On success, `domain` is the resolved listed name. The listing is fetched at most once across guess and check. |
| `MailgunClient.Client.Connect` | pymailgun/client.py:39-45 | Construction makes exactly one call. A client exists iff `Resolve` succeeds on that call's answer. It is valid, its domain is the resolved name, and its cache holds just the listing. |
| `MailgunClient.Client.SendMail` | pymailgun/client.py:117-150 | Every send makes exactly one call, a POST to `{domain}/messages` with `Payload` and `Attachments`. Its result depends only on the provider's answer, never on the cache. A success is then cached. |
| `MailgunClient.ListTwiceWithCache` | pymailgun/client.py:98-102 | Two cached listings from a cold cache: after a successful first one, the second returns the same value without a call. |
| `MailgunClient.ListTwiceWithoutCache` | pymailgun/client.py:99-105 | Two listings without the cache make two calls. |
| `MailgunClient.SendTwice` | pymailgun/client.py:147-150 | Sending the same message twice, whatever its fields and attachments, makes two identical calls. |

## Left out

- The HTTP library, URL handling beyond concatenation, and JSON decoding of
  the body (client.py:103-105, 113). The transport is an oracle answering
  with a status and an already-decoded JSON value. A body that is not JSON
  is not modelled.
- JSON numbers are whole numbers only (`JNum(n: int)`), so a body holding
  a decimal number cannot be represented. No decision of the client reads
  a number from a body.
- `raise_for_status` internals: a failure is a status from 400 to 599. This
  is the range in which the `requests` library raises.
- The string form of the cache key (client.py:98): keys are the structured
  tuple (method, path, data, files). Python keys two requests alike when
  their `str()` forms coincide. That happens, for instance, for file
  handles on the same path, which the model also keys alike.
- The insertion order of the form payload. The payload is a map, so its
  order in the multipart body and in the key's string form is not modelled.
- `open(f, 'rb')` (client.py:145): an attachment holds the path it was
  opened from. Failures to open, and closing, are not modelled.
- Logging (client.py:8, 101).
- Python type errors from unexpected argument types. `files` is a path, a
  list of paths or nothing. A tuple of paths, for one, is not modelled.
- DomainSelection.DecodeListing: a listing that cannot be read fails with a
  single shape error. This covers a missing `items` and an `items` that
  iterates to something other than objects. It also covers an entry
  without a string `name` or without a `type`. Python raises a
  TypeError, KeyError or AttributeError in these cases. Python reads
  `type` only in `guess_domain`, and a non-string name only fails in
  `check_domain` once the domain is absent. The model treats such entries
  as malformed for both operations. An empty string or empty object as
  `items` is read as an empty listing, as Python iterates it.
- `setup.py`: packaging metadata, no logic.
