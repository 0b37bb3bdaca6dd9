/**
 * Choosing and validating the sending domain from the provider's domain
 * listing (Client.guess_domain and Client.check_domain, and the decision
 * Client.__init__ takes from them), as functions of that listing.
 */
module DomainSelection {
  import opened Wrappers
  import opened Api

  /** The `type` of a listed domain; any other JSON value is kept as Other. */
  datatype DomainKind = Custom | Sandbox | Other(tag: Json)

  datatype DomainRecord = DomainRecord(name: string, kind: DomainKind)

  function KindOf(tag: Json): DomainKind {
    if tag == JStr("custom") then Custom
    else if tag == JStr("sandbox") then Sandbox
    else Other(tag)
  }

  /** One entry of `items`: an object with a string `name` and a `type`. */
  function DecodeRecord(item: Json): Option<DomainRecord> {
    match item
    case JObject(fields) =>
      if "name" in fields && fields["name"].JStr? && "type" in fields
      then Some(DomainRecord(fields["name"].s, KindOf(fields["type"])))
      else None
    case _ => None
  }

  function DecodeItems(items: seq<Json>): (r: Result<seq<DomainRecord>, Error>)
    ensures r.Success? <==> forall i :: 0 <= i < |items| ==> DecodeRecord(items[i]).Some?
    ensures r.Success? ==> |r.value| == |items|
    ensures r.Success? ==> forall i :: 0 <= i < |items| ==> DecodeRecord(items[i]) == Some(r.value[i])
    ensures r.Failure? ==> r.error == ShapeError
  {
    if items == [] then Success([])
    else match DecodeRecord(items[0])
      case None => Failure(ShapeError)
      case Some(d) =>
        var rest := DecodeItems(items[1..]);
        if rest.Failure? then rest
        else
          assert forall i :: 1 <= i < |items| ==> items[i] == items[1..][i - 1];
          Success([d] + rest.value)
  }

  /**
   * What iterating `items` yields: a list its elements, and an empty
   * string or an empty object nothing. Iterating anything else either
   * fails or yields strings, on which `d['name']` fails.
   */
  function Iterated(items: Json): (r: Option<seq<Json>>)
    ensures items.JArray? ==> r == Some(items.elems)
    ensures r.Some? && !items.JArray? ==> r == Some([])
    ensures r.None? <==> !items.JArray? && items != JStr("") && items != JObject(map[])
  {
    match items
    case JArray(elems) => Some(elems)
    case JStr(s) => if s == [] then Some([]) else None
    case JObject(fields) => if fields == map[] then Some([]) else None
    case _ => None
  }

  /**
   * The `items` of a listing body, decoded: it succeeds exactly when the
   * body is an object whose `items` iterates to entries that all decode,
   * and then yields those entries' records one for one, in order.
   */
  function DecodeListing(body: Json): (r: Result<seq<DomainRecord>, Error>)
    ensures r.Success? <==>
      body.JObject? && "items" in body.fields && Iterated(body.fields["items"]).Some? &&
      forall i :: 0 <= i < |Iterated(body.fields["items"]).value| ==>
        DecodeRecord(Iterated(body.fields["items"]).value[i]).Some?
    ensures r.Success? ==>
      var items := Iterated(body.fields["items"]).value;
      |r.value| == |items| &&
      forall i :: 0 <= i < |items| ==> DecodeRecord(items[i]) == Some(r.value[i])
    ensures r.Failure? ==> r.error == ShapeError
  {
    if body.JObject? && "items" in body.fields && Iterated(body.fields["items"]).Some?
    then DecodeItems(Iterated(body.fields["items"]).value)
    else Failure(ShapeError)
  }

  /** The names of the listed domains, in listing order. */
  function Names(records: seq<DomainRecord>): (names: seq<string>)
    ensures |names| == |records|
    ensures forall i :: 0 <= i < |records| ==> names[i] == records[i].name
    ensures forall d :: d in records ==> d.name in names
  {
    seq(|records|, i requires 0 <= i < |records| => records[i].name)
  }

  /** The listed domains of one kind, in listing order. */
  function OfKind(records: seq<DomainRecord>, k: DomainKind): (r: seq<DomainRecord>)
    ensures |r| <= |records|
    ensures forall d :: d in r ==> d in records && d.kind == k
    ensures forall d :: d in records && d.kind == k ==> d in r
  {
    if records == [] then []
    else if records[0].kind == k then [records[0]] + OfKind(records[1..], k)
    else OfKind(records[1..], k)
  }

  /**
   * The domain guess_domain picks: unless the sandbox is asked for, the
   * first custom domain; failing that, the first sandbox domain; else none.
   */
  function GuessDomain(records: seq<DomainRecord>, sandbox: bool): (r: Option<string>)
    ensures r.Some? ==> r.value in Names(records)
    ensures r.Some? ==> exists d :: d in records && d.name == r.value && (d.kind == Custom || d.kind == Sandbox)
    ensures sandbox && r.Some? ==> exists d :: d in records && d.name == r.value && d.kind == Sandbox
  {
    var custom := OfKind(records, Custom);
    if !sandbox && |custom| > 0 then
      Some(custom[0].name)
    else
      var sandboxed := OfKind(records, Sandbox);
      if |sandboxed| > 0 then
        Some(sandboxed[0].name)
      else None
  }

  /** `i` is the position of the first listed domain of kind `k`. */
  predicate FirstOfKind(records: seq<DomainRecord>, k: DomainKind, i: int) {
    0 <= i < |records| && records[i].kind == k &&
    forall j :: 0 <= j < i ==> records[j].kind != k
  }

  predicate NoneOfKind(records: seq<DomainRecord>, k: DomainKind) {
    forall j :: 0 <= j < |records| ==> records[j].kind != k
  }

  lemma {:induction false} OfKindStartsAtFirst(records: seq<DomainRecord>, k: DomainKind, i: int)
    requires FirstOfKind(records, k, i)
    ensures |OfKind(records, k)| > 0 && OfKind(records, k)[0] == records[i]
  {
    if i > 0 {
      assert FirstOfKind(records[1..], k, i - 1);
      OfKindStartsAtFirst(records[1..], k, i - 1);
    }
  }

  /**
   * Filtering a concatenation filters each part and keeps them in order;
   * with the one-record case (the definition) this fixes the order of
   * OfKind as the listing order.
   */
  lemma {:induction false} OfKindConcat(a: seq<DomainRecord>, b: seq<DomainRecord>, k: DomainKind)
    ensures OfKind(a + b, k) == OfKind(a, k) + OfKind(b, k)
  {
    if a != [] {
      assert (a + b)[1..] == a[1..] + b;
      OfKindConcat(a[1..], b, k);
    } else {
      assert a + b == b;
    }
  }

  lemma {:induction false} OfKindEmpty(records: seq<DomainRecord>, k: DomainKind)
    ensures OfKind(records, k) == [] <==> NoneOfKind(records, k)
  {
    if records != [] {
      OfKindEmpty(records[1..], k);
      assert forall j :: 1 <= j < |records| ==> records[j] == records[1..][j - 1];
    }
  }

  /** Without the sandbox flag, the first custom domain in listing order wins. */
  lemma GuessPicksFirstCustom(records: seq<DomainRecord>, i: int)
    requires FirstOfKind(records, Custom, i)
    ensures GuessDomain(records, false) == Some(records[i].name)
  {
    OfKindStartsAtFirst(records, Custom, i);
  }

  /**
   * With the sandbox flag, or when no custom domain is listed, the first
   * sandbox domain in listing order wins.
   */
  lemma GuessPicksFirstSandbox(records: seq<DomainRecord>, sandbox: bool, i: int)
    requires sandbox || NoneOfKind(records, Custom)
    requires FirstOfKind(records, Sandbox, i)
    ensures GuessDomain(records, sandbox) == Some(records[i].name)
  {
    OfKindEmpty(records, Custom);
    OfKindStartsAtFirst(records, Sandbox, i);
  }

  /**
   * No domain is guessed exactly when there is no sandbox domain and no
   * custom domain is eligible; a lone domain of another type is never used.
   */
  lemma GuessNoneExactly(records: seq<DomainRecord>, sandbox: bool)
    ensures GuessDomain(records, sandbox).None? <==>
            NoneOfKind(records, Sandbox) && (sandbox || NoneOfKind(records, Custom))
  {
    OfKindEmpty(records, Custom);
    OfKindEmpty(records, Sandbox);
  }

  /** Python's `sep.join(xs)`. */
  function Join(xs: seq<string>, sep: string): string {
    if |xs| == 0 then ""
    else if |xs| == 1 then xs[0]
    else xs[0] + sep + Join(xs[1..], sep)
  }

  /** Where the i-th item starts in Join(xs, sep). */
  function Offset(xs: seq<string>, sep: string, i: nat): nat
    requires i <= |xs|
  {
    if i == 0 then 0 else |xs[0]| + |sep| + Offset(xs[1..], sep, i - 1)
  }

  lemma {:induction false} OffsetStep(xs: seq<string>, sep: string, i: nat)
    requires i < |xs|
    ensures Offset(xs, sep, i + 1) == Offset(xs, sep, i) + |xs[i]| + |sep|
  {
    if i > 0 {
      OffsetStep(xs[1..], sep, i - 1);
    }
  }

  /** From the start of item i on, Join(xs, sep) is the join of the items from i on. */
  lemma {:induction false} JoinSuffix(xs: seq<string>, sep: string, i: nat)
    requires i < |xs|
    ensures Offset(xs, sep, i) <= |Join(xs, sep)|
    ensures Join(xs, sep)[Offset(xs, sep, i)..] == Join(xs[i..], sep)
  {
    if i > 0 {
      var rest := Join(xs[1..], sep);
      var p := |xs[0]| + |sep|;
      JoinSuffix(xs[1..], sep, i - 1);
      assert xs[1..][i - 1..] == xs[i..];
      assert Join(xs, sep) == xs[0] + sep + rest;
      assert Join(xs, sep)[p..] == rest;
    }
  }

  /**
   * Join(xs, sep) is the items in order with `sep` between neighbours:
   * item i sits at Offset(xs, sep, i), a separator follows it unless it is
   * the last, and the last item ends the string.
   */
  lemma JoinAt(xs: seq<string>, sep: string, i: nat)
    requires i < |xs|
    ensures Offset(xs, sep, i) + |xs[i]| <= |Join(xs, sep)|
    ensures Join(xs, sep)[Offset(xs, sep, i)..Offset(xs, sep, i) + |xs[i]|] == xs[i]
    ensures i + 1 < |xs| ==> Offset(xs, sep, i + 1) == Offset(xs, sep, i) + |xs[i]| + |sep|
    ensures i + 1 < |xs| ==> Offset(xs, sep, i + 1) <= |Join(xs, sep)|
    ensures i + 1 < |xs| ==>
      Join(xs, sep)[Offset(xs, sep, i) + |xs[i]|..Offset(xs, sep, i + 1)] == sep
    ensures i + 1 == |xs| ==> |Join(xs, sep)| == Offset(xs, sep, i) + |xs[i]|
  {
    var o := Offset(xs, sep, i);
    JoinSuffix(xs, sep, i);
    OffsetStep(xs, sep, i);
    var tail := Join(xs[i..], sep);
    assert Join(xs, sep)[o..] == tail;
    if i + 1 < |xs| {
      assert tail == xs[i] + sep + Join(xs[i + 1..], sep) by {
        assert xs[i..][1..] == xs[i + 1..];
      }
    }
  }

  /** How str.format shows the checked domain: a name as is, an absent one as None. */
  function Shown(domain: Option<string>): string {
    if domain.Some? then domain.value else "None"
  }

  const MessageHead := "Invalid domain "
  const MessageMiddle := ". Available domains: "

  function DomainMessage(domain: Option<string>, names: seq<string>): string {
    MessageHead + Shown(domain) + MessageMiddle + Join(names, ", ")
  }

  /** check_domain: the domain must be one of the listed names. */
  function CheckDomain(domain: Option<string>, names: seq<string>): (failure: Option<Error>)
    ensures failure.None? <==> domain.Some? && domain.value in names
    ensures failure.Some? ==> failure.value.DomainError? && failure.value.IsMailgunError()
  {
    if domain.Some? && domain.value in names then None
    else Some(DomainError(DomainMessage(domain, names)))
  }

  /** Where the list of names starts in a domain error's message. */
  function NamesStart(domain: Option<string>): nat {
    |MessageHead| + |Shown(domain)| + |MessageMiddle|
  }

  /**
   * The message of a domain error names the rejected domain right after
   * its head, and ends with every listed name joined by ", " (so, with
   * JoinAt, each name in listing order).
   */
  lemma DomainMessageShape(domain: Option<string>, names: seq<string>)
    ensures var m := DomainMessage(domain, names);
            && NamesStart(domain) <= |m|
            && m[..|MessageHead|] == MessageHead
            && m[|MessageHead|..|MessageHead| + |Shown(domain)|] == Shown(domain)
            && m[NamesStart(domain)..] == Join(names, ", ")
  {
    var m := DomainMessage(domain, names);
    var h := |MessageHead|;
    assert m == (MessageHead + Shown(domain)) + (MessageMiddle + Join(names, ", "));
    assert m[h..h + |Shown(domain)|] == (MessageHead + Shown(domain))[h..];
  }

  /** guess_domain on the listing response: its error, a shape error, or the guess. */
  function GuessFromListing(listing: Result<Json, Error>, sandbox: bool): (r: Result<Option<string>, Error>)
    ensures listing.Failure? ==> r == Failure(listing.error)
    ensures listing.Success? && DecodeListing(listing.value).Failure? ==> r == Failure(ShapeError)
    ensures listing.Success? && DecodeListing(listing.value).Success? ==>
              r == Success(GuessDomain(DecodeListing(listing.value).value, sandbox))
    ensures r.Success? && r.value.Some? ==>
              listing.Success? && r.value.value in Names(DecodeListing(listing.value).value)
  {
    if listing.Failure? then Failure(listing.error)
    else
      var decoded := DecodeListing(listing.value);
      if decoded.Failure? then Failure(decoded.error)
      else Success(GuessDomain(decoded.value, sandbox))
  }

  /** check_domain on the listing response: its error, a shape error, or the check. */
  function CheckAgainstListing(listing: Result<Json, Error>, domain: Option<string>): (failure: Option<Error>)
    ensures listing.Failure? ==> failure == Some(listing.error)
    ensures listing.Success? && DecodeListing(listing.value).Failure? ==> failure == Some(ShapeError)
    ensures listing.Success? && DecodeListing(listing.value).Success? ==>
              failure == CheckDomain(domain, Names(DecodeListing(listing.value).value))
    ensures failure.None? <==>
              listing.Success? && DecodeListing(listing.value).Success? &&
              domain.Some? && domain.value in Names(DecodeListing(listing.value).value)
  {
    if listing.Failure? then Some(listing.error)
    else
      var decoded := DecodeListing(listing.value);
      if decoded.Failure? then Some(decoded.error)
      else CheckDomain(domain, Names(decoded.value))
  }

  /** A domain argument counts as given when it is truthy (neither None nor empty). */
  predicate Given(requested: Option<string>): (b: bool)
    ensures b <==> requested != None && requested != Some("")
  {
    requested.Some? && requested.value != []
  }

  /**
   * What constructing a client decides from the (single) domain listing:
   * the explicit domain, or the guessed one when none is given, if it is
   * listed; otherwise the listing's error or a domain error.
   */
  function Resolve(listing: Result<Json, Error>, requested: Option<string>, sandbox: bool): (r: Result<string, Error>)
    ensures listing.Failure? ==> r == Failure(listing.error)
    ensures r.Success? ==> listing.Success? && DecodeListing(listing.value).Success? &&
                           r.value in Names(DecodeListing(listing.value).value)
    ensures r.Success? && Given(requested) ==> r.value == requested.value
    ensures listing.Success? && DecodeListing(listing.value).Failure? ==> r == Failure(ShapeError)
  {
    var resolved := if Given(requested) then Success(requested) else GuessFromListing(listing, sandbox);
    if resolved.Failure? then Failure(resolved.error)
    else
      var failure := CheckAgainstListing(listing, resolved.value);
      if failure.Some? then Failure(failure.value) else Success(resolved.value.value)
  }

  /**
   * Given a well-formed listing, construction fails exactly when the
   * resolved domain is absent from it: an explicit domain must be listed,
   * and a guessed one always is, so without an explicit domain it fails
   * only when nothing could be guessed.
   */
  lemma ResolveFailsExactlyWhenAbsent(body: Json, requested: Option<string>, sandbox: bool)
    requires DecodeListing(body).Success?
    ensures var records := DecodeListing(body).value;
            var r := Resolve(Success(body), requested, sandbox);
            if Given(requested) then
              (r.Success? <==> requested.value in Names(records)) &&
              (r.Failure? ==> r.error == DomainError(DomainMessage(requested, Names(records))))
            else
              (r.Success? <==> GuessDomain(records, sandbox).Some?) &&
              (r.Success? ==> r.value == GuessDomain(records, sandbox).value) &&
              (r.Failure? ==> r.error == DomainError(DomainMessage(None, Names(records))))
  {
  }
}
