/** The NCFX crypto WebSocket endpoint: the login handshake, the price
    message decoder and the subscription builders. */
module NcfxCrypto {
  import opened Wrappers
  import opened Json
  import opened Strings
  import opened WsTransport

  /** The provider's login confirmation, spelled as the provider sends it. */
  const AuthenticatedMessage := "Succesfully Authenticated"
  /** Prefix of the rejection when any other frame arrives first. */
  const UnexpectedOpenPrefix := "Unexpected message after WS connection open: "
  /** The character between base and quote in `currencyPair` and `ccy`. */
  const PairSeparator := '/'

  /** The adapter settings `API_USERNAME` and `API_PASSWORD`. */
  datatype Credentials = Credentials(username: string, password: string)

  /** The request parameters of a price endpoint. */
  datatype Pair = Pair(base: string, quote: string)

  /** The parameters a result is stored under: `quote` is `undefined` when
      the pair has no separator. */
  datatype Key = Key(base: string, quote: Option<string>)

  /** The response of one price result. `timestamp` is the raw field the
      provider time in milliseconds is computed from. */
  datatype Response = Response(result: Value, dataResult: Value, bid: Value, ask: Value, timestamp: Option<Value>)

  datatype ProviderResult = ProviderResult(params: Key, response: Response)

  // ---------------------------------------------------------------------------
  // Handshake

  /** The login frame sent once the connection is open. */
  function LoginPayload(c: Credentials): Value
  {
    Obj(map["request" := Str("login"), "username" := Str(c.username), "password" := Str(c.password)])
  }

  /** The `open` handler: register the listener, then log in. */
  function OpenSteps(c: Credentials): (steps: seq<OpenStep>)
    ensures ListensBeforeSending(steps)
    ensures Sent(steps) == [LoginPayload(c)]
  {
    var steps := [RegisterListener, Send(LoginPayload(c))];
    assert steps[1..] == [Send(LoginPayload(c))];
    assert Sent(steps[1..][1..]) == [];
    assert Sent(steps[1..]) == [LoginPayload(c)];
    assert steps[0] == RegisterListener;
    steps
  }

  /** The listener's verdict on one frame. */
  function Authenticate(f: Frame): Decision
  {
    if IsString(Get(f.parsed, "Message"), AuthenticatedMessage) then Resolve
    else Reject(UnexpectedOpenPrefix + f.raw)
  }

  /** The connection is ready exactly when the first frame is the login
      confirmation; any other first frame rejects with that frame's text, and
      later frames change nothing. */
  lemma HandshakeOutcome(frames: seq<Frame>, later: seq<Frame>)
    requires |frames| > 0
    ensures (Listen(Authenticate, frames) == Settled(Resolve))
              <==> IsString(Get(frames[0].parsed, "Message"), AuthenticatedMessage)
    ensures !IsString(Get(frames[0].parsed, "Message"), AuthenticatedMessage) ==>
              Listen(Authenticate, frames) == Settled(Reject(UnexpectedOpenPrefix + frames[0].raw))
    ensures Listen(Authenticate, frames + later) == Listen(Authenticate, frames)
  {
    FirstFrameDecides(Authenticate, frames);
    SettledIsFinal(Authenticate, frames, later);
  }

  // ---------------------------------------------------------------------------
  // Decoder

  /** A message with a `Type` property is an informational message. */
  predicate IsInfoMessage(m: Object)
  {
    "Type" in m
  }

  /** The price filter: pair, mid, bid and offer all truthy. */
  predicate HasPriceFields(m: Object)
  {
    Truthy(Get(m, "currencyPair")) && Truthy(Get(m, "mid")) && Truthy(Get(m, "bid")) && Truthy(Get(m, "offer"))
  }

  /** The debug line for an informational message interpolates `Type` and
      `Message`, so it throws when either cannot become a string. */
  predicate InfoLogThrows(m: Object)
  {
    ConversionThrows(Get(m, "Type")) || ConversionThrows(Get(m, "Message"))
  }

  /** `new Date(message.timestamp)` throws when the timestamp cannot become
      a primitive. */
  predicate TimestampThrows(m: Object)
  {
    ConversionThrows(Get(m, "timestamp"))
  }

  /** The `message` handler. The `|| 0` fallbacks are kept, and the contract
      shows they never apply. */
  function Decode(m: Object): (r: Outcome<ProviderResult>)
    ensures IsInfoMessage(m) ==> r == Undefined || r == Threw
    ensures IsInfoMessage(m) ==> (r == Threw <==> InfoLogThrows(m))
    ensures !IsInfoMessage(m) && !HasPriceFields(m) ==> r == Undefined
    ensures r.Returned? <==>
              !IsInfoMessage(m) && HasPriceFields(m) && m["currencyPair"].Str? && !TimestampThrows(m)
    ensures !IsInfoMessage(m) && HasPriceFields(m) ==>
              (r.Threw? <==> !m["currencyPair"].Str? || TimestampThrows(m))
    ensures r.Returned? ==>
              && |r.results| == 1
              && var res := r.results[0];
              && var parts := Split(m["currencyPair"].s, PairSeparator);
              && res.params == Key(parts[0], Element(parts, 1))
              && Some(res.response.result) == Get(m, "mid")
              && res.response.dataResult == res.response.result
              && Some(res.response.bid) == Get(m, "bid")
              && Some(res.response.ask) == Get(m, "offer")
              && res.response.timestamp == Get(m, "timestamp")
  {
    if IsInfoMessage(m) then
      if InfoLogThrows(m) then Threw else Undefined
    else if !Truthy(Get(m, "currencyPair")) || !Truthy(Get(m, "mid")) || !Truthy(Get(m, "bid")) || !Truthy(Get(m, "offer")) then
      Undefined
    else
      match m["currencyPair"]
      case Str(pair) =>
        var parts := Split(pair, PairSeparator);
        if TimestampThrows(m) then Threw
        else
          Returned([ProviderResult(
            Key(parts[0], Element(parts, 1)),
            Response(OrZero(Get(m, "mid")), OrZero(Get(m, "mid")), OrZero(Get(m, "bid")), OrZero(Get(m, "offer")),
                     Get(m, "timestamp")))])
      case _ => Threw
  }

  /** A property that is absent or holds a string, as the message types
      declare for `Type`, `Message`, `timestamp` and `currencyPair`. */
  predicate StringOrAbsent(v: Option<Value>)
  {
    v.None? || v.value.Str?
  }

  /** On messages of the declared shapes the decoder never throws. */
  lemma DeclaredShapesNeverThrow(m: Object)
    requires StringOrAbsent(Get(m, "Type")) && StringOrAbsent(Get(m, "Message"))
    requires StringOrAbsent(Get(m, "timestamp")) && StringOrAbsent(Get(m, "currencyPair"))
    ensures !Decode(m).Threw?
  {
  }

  /** A zero price is falsy, so the message is dropped rather than
      forwarded with a zero value. */
  lemma ZeroPriceDropped(m: Object, field: string)
    requires field in {"mid", "bid", "offer"}
    requires Get(m, field) == Some(Num(0.0))
    ensures !Decode(m).Returned?
    ensures !IsInfoMessage(m) ==> Decode(m) == Undefined
  {
  }

  // ---------------------------------------------------------------------------
  // Builders

  /** The `ccy` of a subscription: base and quote joined by `/`. */
  function Ccy(p: Pair): string
  {
    p.base + [PairSeparator] + p.quote
  }

  /** The subscribe frame: a `subscribe` request whose `ccy` splits back
      into the pair on `/`, the split the decoder applies to
      `currencyPair`, whenever neither symbol contains `/`. */
  function SubscribeMessage(p: Pair): (v: Value)
    ensures v.Obj? && v.fields.Keys == {"request", "ccy"}
    ensures v.fields["request"] == Str("subscribe")
    ensures v.fields["ccy"] == Str(Ccy(p))
    ensures PairSeparator !in p.base && PairSeparator !in p.quote ==>
              Split(v.fields["ccy"].s, PairSeparator) == [p.base, p.quote]
  {
    assert PairSeparator !in p.base && PairSeparator !in p.quote ==>
             Split(Ccy(p), PairSeparator) == [p.base, p.quote] by {
      if PairSeparator !in p.base && PairSeparator !in p.quote {
        CcyRoundTrip(p);
      }
    }
    Obj(map["request" := Str("subscribe"), "ccy" := Str(Ccy(p))])
  }

  /** The subscribe frame for the same pair with the request changed. */
  function UnsubscribeMessage(p: Pair): (v: Value)
    ensures v == Obj(SubscribeMessage(p).fields["request" := Str("unsubscribe")])
  {
    var fields := map["request" := Str("unsubscribe"), "ccy" := Str(Ccy(p))];
    assert fields == SubscribeMessage(p).fields["request" := Str("unsubscribe")];
    Obj(fields)
  }

  /** Subscribing and unsubscribing name the same pair and differ only in
      the request. */
  lemma BuildersShareCcy(p: Pair)
    ensures SubscribeMessage(p).fields["ccy"] == UnsubscribeMessage(p).fields["ccy"]
    ensures SubscribeMessage(p).fields["request"] == Str("subscribe")
    ensures UnsubscribeMessage(p).fields["request"] == Str("unsubscribe")
    ensures SubscribeMessage(p) != UnsubscribeMessage(p)
  {
    assert SubscribeMessage(p).fields["request"] != UnsubscribeMessage(p).fields["request"];
  }

  /** Splitting `ccy` on `/` gives back the pair, as long as neither symbol
      contains `/`. */
  lemma CcyRoundTrip(p: Pair)
    requires PairSeparator !in p.base && PairSeparator !in p.quote
    ensures Split(Ccy(p), PairSeparator) == [p.base, p.quote]
  {
    SplitAfterField(p.base, p.quote, PairSeparator);
    SplitNoSeparator(p.quote, PairSeparator);
  }

  /** Distinct pairs subscribe with distinct frames. */
  lemma SubscribeInjective(p: Pair, q: Pair)
    requires PairSeparator !in p.base && PairSeparator !in p.quote
    requires PairSeparator !in q.base && PairSeparator !in q.quote
    requires SubscribeMessage(p) == SubscribeMessage(q)
    ensures p == q
  {
    CcyRoundTrip(p);
    CcyRoundTrip(q);
    assert Ccy(p) == SubscribeMessage(p).fields["ccy"].s;
  }

  /** A price push in the provider's shape. */
  function PriceFrame(currencyPair: string, mid: real, bid: real, offer: real, timestamp: string): Object
  {
    map["timestamp" := Str(timestamp), "currencyPair" := Str(currencyPair),
        "bid" := Num(bid), "offer" := Num(offer), "mid" := Num(mid)]
  }

  /** A non-zero price push for a subscribed pair is delivered as one result
      keyed by exactly that pair, with the prices passed through. */
  lemma SubscribedPairPriceDelivered(p: Pair, mid: real, bid: real, offer: real, timestamp: string)
    requires PairSeparator !in p.base && PairSeparator !in p.quote
    requires mid != 0.0 && bid != 0.0 && offer != 0.0
    ensures Decode(PriceFrame(SubscribeMessage(p).fields["ccy"].s, mid, bid, offer, timestamp))
            == Returned([ProviderResult(Key(p.base, Some(p.quote)),
                                        Response(Num(mid), Num(mid), Num(bid), Num(offer), Some(Str(timestamp))))])
  {
    CcyRoundTrip(p);
    var m := PriceFrame(Ccy(p), mid, bid, offer, timestamp);
    assert !IsInfoMessage(m);
    assert HasPriceFields(m);
  }
}
