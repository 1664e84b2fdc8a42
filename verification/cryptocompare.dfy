/** The CryptoCompare WebSocket endpoint: the welcome handshake, the
    price/error decoder and the subscription builders. */
module CryptoCompareWs {
  import opened Wrappers
  import opened Json
  import opened Strings
  import opened WsTransport

  /** The frame the streamer sends first on a good connection. */
  const WelcomeMessage := "STREAMERWELCOME"
  /** The rejection when any other frame arrives first. */
  const UnexpectedOpen := "Unexpected message after WS connection open"
  /** The `MESSAGE` of the provider's report of an unsupported pair. */
  const InvalidSub := "INVALID_SUB"
  /** The error text stored for an unsupported pair. */
  const InvalidSubError := "Could not retrieve valid data from Data Provider. This is likely an issue with the Data Provider or the input params/overrides"
  /** The HTTP-equivalent status of that error. */
  const InvalidSubStatus := 400
  /** The endpoint every result is stored under. */
  const EndpointName := "crypto"
  /** The field separator of a subscription string. */
  const SubSeparator := '~'

  /** The request parameters of a price endpoint. */
  datatype Pair = Pair(base: string, quote: string)

  /** The parameters a result is stored under. Base and quote are whatever
      the message carried, `undefined` when it carried nothing. */
  datatype Key = Key(base: Option<Value>, quote: Option<Value>, endpoint: string)

  datatype Response =
    | Price(result: Value, dataResult: Value)
    | Error(errorMessage: string, statusCode: int)

  datatype ProviderResult = ProviderResult(params: Key, response: Response)

  // ---------------------------------------------------------------------------
  // Handshake

  /** The `open` handler only listens: the API key travels in the URL, so no
      login frame is sent. */
  function OpenSteps(): (steps: seq<OpenStep>)
    ensures ListensBeforeSending(steps)
    ensures Sent(steps) == []
    ensures RegisterListener in steps
  {
    [RegisterListener]
  }

  /** The listener's verdict on one frame. */
  function Welcome(f: Frame): Decision
  {
    if IsString(Get(f.parsed, "MESSAGE"), WelcomeMessage) then Resolve else Reject(UnexpectedOpen)
  }

  /** The connection is ready exactly when the first frame is the welcome;
      any other first frame rejects, and later frames change nothing. */
  lemma HandshakeOutcome(frames: seq<Frame>, later: seq<Frame>)
    requires |frames| > 0
    ensures (Listen(Welcome, frames) == Settled(Resolve))
              <==> IsString(Get(frames[0].parsed, "MESSAGE"), WelcomeMessage)
    ensures !IsString(Get(frames[0].parsed, "MESSAGE"), WelcomeMessage) ==>
              Listen(Welcome, frames) == Settled(Reject(UnexpectedOpen))
    ensures Listen(Welcome, frames + later) == Listen(Welcome, frames)
  {
    FirstFrameDecides(Welcome, frames);
    SettledIsFinal(Welcome, frames, later);
  }

  // ---------------------------------------------------------------------------
  // Decoder

  /** A price update: `TYPE` is the string `'5'` and a `PRICE` property is
      present, whatever its value. */
  predicate IsPriceUpdate(m: Object)
  {
    IsString(Get(m, "TYPE"), "5") && "PRICE" in m
  }

  /** The provider's report that a subscription is not supported. */
  predicate IsInvalidSub(m: Object)
  {
    IsString(Get(m, "MESSAGE"), InvalidSub)
  }

  /** The key of the error for an unsupported pair: fields 2 and 3 of the
      `~`-separated subscription string. */
  function ErrorKey(parameter: string): Key
  {
    var parts := Split(parameter, SubSeparator);
    Key(Lift(Element(parts, 2)), Lift(Element(parts, 3)), EndpointName)
  }

  function Lift(s: Option<string>): Option<Value>
  {
    match s
    case None => None
    case Some(t) => Some(Str(t))
  }

  /** The `message` handler. */
  function Decode(m: Object): (r: Outcome<ProviderResult>)
    ensures !r.Undefined?
    ensures r.Returned? ==> |r.results| <= 1
    ensures IsPriceUpdate(m) ==>
              && r.Returned? && |r.results| == 1
              && r.results[0].params == Key(Get(m, "FROMSYMBOL"), Get(m, "TOSYMBOL"), EndpointName)
              && r.results[0].response.Price?
              && r.results[0].response.result == m["PRICE"]
              && r.results[0].response.dataResult == m["PRICE"]
    ensures !IsPriceUpdate(m) && IsInvalidSub(m) && Get(m, "PARAMETER").Some? && m["PARAMETER"].Str? ==>
              && r.Returned? && |r.results| == 1
              && r.results[0].params == ErrorKey(m["PARAMETER"].s)
              && r.results[0].response == Error(InvalidSubError, InvalidSubStatus)
    ensures r.Threw? <==> !IsPriceUpdate(m) && IsInvalidSub(m) && !(Get(m, "PARAMETER").Some? && m["PARAMETER"].Str?)
    ensures r == Returned([]) <==> !IsPriceUpdate(m) && !IsInvalidSub(m)
  {
    if IsString(Get(m, "TYPE"), "5") && "PRICE" in m then
      Returned([ProviderResult(Key(Get(m, "FROMSYMBOL"), Get(m, "TOSYMBOL"), EndpointName),
                               Price(m["PRICE"], m["PRICE"]))])
    else if IsString(Get(m, "MESSAGE"), InvalidSub) then
      match Get(m, "PARAMETER")
      case Some(Str(parameter)) =>
        Returned([ProviderResult(ErrorKey(parameter), Error(InvalidSubError, InvalidSubStatus))])
      case _ => Threw
    else
      Returned([])
  }

  /** A price update wins over an `INVALID_SUB` in the same message. */
  lemma PriceTakesPriority(m: Object)
    requires IsPriceUpdate(m) && IsInvalidSub(m)
    ensures Decode(m).Returned? && |Decode(m).results| == 1 && Decode(m).results[0].response.Price?
  {
  }

  /** A price of zero is present, so it is forwarded. */
  lemma ZeroPriceForwarded(m: Object)
    requires IsString(Get(m, "TYPE"), "5") && Get(m, "PRICE") == Some(Num(0.0))
    ensures Decode(m).Returned? && Decode(m).results[0].response.result == Num(0.0)
  {
  }

  // ---------------------------------------------------------------------------
  // Builders

  /** The subscription string `5~CCCAGG~BASE~QUOTE`. */
  function Sub(p: Pair): string
  {
    "5~CCCAGG~" + p.base + [SubSeparator] + p.quote
  }

  /** The subscribe frame: a `SubAdd` of one subscription string whose
      fields 2 and 3, the ones the decoder reads back from an
      `INVALID_SUB`, are the pair whenever neither symbol contains `~`. */
  function SubscribeMessage(p: Pair): (v: Value)
    ensures v.Obj? && v.fields.Keys == {"action", "subs"}
    ensures v.fields["action"] == Str("SubAdd")
    ensures v.fields["subs"] == Arr([Str(Sub(p))])
    ensures SubSeparator !in p.base && SubSeparator !in p.quote ==>
              Split(v.fields["subs"].items[0].s, SubSeparator) == ["5", "CCCAGG", p.base, p.quote]
  {
    assert SubSeparator !in p.base && SubSeparator !in p.quote ==>
             Split(Sub(p), SubSeparator) == ["5", "CCCAGG", p.base, p.quote] by {
      if SubSeparator !in p.base && SubSeparator !in p.quote {
        SubRoundTrip(p);
      }
    }
    Obj(map["action" := Str("SubAdd"), "subs" := Arr([Str(Sub(p))])])
  }

  /** The subscribe frame for the same pair with the action changed. */
  function UnsubscribeMessage(p: Pair): (v: Value)
    ensures v == Obj(SubscribeMessage(p).fields["action" := Str("SubRemove")])
  {
    var fields := map["action" := Str("SubRemove"), "subs" := Arr([Str(Sub(p))])];
    assert fields == SubscribeMessage(p).fields["action" := Str("SubRemove")];
    Obj(fields)
  }

  /** Subscribing and unsubscribing carry the same single subscription and
      differ only in the action. */
  lemma BuildersShareSubs(p: Pair)
    ensures SubscribeMessage(p).fields["subs"] == UnsubscribeMessage(p).fields["subs"]
    ensures SubscribeMessage(p).fields["action"] == Str("SubAdd")
    ensures UnsubscribeMessage(p).fields["action"] == Str("SubRemove")
    ensures SubscribeMessage(p) != UnsubscribeMessage(p)
  {
    assert SubscribeMessage(p).fields["action"] != UnsubscribeMessage(p).fields["action"];
  }

  /** The subscription string splits into its four fields when neither
      symbol contains `~`. */
  lemma SubRoundTrip(p: Pair)
    requires SubSeparator !in p.base && SubSeparator !in p.quote
    ensures Split(Sub(p), SubSeparator) == ["5", "CCCAGG", p.base, p.quote]
  {
    var fields := ["5", "CCCAGG", p.base, p.quote];
    assert fields[1..][1..] == fields[2..];
    assert fields[2..][1..] == fields[3..];
    assert Join(fields[3..], SubSeparator) == p.quote;
    assert Join(fields[2..], SubSeparator) == p.base + [SubSeparator] + p.quote;
    assert Join(fields[1..], SubSeparator) == "CCCAGG" + [SubSeparator] + (p.base + [SubSeparator] + p.quote);
    assert Join(fields, SubSeparator) == "5" + [SubSeparator] + ("CCCAGG" + [SubSeparator] + (p.base + [SubSeparator] + p.quote));
    assert "5" + [SubSeparator] + "CCCAGG" + [SubSeparator] == "5~CCCAGG~";
    assert Join(fields, SubSeparator) == Sub(p);
    SplitJoin(fields, SubSeparator);
  }

  /** An `INVALID_SUB` naming a subscription this adapter sent is reported
      against exactly the pair it was built from. */
  lemma InvalidSubRoundTrip(p: Pair, m: Object)
    requires SubSeparator !in p.base && SubSeparator !in p.quote
    requires !IsPriceUpdate(m) && IsInvalidSub(m)
    requires Get(m, "PARAMETER") == Some(Str(Sub(p)))
    ensures Decode(m) == Returned([ProviderResult(Key(Some(Str(p.base)), Some(Str(p.quote)), EndpointName),
                                                  Error(InvalidSubError, InvalidSubStatus))])
  {
    SubRoundTrip(p);
  }

  /** A price update for a pair, whatever other fields (`MARKET`, `FLAGS`,
      volumes) it carries, is stored under that pair. */
  lemma PriceForPair(p: Pair, price: Value, m: Object)
    requires IsPriceUpdate(m) && Get(m, "PRICE") == Some(price)
    requires Get(m, "FROMSYMBOL") == Some(Str(p.base)) && Get(m, "TOSYMBOL") == Some(Str(p.quote))
    ensures Decode(m) == Returned([ProviderResult(Key(Some(Str(p.base)), Some(Str(p.quote)), EndpointName),
                                                  Price(price, price))])
  {
  }

  /** The price example: ETH/USD at 1595.50 gives one ETH/USD result. */
  lemma EthUsdPriceExample()
    ensures Decode(map["TYPE" := Str("5"), "PRICE" := Num(1595.50), "FROMSYMBOL" := Str("ETH"), "TOSYMBOL" := Str("USD")])
            == Returned([ProviderResult(Key(Some(Str("ETH")), Some(Str("USD")), EndpointName),
                                        Price(Num(1595.50), Num(1595.50)))])
  {
  }

  /** The error example: an `INVALID_SUB` for `5~CCCAGG~ETH~XYZ` gives one
      400 error for ETH/XYZ. */
  lemma EthXyzInvalidSubExample()
    ensures Decode(map["TYPE" := Str("500"), "MESSAGE" := Str(InvalidSub), "PARAMETER" := Str("5~CCCAGG~ETH~XYZ")])
            == Returned([ProviderResult(Key(Some(Str("ETH")), Some(Str("XYZ")), EndpointName),
                                        Error(InvalidSubError, 400))])
  {
    var p := Pair("ETH", "XYZ");
    assert Sub(p) == "5~CCCAGG~ETH~XYZ";
    InvalidSubRoundTrip(p, map["TYPE" := Str("500"), "MESSAGE" := Str(InvalidSub), "PARAMETER" := Str("5~CCCAGG~ETH~XYZ")]);
  }
}
