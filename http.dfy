/**
 * The HTTP routes of convex/http.ts: the voice vendor's post-call webhook
 * (`/elevenlabs/post-call`), the e-mail quote relay (`/quotes`), and the
 * competitive-deals lookup (`/elevenlabs/get-competitive-deals`).
 *
 * The generative-text reply, the store's answers and whether a store call
 * throws are inputs; the store calls a route issues are its recorded outputs.
 * What those calls do to the call records belongs to the store and is not
 * part of this model.
 */
module Http {
  import opened Wrappers
  import opened Strings
  import opened Js

  /** Every status a call record can carry. */
  datatype CallStatus = Pending | Completed | Failed | Quoted | ConfirmedQuote

  /** A store mutation issued by a route. */
  datatype Mutation =
    /** `updateCallStatus`, matched by conversation id; `confirmedPrice` is `None` when left undefined. */
    | UpdateCallStatus(conversationId: string, status: CallStatus, transcriptSummary: string,
                       callSuccessful: bool, confirmedPrice: Option<int>)
    /** `updateCallStatusByVin`; `confirmedPrice` is `None` when `Number(finalPrice)` is NaN. */
    | UpdateCallStatusByVin(vin: string, status: CallStatus, confirmedPrice: Option<int>)

  /** The `getCompetitiveDeals` query, with its arguments. */
  datatype Query = GetCompetitiveDeals(make: string, model: string)

  /** One row the deals query returns; `confirmedPrice` may be undefined. */
  datatype Deal = Deal(dealerName: string, confirmedPrice: Option<int>)

  /** What a store call gave back: a value, or an exception with its message if it was an `Error`. */
  datatype StoreReply<T> = Returned(value: T) | Rejected(message: Option<string>)

  /** The exception a route caught. */
  datatype Thrown =
    | SyntaxError(parseMessage: string)   // JSON.parse refused the body
    | NullBody                            // the body parsed to `null`, and destructuring it threw
    | StoreError(message: Option<string>) // a store call threw
    | ConversionError                     // `String(x)` or `Number(x)` threw a TypeError (see `Convertible`)

  /** A response body: plain text, or one of the JSON objects the routes build. */
  datatype Body =
    | Text(text: string)
    | ErrorJson(error: string)
    | ServerError(error: string, cause: Thrown)
    | QuoteAck(vin: JsonValue, finalPrice: JsonValue)

  datatype Response = Response(status: int, body: Body)

  /** A request body: text that is not JSON, or the parsed JSON value. */
  datatype Request = Unparseable(message: string) | Parsed(root: JsonValue)

  // ---------------------------------------------------------------------------
  // /elevenlabs/post-call

  /** The `analysis` object of a transcription webhook. */
  datatype Analysis = Analysis(callSuccessful: Option<bool>, transcriptSummary: Option<string>)

  /** The `data` object of a webhook, with the fields of both payload interfaces. */
  datatype EventData = EventData(conversationId: string, analysis: Option<Analysis>, failureReason: Option<string>)

  /**
   * The webhook body: `Unreadable` when `JSON.parse` throws or the body is `null`
   * (reading `.type` of it throws); otherwise its `type` and `data` properties.
   */
  datatype Webhook = Unreadable | Webhook(eventType: Option<string>, data: Option<EventData>)

  /** The generative-text reply: a failure (the call or `JSON.parse` threw), or the parsed JSON value. */
  datatype LlmReply = LlmFailed | LlmJson(root: JsonValue)

  const TranscriptionEvent: string := "post_call_transcription"
  const AudioEvent: string := "post_call_audio"
  const InitiationFailureEvent: string := "call_initiation_failure"

  const WebhookOk: Response := Response(200, Text("Webhook processed successfully"))
  const WebhookError: Response := Response(500, Text("Internal server error"))

  const FailureNotePrefix: string := "Call initiation failed: "

  /** `data.analysis?.call_successful ?? false`. */
  function CallSucceeded(data: EventData): bool
  {
    data.analysis.Some? && data.analysis.value.callSuccessful == Some(true)
  }

  /** `data.analysis?.transcript_summary`, with undefined read as the empty (falsy) string. */
  function SummaryOf(data: EventData): string
  {
    if data.analysis.Some? && data.analysis.value.transcriptSummary.Some? then data.analysis.value.transcriptSummary.value else ""
  }

  /** The lowercased summary mentions a quote, a price or an offer. */
  predicate MentionsOffer(summary: string)
  {
    var lower := Lower(summary);
    Includes(lower, "quote") || Includes(lower, "price") || Includes(lower, "offer")
  }

  ghost predicate HasKeyword(text: string)
  {
    exists i :: OccursAt(text, "quote", i) || OccursAt(text, "price", i) || OccursAt(text, "offer", i)
  }

  /**
   * The status a transcription webhook assigns: failed when the call did not
   * succeed, whatever the summary says; quoted when it succeeded and the
   * lowercased summary contains "quote", "price" or "offer"; completed otherwise.
   */
  function ClassifyCall(callSuccessful: bool, summary: string): (s: CallStatus)
    ensures s == Failed <==> !callSuccessful
    ensures s == Quoted <==> callSuccessful && HasKeyword(Lower(summary))
    ensures s == Completed <==> callSuccessful && !HasKeyword(Lower(summary))
  {
    if !callSuccessful then Failed
    else if MentionsOffer(summary) then Quoted
    else Completed
  }

  /** The keyword search ignores the case of ASCII letters. */
  lemma ClassifyIgnoresCase(callSuccessful: bool, summary: string)
    ensures ClassifyCall(callSuccessful, Lower(summary)) == ClassifyCall(callSuccessful, summary)
  {
    assert Lower(Lower(summary)) == Lower(summary);
  }

  /**
   * The price taken from the generative-text reply: its `final_price` when that
   * is a number other than 0; nothing when the call or the parse failed, when
   * the reply is `null` (reading a property of it throws, and the error is
   * swallowed), or when `final_price` is missing, 0 or not a number.
   */
  function AcceptedPrice(reply: LlmReply): (p: Option<int>)
    ensures p.Some? ==> p.value != 0 && reply.LlmJson? && !reply.root.JNull?
                        && Get(reply.root, "final_price") == Some(JNumber(p.value))
    ensures p.None? ==> reply.LlmFailed? || reply.root.JNull?
                        || var finalPrice := Get(reply.root, "final_price");
                           finalPrice.None? || !finalPrice.value.JNumber? || finalPrice.value.n == 0
  {
    if reply.LlmFailed? || reply.root.JNull? then None
    else
      var finalPrice := Get(reply.root, "final_price");
      if Truthy(finalPrice) && finalPrice.value.JNumber? then Some(finalPrice.value.n) else None
  }

  /** The note written for a failed initiation: the prefix, then the reason (`undefined` when absent). */
  function FailureNote(reason: Option<string>): (note: string)
    ensures |FailureNotePrefix| <= |note| && note[..|FailureNotePrefix|] == FailureNotePrefix
    ensures reason.Some? ==> note[|FailureNotePrefix|..] == reason.value
    ensures reason.None? ==> note[|FailureNotePrefix|..] == "undefined"
  {
    FailureNotePrefix + (if reason.Some? then reason.value else "undefined")
  }

  /**
   * `handlePostCallTranscription`: nothing when the summary is missing or
   * empty; otherwise one status update carrying the classification, the
   * summary, the success flag and the accepted price.
   */
  method HandlePostCallTranscription(data: EventData, reply: LlmReply) returns (issued: seq<Mutation>)
    ensures SummaryOf(data) == "" ==> issued == []
    ensures SummaryOf(data) != "" ==>
              issued == [UpdateCallStatus(data.conversationId, ClassifyCall(CallSucceeded(data), SummaryOf(data)),
                                          SummaryOf(data), CallSucceeded(data), AcceptedPrice(reply))]
  {
    var conversationId := data.conversationId;
    var callSuccessful := CallSucceeded(data);
    var transcriptSummary := SummaryOf(data);
    if transcriptSummary == "" {
      return [];
    }

    var confirmedPrice: Option<int> := None;
    if reply.LlmJson? && !reply.root.JNull? {
      var finalPrice := Get(reply.root, "final_price");
      if Truthy(finalPrice) && finalPrice.value.JNumber? {
        confirmedPrice := Some(finalPrice.value.n);
      }
    }

    var newStatus := Completed;
    if !callSuccessful {
      newStatus := Failed;
    } else if MentionsOffer(transcriptSummary) {
      newStatus := Quoted;
    }

    issued := [UpdateCallStatus(conversationId, newStatus, transcriptSummary, callSuccessful, confirmedPrice)];
  }

  /** `handleCallInitiationFailure`: one update to failed, unsuccessful, with the failure note and no price. */
  method HandleCallInitiationFailure(data: EventData) returns (issued: seq<Mutation>)
    ensures issued == [UpdateCallStatus(data.conversationId, Failed, FailureNote(data.failureReason), false, None)]
  {
    var conversationId := data.conversationId;
    issued := [UpdateCallStatus(conversationId, Failed, FailureNote(data.failureReason), false, None)];
  }

  /**
   * The `/elevenlabs/post-call` route. Only transcription and initiation-failure
   * events issue a mutation; audio and unknown events are acknowledged with 200
   * and change nothing. The answer is 500 exactly when an exception escapes:
   * the body is unreadable, a handled event has no `data`, or its store
   * mutation throws (`storeThrows`).
   */
  method HandlePostCall(request: Webhook, reply: LlmReply, storeThrows: bool) returns (resp: Response, issued: seq<Mutation>)
    ensures resp == WebhookOk || resp == WebhookError
    ensures issued != [] ==> request.Webhook? && request.data.Some?
                             && (request.eventType == Some(TranscriptionEvent) || request.eventType == Some(InitiationFailureEvent))
    ensures request.Webhook? && request.eventType == Some(TranscriptionEvent) && request.data.Some? ==>
              (issued == [] <==> SummaryOf(request.data.value) == "")
    ensures request.Webhook? && request.eventType == Some(TranscriptionEvent) && request.data.Some?
            && SummaryOf(request.data.value) != "" ==>
              var d := request.data.value;
              issued == [UpdateCallStatus(d.conversationId, ClassifyCall(CallSucceeded(d), SummaryOf(d)),
                                          SummaryOf(d), CallSucceeded(d), AcceptedPrice(reply))]
    ensures request.Webhook? && request.eventType == Some(InitiationFailureEvent) && request.data.Some? ==>
              issued == [UpdateCallStatus(request.data.value.conversationId, Failed,
                                          FailureNote(request.data.value.failureReason), false, None)]
    ensures resp == WebhookError <==>
              request.Unreadable?
              || ((request.eventType == Some(TranscriptionEvent) || request.eventType == Some(InitiationFailureEvent))
                  && (request.data.None? || (issued != [] && storeThrows)))
  {
    if request.Unreadable? {
      return WebhookError, [];
    }
    issued := [];
    if request.eventType == Some(TranscriptionEvent) {
      if request.data.None? {
        return WebhookError, [];
      }
      issued := HandlePostCallTranscription(request.data.value, reply);
    } else if request.eventType == Some(AudioEvent) {
      // acknowledged; nothing to do yet
    } else if request.eventType == Some(InitiationFailureEvent) {
      if request.data.None? {
        return WebhookError, [];
      }
      issued := HandleCallInitiationFailure(request.data.value);
    }
    if issued != [] && storeThrows {
      return WebhookError, issued;
    }
    resp := WebhookOk;
  }

  // ---------------------------------------------------------------------------
  // /quotes

  const VinRequired: string := "Missing required parameter: vin is required"
  const PriceRequired: string := "Missing required parameter: finalPrice is required"
  const QuoteFailed: string := "Failed to update quote"

  /** The 400 message for a quote body: a falsy vin first, then a null or undefined price; 0 is a price. */
  function QuoteRequestError(vin: Option<JsonValue>, finalPrice: Option<JsonValue>): (e: Option<string>)
    ensures e == Some(VinRequired) <==> !Truthy(vin)
    ensures e == Some(PriceRequired) <==> Truthy(vin) && IsNullish(finalPrice)
    ensures e.None? <==> Truthy(vin) && !IsNullish(finalPrice)
  {
    if !Truthy(vin) then Some(VinRequired)
    else if IsNullish(finalPrice) then Some(PriceRequired)
    else None
  }

  /**
   * The mutation a `/quotes` body with a vin and a price asks for: confirmed_quote
   * for `String(vin)` at `Number(finalPrice)`. `None` when either conversion
   * throws, so that the mutation is never issued.
   */
  function QuoteMutation(vin: JsonValue, finalPrice: JsonValue): (m: Option<Mutation>)
    ensures m.Some? <==> Convertible(vin) && Convertible(finalPrice)
    ensures m.Some? ==> m.value.UpdateCallStatusByVin? && m.value.status == ConfirmedQuote
  {
    if Convertible(vin) && Convertible(finalPrice)
    then Some(UpdateCallStatusByVin(ToJsString(vin), ConfirmedQuote, ToNumber(finalPrice)))
    else None
  }

  /**
   * The `/quotes` route: 400 on a missing vin or price; otherwise 500 with
   * nothing issued when `String(vin)` or `Number(finalPrice)` throws, and
   * else one `updateCallStatusByVin`, answered with 200 and the two fields
   * echoed, or with 500 when the mutation throws. A body that is not JSON
   * or is `null` gets 500.
   */
  method HandleQuotes(request: Request, store: StoreReply<()>) returns (resp: Response, issued: seq<Mutation>)
    ensures request.Unparseable? ==> resp == Response(500, ServerError(QuoteFailed, SyntaxError(request.message))) && issued == []
    ensures request == Parsed(JNull) ==> resp == Response(500, ServerError(QuoteFailed, NullBody)) && issued == []
    ensures request.Parsed? && !request.root.JNull? ==>
              var vin := Get(request.root, "vin");
              var finalPrice := Get(request.root, "finalPrice");
              (resp.status == 400 <==> QuoteRequestError(vin, finalPrice).Some?)
              && (QuoteRequestError(vin, finalPrice).Some? ==>
                    issued == [] && resp.body == ErrorJson(QuoteRequestError(vin, finalPrice).value))
              && (QuoteRequestError(vin, finalPrice).None? ==>
                    var m := QuoteMutation(vin.value, finalPrice.value);
                    (m.None? ==> issued == [] && resp == Response(500, ServerError(QuoteFailed, ConversionError)))
                    && (m.Some? ==>
                          issued == [m.value]
                          && resp == if store.Returned? then Response(200, QuoteAck(vin.value, finalPrice.value))
                                     else Response(500, ServerError(QuoteFailed, StoreError(store.message)))))
  {
    if request.Unparseable? {
      return Response(500, ServerError(QuoteFailed, SyntaxError(request.message))), [];
    }
    var body := request.root;
    if body.JNull? {
      return Response(500, ServerError(QuoteFailed, NullBody)), [];
    }
    var finalPrice, vin := Get(body, "finalPrice"), Get(body, "vin");

    if !Truthy(vin) {
      return Response(400, ErrorJson(VinRequired)), [];
    }
    if finalPrice.None? || finalPrice.value.JNull? {
      return Response(400, ErrorJson(PriceRequired)), [];
    }

    // The mutation's arguments are built first, and either conversion may throw.
    if !Convertible(vin.value) || !Convertible(finalPrice.value) {
      return Response(500, ServerError(QuoteFailed, ConversionError)), [];
    }
    issued := [UpdateCallStatusByVin(ToJsString(vin.value), ConfirmedQuote, ToNumber(finalPrice.value))];
    if store.Rejected? {
      return Response(500, ServerError(QuoteFailed, StoreError(store.message))), issued;
    }
    resp := Response(200, QuoteAck(vin.value, finalPrice.value));
  }

  /**
   * A parsed object with its own "toString" property cannot be converted,
   * whether it is sent itself or inside an array: no mutation and no query
   * is issued for it.
   */
  lemma OwnToStringBlocksStoreCalls(fields: map<string, JsonValue>, other: JsonValue)
    requires "toString" in fields
    ensures QuoteMutation(JObject(fields), other).None? && QuoteMutation(other, JObject(fields)).None?
    ensures QuoteMutation(other, JArray([JNull, JObject(fields)])).None?
    ensures DealsQuery(JObject(fields), other).None? && DealsQuery(other, JArray([JObject(fields)])).None?
  {
    assert !Convertible(JArray([JNull, JObject(fields)])) by {
      assert [JNull, JObject(fields)][1] == JObject(fields);
    }
    assert !Convertible(JArray([JObject(fields)])) by {
      assert [JObject(fields)][0] == JObject(fields);
    }
  }

  /** A price sent as a JSON number and the same price sent as its decimal text ask for the same mutation. */
  lemma QuotePriceAsText(vin: JsonValue, n: int)
    ensures QuoteMutation(vin, JString(ToJsString(JNumber(n)))) == QuoteMutation(vin, JNumber(n))
  {
    NumberOfStringOfNumber(n);
  }

  // ---------------------------------------------------------------------------
  // /elevenlabs/get-competitive-deals

  const NoOffers: string := "no offer avaliables"
  const MakeModelRequired: string := "Missing required parameters: make and model are required"
  const DealsFailed: string := "Failed to fetch competitive deals"

  /** `${deal.dealer_name}: ${deal.confirmed_price}`. */
  function DealItem(d: Deal): (item: string)
    ensures |d.dealerName| < |item| && item[|d.dealerName|] == ':'
  {
    d.dealerName + ": " + (if d.confirmedPrice.Some? then IntToString(d.confirmedPrice.value) else "undefined")
  }

  function DealItems(deals: seq<Deal>): (items: seq<string>)
    ensures |items| == |deals|
    ensures forall i :: 0 <= i < |deals| ==> items[i] == DealItem(deals[i])
  {
    seq(|deals|, i requires 0 <= i < |deals| => DealItem(deals[i]))
  }

  /** The plain-text answer: the deals' items joined by ", ", or the sentinel when there are none. */
  function DealsText(deals: seq<Deal>): string
  {
    if |deals| > 0 then Join(DealItems(deals), ", ") else NoOffers
  }

  /** The sentinel is returned exactly when there are no deals: every rendered deal contains a ':', the sentinel none. */
  lemma DealsTextSentinelIff(deals: seq<Deal>)
    ensures DealsText(deals) == NoOffers <==> deals == []
  {
    if deals != [] {
      var items := DealItems(deals);
      JoinStartsWithFirst(items, ", ");
      var text := DealsText(deals);
      var k := |deals[0].dealerName|;
      assert text[k] == items[0][k] == ':';
      assert forall i :: 0 <= i < |NoOffers| ==> NoOffers[i] != ':';
    }
  }

  /** Deals keep their order in the text: one more deal appends ", " and its item. */
  lemma DealsTextSnoc(deals: seq<Deal>, d: Deal)
    requires deals != []
    ensures DealsText(deals + [d]) == DealsText(deals) + ", " + DealItem(d)
  {
    assert DealItems(deals + [d]) == DealItems(deals) + [DealItem(d)];
    JoinSnoc(DealItems(deals), DealItem(d), ", ");
  }

  /** The deals query for a truthy make and model; `None` when `String(make)` or `String(model)` throws. */
  function DealsQuery(make: JsonValue, model: JsonValue): (q: Option<Query>)
    ensures q.Some? <==> Convertible(make) && Convertible(model)
    ensures make.JString? && model.JString? ==> q == Some(GetCompetitiveDeals(make.s, model.s))
  {
    if Convertible(make) && Convertible(model)
    then Some(GetCompetitiveDeals(ToJsString(make), ToJsString(model)))
    else None
  }

  /**
   * The `/elevenlabs/get-competitive-deals` route: 400 when make or model is
   * falsy (and no query); otherwise 500 with no query when `String(make)` or
   * `String(model)` throws, and else one query, answered with 200 and the
   * deals text, or 500 when the query throws. A body that is not JSON or is
   * `null` gets 500.
   */
  method HandleCompetitiveDeals(request: Request, store: StoreReply<seq<Deal>>) returns (resp: Response, queried: seq<Query>)
    ensures request.Unparseable? ==> resp == Response(500, ServerError(DealsFailed, SyntaxError(request.message))) && queried == []
    ensures request == Parsed(JNull) ==> resp == Response(500, ServerError(DealsFailed, NullBody)) && queried == []
    ensures request.Parsed? && !request.root.JNull? ==>
              var make := Get(request.root, "make");
              var model := Get(request.root, "model");
              (resp.status == 400 <==> !Truthy(make) || !Truthy(model))
              && (!Truthy(make) || !Truthy(model) ==> queried == [] && resp.body == ErrorJson(MakeModelRequired))
              && (Truthy(make) && Truthy(model) ==>
                    var q := DealsQuery(make.value, model.value);
                    (q.None? ==> queried == [] && resp == Response(500, ServerError(DealsFailed, ConversionError)))
                    && (q.Some? ==>
                          queried == [q.value]
                          && resp == match store
                                     case Returned(deals) => Response(200, Text(DealsText(deals)))
                                     case Rejected(message) => Response(500, ServerError(DealsFailed, StoreError(message)))))
  {
    if request.Unparseable? {
      return Response(500, ServerError(DealsFailed, SyntaxError(request.message))), [];
    }
    var body := request.root;
    if body.JNull? {
      return Response(500, ServerError(DealsFailed, NullBody)), [];
    }
    var make, model := Get(body, "make"), Get(body, "model");

    if !Truthy(make) || !Truthy(model) {
      return Response(400, ErrorJson(MakeModelRequired)), [];
    }

    // The query's arguments are built first, and either conversion may throw.
    if !Convertible(make.value) || !Convertible(model.value) {
      return Response(500, ServerError(DealsFailed, ConversionError)), [];
    }
    queried := [GetCompetitiveDeals(ToJsString(make.value), ToJsString(model.value))];
    if store.Rejected? {
      return Response(500, ServerError(DealsFailed, StoreError(store.message))), queried;
    }
    var competitiveDeals := store.value;

    var responseText: string;
    if |competitiveDeals| > 0 {
      responseText := Join(DealItems(competitiveDeals), ", ");
    } else {
      responseText := NoOffers;
    }
    resp := Response(200, Text(responseText));
  }
}
