/**
 * The reviews service's request handler (`LibertyRestEndpoint`): its
 * configuration, the outbound call to the ratings service (address,
 * deadline, forwarded headers, outcome mapping) and the JSON payload it
 * answers with. The HTTP transport is not modelled: what the ratings
 * service answered is an input of type `Downstream`.
 */
module Reviews {
  import opened Wrappers
  import Numbers

  // ---------------------------------------------------------------------
  // Configuration, read once from the environment
  // ---------------------------------------------------------------------

  /** The environment variables the handler reads; None where unset. */
  datatype Environment = Environment(
    enableRatings: Option<string>,     // ENABLE_RATINGS
    starColor: Option<string>,         // STAR_COLOR
    servicesDomain: Option<string>,    // SERVICES_DOMAIN
    ratingsHostname: Option<string>,   // RATINGS_HOSTNAME
    ratingsServicePort: Option<string>,// RATINGS_SERVICE_PORT
    hostname: Option<string>,          // HOSTNAME
    clusterName: Option<string>)       // CLUSTER_NAME

  /** The handler's process-wide constants. */
  datatype Config = Config(
    ratingsEnabled: bool,
    starColor: string,
    servicesDomain: string,
    ratingsHostname: string,
    ratingsPort: string,
    podHostname: Option<string>,
    clustername: Option<string>)

  function LowerAscii(c: char): char
  {
    if 'A' <= c <= 'Z' then (c as int - 'A' as int + 'a' as int) as char else c
  }

  /** Java `Boolean.valueOf(String)`: true exactly for "true" in any letter case. */
  predicate BooleanValueOf(s: Option<string>)
  {
    s.Some? && |s.value| == 4 && forall i :: 0 <= i < 4 ==> LowerAscii(s.value[i]) == "true"[i]
  }

  /** Java string concatenation of a possibly null String. */
  function JavaString(s: Option<string>): string
  {
    match s
    case None => "null"
    case Some(v) => v
  }

  /** The static initialisers: each unset variable falls back to its default. */
  function LoadConfig(env: Environment): (c: Config)
    ensures c.ratingsEnabled <==> BooleanValueOf(env.enableRatings)
    ensures env.starColor.None? ==> c.starColor == "black"
    ensures env.starColor.Some? ==> c.starColor == env.starColor.value
    ensures env.servicesDomain.None? ==> c.servicesDomain == ""
    ensures env.servicesDomain.Some? ==> c.servicesDomain == "." + env.servicesDomain.value
    ensures env.ratingsHostname.None? ==> c.ratingsHostname == "ratings"
    ensures env.ratingsHostname.Some? ==> c.ratingsHostname == env.ratingsHostname.value
    ensures env.ratingsServicePort.None? ==> c.ratingsPort == "9080"
    ensures env.ratingsServicePort.Some? ==> c.ratingsPort == env.ratingsServicePort.value
    ensures c.podHostname == env.hostname && c.clustername == env.clusterName
  {
    Config(
      BooleanValueOf(env.enableRatings),
      if env.starColor.None? then "black" else env.starColor.value,
      if env.servicesDomain.None? then "" else "." + env.servicesDomain.value,
      if env.ratingsHostname.None? then "ratings" else env.ratingsHostname.value,
      if env.ratingsServicePort.None? then "9080" else env.ratingsServicePort.value,
      env.hostname,
      env.clusterName)
  }

  /** `ratings_service`: the base address of the ratings service. */
  function RatingsService(c: Config): string
  {
    "http://" + c.ratingsHostname + c.servicesDomain + ":" + c.ratingsPort + "/ratings"
  }

  /** The address one product's ratings are fetched from. */
  function RatingsTarget(c: Config, productId: string): string
  {
    RatingsService(c) + "/" + productId
  }

  /** The outbound address in terms of the environment it came from. */
  lemma TargetFromEnvironment(env: Environment, productId: string)
    ensures var host := if env.ratingsHostname.None? then "ratings" else env.ratingsHostname.value;
            var domain := if env.servicesDomain.None? then "" else "." + env.servicesDomain.value;
            var port := if env.ratingsServicePort.None? then "9080" else env.ratingsServicePort.value;
            RatingsTarget(LoadConfig(env), productId)
              == "http://" + host + domain + ":" + port + "/ratings/" + productId
  {
  }

  lemma DefaultTarget(env: Environment, productId: string)
    requires env.ratingsHostname.None? && env.servicesDomain.None? && env.ratingsServicePort.None?
    ensures RatingsTarget(LoadConfig(env), productId) == "http://ratings:9080/ratings/" + productId
  {
  }

  // ---------------------------------------------------------------------
  // The outbound call
  // ---------------------------------------------------------------------

  /** Deadline of the ratings call, in milliseconds: long for the default colour. */
  function Timeout(starColor: string): (ms: nat)
    ensures ms == 10000 <==> starColor == "black"
    ensures ms == 2500 <==> starColor != "black"
  {
    if starColor == "black" then 10000 else 2500
  }

  /** With STAR_COLOR unset the call gets the long deadline. */
  lemma DefaultColourWaitsLonger(env: Environment, other: Environment)
    requires env.starColor.None?
    ensures Timeout(LoadConfig(env).starColor) == 10000
    ensures Timeout(LoadConfig(other).starColor) <= Timeout(LoadConfig(env).starColor)
  {
  }

  const ConnectionTimeoutProperty := "com.ibm.ws.jaxrs.client.connection.timeout"
  const ReceiveTimeoutProperty := "com.ibm.ws.jaxrs.client.receive.timeout"

  /** `headers_to_propagate`: the inbound headers copied onto the ratings call, in order. */
  const HeadersToPropagate: seq<string> := [
    "x-request-id",
    "x-ot-span-context",
    "x-datadog-trace-id",
    "x-datadog-parent-id",
    "x-datadog-sampling-priority",
    "traceparent",
    "tracestate",
    "x-cloud-trace-context",
    "grpc-trace-bin",
    "x-b3-traceid",
    "x-b3-spanid",
    "x-b3-parentspanid",
    "x-b3-sampled",
    "x-b3-flags",
    "sw8",
    "end-user",
    "user-agent",
    "cookie",
    "authorization",
    "jwt"
  ]

  /**
   * The headers an allowlist walk attaches, in walk order: each listed name
   * whose inbound value is not null (here: which the inbound map holds).
   */
  function Forwarded(names: seq<string>, inbound: map<string, string>): (out: seq<(string, string)>)
    ensures |out| <= |names|
  {
    if names == [] then []
    else
      var name := names[|names| - 1];
      Forwarded(names[..|names| - 1], inbound) + (if name in inbound then [(name, inbound[name])] else [])
  }

  /** A header is forwarded exactly when it is listed and present, with its value unchanged. */
  lemma {:induction false} ForwardedExactly(names: seq<string>, inbound: map<string, string>, name: string, value: string)
    ensures (name, value) in Forwarded(names, inbound)
            <==> name in names && name in inbound && inbound[name] == value
  {
    if names != [] {
      var init := names[..|names| - 1];
      var last := names[|names| - 1];
      ForwardedExactly(init, inbound, name, value);
      assert names == init + [last];
      assert name in names <==> name in init || name == last;
    }
  }

  /** Nothing outside the allowlist is forwarded, and everything listed and present is. */
  lemma ForwardedHeaders(inbound: map<string, string>)
    ensures forall h :: h in Forwarded(HeadersToPropagate, inbound) ==> h.0 in HeadersToPropagate
    ensures forall name :: name in HeadersToPropagate && name in inbound ==>
              (name, inbound[name]) in Forwarded(HeadersToPropagate, inbound)
  {
    forall h | h in Forwarded(HeadersToPropagate, inbound) ensures h.0 in HeadersToPropagate {
      ForwardedExactly(HeadersToPropagate, inbound, h.0, h.1);
    }
    forall name | name in HeadersToPropagate && name in inbound
      ensures (name, inbound[name]) in Forwarded(HeadersToPropagate, inbound)
    {
      ForwardedExactly(HeadersToPropagate, inbound, name, inbound[name]);
    }
  }

  /** An unlisted header such as x-custom-unlisted never travels; x-request-id always does when present. */
  lemma ForwardingExamples(inbound: map<string, string>)
    ensures forall w :: ("x-custom-unlisted", w) !in Forwarded(HeadersToPropagate, inbound)
    ensures "x-request-id" in inbound ==>
              ("x-request-id", inbound["x-request-id"]) in Forwarded(HeadersToPropagate, inbound)
  {
    forall w ensures ("x-custom-unlisted", w) !in Forwarded(HeadersToPropagate, inbound) {
      ForwardedExactly(HeadersToPropagate, inbound, "x-custom-unlisted", w);
    }
    if "x-request-id" in inbound {
      ForwardedExactly(HeadersToPropagate, inbound, "x-request-id", inbound["x-request-id"]);
    }
  }

  /** The ratings call as prepared: address, deadlines and propagated headers. */
  datatype Request = Request(
    url: string,
    connectionTimeout: int,
    receiveTimeout: int,
    headers: seq<(string, string)>)

  /** The call the handler issues for `productId`, given the inbound headers. */
  function OutboundRequest(c: Config, productId: string, inbound: map<string, string>): (r: Request)
    ensures r.url == RatingsTarget(c, productId)
    ensures r.connectionTimeout == r.receiveTimeout == Timeout(c.starColor)
    ensures forall name, value :: (name, value) in r.headers
              <==> name in HeadersToPropagate && name in inbound && inbound[name] == value
  {
    var headers := Forwarded(HeadersToPropagate, inbound);
    assert forall name, value :: (name, value) in headers
              <==> name in HeadersToPropagate && name in inbound && inbound[name] == value
    by {
      forall name, value ensures (name, value) in headers
              <==> name in HeadersToPropagate && name in inbound && inbound[name] == value
      {
        ForwardedExactly(HeadersToPropagate, inbound, name, value);
      }
    }
    Request(RatingsTarget(c, productId), Timeout(c.starColor), Timeout(c.starColor), headers)
  }

  /** A JSON value as `javax.json` hands it over; strings, arrays and literals are `JOther`. */
  datatype JsonValue = JNumber(n: int) | JObject(fields: map<string, JsonValue>) | JOther
  type JsonObject = map<string, JsonValue>

  /** How the ratings call ended: a status with the parsed body, or a `ProcessingException`. */
  datatype Downstream = Responded(status: int, body: JsonObject) | ProcessingFailure

  /** `cb.property(...)`: the client builder collects its properties. */
  class ClientBuilder {
    var properties: map<string, int>

    constructor ()
      ensures properties == map[]
    {
      properties := map[];
    }

    method Property(name: string, value: int)
      modifies this
      ensures properties == old(properties)[name := value]
    {
      properties := properties[name := value];
    }
  }

  /** `Invocation.Builder`: the request being prepared, with the headers attached so far. */
  class InvocationBuilder {
    const target: string
    var headers: seq<(string, string)>

    constructor (target: string)
      ensures this.target == target && headers == []
    {
      this.target := target;
      headers := [];
    }

    method Header(name: string, value: string)
      modifies this
      ensures headers == old(headers) + [(name, value)]
    {
      headers := headers + [(name, value)];
    }
  }

  /**
   * `getRatings`: prepares the call (deadline, address, forwarded headers),
   * and turns its outcome into the parsed body, or None for a status other
   * than 200 or a transport failure.
   */
  method GetRatings(c: Config, productId: string, requestHeaders: map<string, string>, downstream: Downstream)
    returns (sent: Request, ratingsResponse: Option<JsonObject>)
    ensures sent == OutboundRequest(c, productId, requestHeaders)
    ensures ratingsResponse.Some? <==> downstream.Responded? && downstream.status == 200
    ensures ratingsResponse.Some? ==> ratingsResponse.value == downstream.body
  {
    var cb := new ClientBuilder();
    var timeout := if c.starColor == "black" then 10000 else 2500;
    cb.Property(ConnectionTimeoutProperty, timeout);
    cb.Property(ReceiveTimeoutProperty, timeout);
    var builder := new InvocationBuilder(RatingsService(c) + "/" + productId);
    ghost var properties := cb.properties;
    for i := 0 to |HeadersToPropagate|
      invariant cb.properties == properties
      invariant builder.headers == Forwarded(HeadersToPropagate[..i], requestHeaders)
    {
      assert HeadersToPropagate[..i + 1][..i] == HeadersToPropagate[..i];
      var header := HeadersToPropagate[i];
      if header in requestHeaders {
        builder.Header(header, requestHeaders[header]);
      }
    }
    assert HeadersToPropagate[..|HeadersToPropagate|] == HeadersToPropagate;
    sent := Request(builder.target, cb.properties[ConnectionTimeoutProperty],
                    cb.properties[ReceiveTimeoutProperty], builder.headers);
    match downstream
    case ProcessingFailure =>
      ratingsResponse := None;
    case Responded(statusCode, body) =>
      if statusCode == 200 {
        ratingsResponse := Some(body);
      } else {
        ratingsResponse := None;
      }
  }

  // ---------------------------------------------------------------------
  // The payload
  // ---------------------------------------------------------------------

  /** A reviewer's rating block: stars and colour, or the unavailability marker. */
  datatype Rating = Stars(stars: int, color: string) | Unavailable

  datatype Review = Review(reviewer: string, text: string, rating: Option<Rating>)

  datatype Payload = Payload(id: string, podname: string, clustername: string, reviews: seq<Review>)

  const Reviewer1Text := "A science-fiction masterpiece. Nolan executes a marvelous direction that slowly but efficiently puts in place a dark world creating a necessity to save humanity. Add to that great performances from Nolan and Hathaway plus a great score from Hans Zimmer. The result is on the best science-fiction movies of all time."
  const Reviewer2Text := "This is first time ever that i claped to a movie, and i mean EVER. This is just incredible. There's no other movie as close. It could easily be the best I've ever seen. Just wow...."

  /** The rating block one reviewer gets; -1 is the "no value" sentinel. */
  function RatingFor(ratingsEnabled: bool, stars: int, starColor: string): (r: Option<Rating>)
    ensures r.None? <==> !ratingsEnabled
    ensures r == Some(Unavailable) <==> ratingsEnabled && stars == -1
    ensures r.Some? && r.value.Stars? <==> ratingsEnabled && stars != -1
    ensures r.Some? && r.value.Stars? ==> r.value.stars == stars && r.value.color == starColor
  {
    if !ratingsEnabled then None
    else if stars != -1 then Some(Stars(stars, starColor))
    else Some(Unavailable)
  }

  /** The payload for one product, given the two star values. */
  function ReviewsPayload(c: Config, productId: string, starsReviewer1: int, starsReviewer2: int): (p: Payload)
    ensures p.id == productId
    ensures p.podname == JavaString(c.podHostname) && p.clustername == JavaString(c.clustername)
    ensures |p.reviews| == 2
    ensures p.reviews[0].reviewer == "Reviewer1" && p.reviews[1].reviewer == "Reviewer2"
    ensures p.reviews[0].text == Reviewer1Text && p.reviews[1].text == Reviewer2Text
    ensures p.reviews[0].rating == RatingFor(c.ratingsEnabled, starsReviewer1, c.starColor)
    ensures p.reviews[1].rating == RatingFor(c.ratingsEnabled, starsReviewer2, c.starColor)
  {
    Payload(productId, JavaString(c.podHostname), JavaString(c.clustername), [
      Review("Reviewer1", Reviewer1Text, RatingFor(c.ratingsEnabled, starsReviewer1, c.starColor)),
      Review("Reviewer2", Reviewer2Text, RatingFor(c.ratingsEnabled, starsReviewer2, c.starColor))
    ])
  }

  function RenderRating(r: Option<Rating>): string
  {
    match r
    case None => ""
    case Some(Stars(n, color)) =>
      ", \"rating\": {\"stars\": " + Numbers.IntToString(n) + ", \"color\": \"" + color + "\"}"
    case Some(Unavailable) =>
      ", \"rating\": {\"error\": \"Ratings service is currently unavailable\"}"
  }

  function RenderReview(r: Review): string
  {
    "{" + ("  \"reviewer\": \"" + r.reviewer + "\",") + ("  \"text\": \"" + r.text + "\"") + RenderRating(r.rating) + "}"
  }

  function RenderReviews(rs: seq<Review>): string
  {
    if rs == [] then ""
    else if |rs| == 1 then RenderReview(rs[0])
    else RenderReview(rs[0]) + "," + RenderReviews(rs[1..])
  }

  /** The JSON text of a payload, laid out as the handler writes it (no escaping). */
  function RenderPayload(p: Payload): string
  {
    "{"
    + ("\"id\": \"" + p.id + "\",")
    + ("\"podname\": \"" + p.podname + "\",")
    + ("\"clustername\": \"" + p.clustername + "\",")
    + "\"reviews\": ["
    + RenderReviews(p.reviews)
    + "]"
    + "}"
  }

  /** `getJsonResponse`: writes the payload text piece by piece. */
  method GetJsonResponse(c: Config, productId: string, starsReviewer1: int, starsReviewer2: int)
    returns (result: string)
    ensures result == RenderPayload(ReviewsPayload(c, productId, starsReviewer1, starsReviewer2))
  {
    ghost var p := ReviewsPayload(c, productId, starsReviewer1, starsReviewer2);
    ReviewerLines();
    result := "{";
    result := result + ("\"id\": \"" + productId + "\",");
    result := result + ("\"podname\": \"" + JavaString(c.podHostname) + "\",");
    result := result + ("\"clustername\": \"" + JavaString(c.clustername) + "\",");
    result := result + "\"reviews\": [";
    ghost var head := result;

    // reviewer 1
    result := result + "{";
    result := result + "  \"reviewer\": \"Reviewer1\",";
    result := result + ("  \"text\": \"" + Reviewer1Text + "\"");
    ghost var beforeRating := result;
    if c.ratingsEnabled {
      if starsReviewer1 != -1 {
        result := result + (", \"rating\": {\"stars\": " + Numbers.IntToString(starsReviewer1)
                            + ", \"color\": \"" + c.starColor + "\"}");
        assert p.reviews[0].rating == Some(Stars(starsReviewer1, c.starColor));
      } else {
        result := result + ", \"rating\": {\"error\": \"Ratings service is currently unavailable\"}";
        assert p.reviews[0].rating == Some(Unavailable);
      }
    } else {
      assert p.reviews[0].rating == None;
      assert result == beforeRating + "";
    }
    assert result == beforeRating + RenderRating(p.reviews[0].rating);
    result := result + "}";
    ReviewWritten(head, p.reviews[0], "  \"reviewer\": \"Reviewer1\",", "  \"text\": \"" + Reviewer1Text + "\"");
    ghost var afterFirst := result;
    result := result + ",";

    // reviewer 2
    result := result + "{";
    result := result + "  \"reviewer\": \"Reviewer2\",";
    result := result + ("  \"text\": \"" + Reviewer2Text + "\"");
    beforeRating := result;
    if c.ratingsEnabled {
      if starsReviewer2 != -1 {
        result := result + (", \"rating\": {\"stars\": " + Numbers.IntToString(starsReviewer2)
                            + ", \"color\": \"" + c.starColor + "\"}");
        assert p.reviews[1].rating == Some(Stars(starsReviewer2, c.starColor));
      } else {
        result := result + ", \"rating\": {\"error\": \"Ratings service is currently unavailable\"}";
        assert p.reviews[1].rating == Some(Unavailable);
      }
    } else {
      assert p.reviews[1].rating == None;
      assert result == beforeRating + "";
    }
    assert result == beforeRating + RenderRating(p.reviews[1].rating);
    result := result + "}";
    ReviewWritten(afterFirst + ",", p.reviews[1], "  \"reviewer\": \"Reviewer2\",", "  \"text\": \"" + Reviewer2Text + "\"");
    assert RenderReviews(p.reviews) == RenderReview(p.reviews[0]) + "," + RenderReview(p.reviews[1]);
    Append3(head, RenderReview(p.reviews[0]), ",", RenderReview(p.reviews[1]));

    result := result + "]";
    result := result + "}";
  }

  /** Writing a review's pieces one after another writes the rendered review. */
  lemma ReviewWritten(prefix: string, r: Review, reviewerLine: string, textLine: string)
    requires reviewerLine == "  \"reviewer\": \"" + r.reviewer + "\","
    requires textLine == "  \"text\": \"" + r.text + "\""
    ensures prefix + "{" + reviewerLine + textLine + RenderRating(r.rating) + "}" == prefix + RenderReview(r)
  {
  }

  /** The reviewer lines as the handler writes them, one literal each. */
  lemma ReviewerLines()
    ensures "  \"reviewer\": \"Reviewer1\"," == "  \"reviewer\": \"" + "Reviewer1" + "\","
    ensures "  \"reviewer\": \"Reviewer2\"," == "  \"reviewer\": \"" + "Reviewer2" + "\","
  {
  }

  lemma Append3(a: string, b: string, c: string, d: string)
    ensures a + b + c + d == a + (b + c + d)
  {
  }

  // ---------------------------------------------------------------------
  // The two endpoints
  // ---------------------------------------------------------------------

  datatype Response = Response(status: int, contentType: string, entity: string)

  /** `GET /health`. */
  function Health(): (r: Response)
    ensures r.status == 200 && r.contentType == "application/json"
    ensures r.entity == "{\"status\": \"Reviews is healthy\"}"
  {
    Response(200, "application/json", "{\"status\": \"Reviews is healthy\"}")
  }

  /**
   * The body shapes the handler can read without throwing: a `ratings`
   * entry, when present, is an object whose reviewer entries are numbers.
   */
  predicate ReadableRatings(body: JsonObject)
  {
    "ratings" in body ==>
      && body["ratings"].JObject?
      && ("Reviewer1" in body["ratings"].fields ==> body["ratings"].fields["Reviewer1"].JNumber?)
      && ("Reviewer2" in body["ratings"].fields ==> body["ratings"].fields["Reviewer2"].JNumber?)
  }

  /**
   * The answers the handler turns into a payload: with ratings enabled, a
   * 200 answer must be readable (elsewhere `getJsonObject` or `getInt` throws).
   */
  predicate HandledAnswer(c: Config, downstream: Downstream)
  {
    c.ratingsEnabled && downstream.Responded? && downstream.status == 200 ==> ReadableRatings(downstream.body)
  }

  /**
   * The reviewer's number in a 200 answer, if it has one. For a readable
   * answer (see `ReadableRatings`) None means the answer has no entry for it.
   */
  function ReportedStars(downstream: Downstream, reviewer: string): (r: Option<int>)
    ensures r.Some? ==> downstream.Responded? && downstream.status == 200 && "ratings" in downstream.body
                        && downstream.body["ratings"].JObject? && reviewer in downstream.body["ratings"].fields
    ensures downstream.Responded? && downstream.status == 200 && ReadableRatings(downstream.body)
            && (reviewer == "Reviewer1" || reviewer == "Reviewer2")
            && "ratings" in downstream.body && reviewer in downstream.body["ratings"].fields
            ==> r == Some(downstream.body["ratings"].fields[reviewer].n)
  {
    if downstream.Responded? && downstream.status == 200
       && "ratings" in downstream.body && downstream.body["ratings"].JObject?
       && reviewer in downstream.body["ratings"].fields
       && downstream.body["ratings"].fields[reviewer].JNumber?
    then Some(downstream.body["ratings"].fields[reviewer].n)
    else None
  }

  /**
   * The star value the handler settles on for `reviewer`, for an answer it
   * can read: the number the ratings service reported for it, or -1 when
   * ratings are disabled, the call failed, the status is not 200, or the
   * answer holds no entry for the reviewer.
   */
  function ReviewerStars(c: Config, downstream: Downstream, reviewer: string): (r: int)
    requires HandledAnswer(c, downstream)
    ensures !c.ratingsEnabled ==> r == -1
    ensures c.ratingsEnabled && ReportedStars(downstream, reviewer).None? ==> r == -1
    ensures c.ratingsEnabled && ReportedStars(downstream, reviewer).Some? ==> r == ReportedStars(downstream, reviewer).value
  {
    if !c.ratingsEnabled then -1
    else
      match ReportedStars(downstream, reviewer)
      case None => -1
      case Some(n) => n
  }

  /** The payload the handler answers with for an answer it can read. */
  function ExpectedPayload(c: Config, productId: int, downstream: Downstream): (p: Payload)
    requires HandledAnswer(c, downstream)
    ensures p.id == Numbers.IntToString(productId) && |p.reviews| == 2
    ensures p.reviews[0].rating == RatingFor(c.ratingsEnabled, ReviewerStars(c, downstream, "Reviewer1"), c.starColor)
    ensures p.reviews[1].rating == RatingFor(c.ratingsEnabled, ReviewerStars(c, downstream, "Reviewer2"), c.starColor)
  {
    ReviewsPayload(c, Numbers.IntToString(productId),
                   ReviewerStars(c, downstream, "Reviewer1"), ReviewerStars(c, downstream, "Reviewer2"))
  }

  /**
   * `GET /reviews/{productId}`: always 200 with the payload; the ratings call
   * is made exactly when ratings are enabled.
   */
  method BookReviewsById(c: Config, productId: int, requestHeaders: map<string, string>, downstream: Downstream)
    returns (resp: Response, sent: Option<Request>)
    requires HandledAnswer(c, downstream)
    ensures resp.status == 200 && resp.contentType == "application/json"
    ensures resp.entity == RenderPayload(ExpectedPayload(c, productId, downstream))
    ensures sent.Some? <==> c.ratingsEnabled
    ensures sent.Some? ==> sent.value == OutboundRequest(c, Numbers.IntToString(productId), requestHeaders)
  {
    var starsReviewer1 := -1;
    var starsReviewer2 := -1;
    sent := None;

    if c.ratingsEnabled {
      var request, ratingsResponse := GetRatings(c, Numbers.IntToString(productId), requestHeaders, downstream);
      sent := Some(request);
      if ratingsResponse.Some? {
        if "ratings" in ratingsResponse.value {
          var ratings := ratingsResponse.value["ratings"].fields;
          if "Reviewer1" in ratings {
            starsReviewer1 := ratings["Reviewer1"].n;
          }
          if "Reviewer2" in ratings {
            starsReviewer2 := ratings["Reviewer2"].n;
          }
        }
      }
    }

    assert starsReviewer1 == ReviewerStars(c, downstream, "Reviewer1");
    assert starsReviewer2 == ReviewerStars(c, downstream, "Reviewer2");
    var jsonResStr := GetJsonResponse(c, Numbers.IntToString(productId), starsReviewer1, starsReviewer2);
    resp := Response(200, "application/json", jsonResStr);
  }

  // ---------------------------------------------------------------------
  // What the payload says about each reviewer
  // ---------------------------------------------------------------------

  /**
   * The three ways a reviewer's entry can come out: no rating key when
   * ratings are disabled, stars in the configured colour when the ratings
   * service reported a value other than -1, the error block otherwise.
   */
  lemma ReviewerOutcome(c: Config, productId: int, downstream: Downstream, i: nat)
    requires i < 2 && HandledAnswer(c, downstream)
    ensures var p := ExpectedPayload(c, productId, downstream);
            var reported := ReportedStars(downstream, if i == 0 then "Reviewer1" else "Reviewer2");
            && |p.reviews| == 2
            && (p.reviews[i].rating.None? <==> !c.ratingsEnabled)
            && (forall n :: p.reviews[i].rating == Some(Stars(n, c.starColor)) <==>
                  c.ratingsEnabled && reported == Some(n) && n != -1)
            && (p.reviews[i].rating == Some(Unavailable) <==>
                  c.ratingsEnabled && (reported.None? || reported == Some(-1)))
  {
  }

  /** A failed ratings call (transport error or any status but 200) shows the error block twice. */
  lemma FailureIsSurfaced(c: Config, productId: int, downstream: Downstream)
    requires c.ratingsEnabled
    requires downstream.ProcessingFailure? || downstream.status != 200
    ensures var p := ExpectedPayload(c, productId, downstream);
            |p.reviews| == 2 && p.reviews[0].rating == Some(Unavailable) && p.reviews[1].rating == Some(Unavailable)
  {
  }

  /** With ratings disabled neither review carries a rating, whatever the ratings service would say. */
  lemma DisabledHidesRatings(c: Config, productId: int, downstream: Downstream)
    requires !c.ratingsEnabled
    ensures var p := ExpectedPayload(c, productId, downstream);
            |p.reviews| == 2 && p.reviews[0].rating.None? && p.reviews[1].rating.None?
  {
  }

  /** The example answer {"ratings": {"Reviewer1": 5, "Reviewer2": 4}}. */
  lemma ExampleAnswer(c: Config, productId: int)
    requires c.ratingsEnabled
    ensures var d := Responded(200, map["ratings" := JObject(map["Reviewer1" := JNumber(5), "Reviewer2" := JNumber(4)])]);
            var p := ExpectedPayload(c, productId, d);
            && p.reviews[0].rating == Some(Stars(5, c.starColor))
            && p.reviews[1].rating == Some(Stars(4, c.starColor))
  {
  }

  /** Each reviewer's entry depends only on that reviewer's own entry in the answer. */
  lemma ReviewersIndependent(c: Config, productId: int, d1: Downstream, d2: Downstream, i: nat)
    requires i < 2 && HandledAnswer(c, d1) && HandledAnswer(c, d2)
    requires ReportedStars(d1, if i == 0 then "Reviewer1" else "Reviewer2")
             == ReportedStars(d2, if i == 0 then "Reviewer1" else "Reviewer2")
    ensures ExpectedPayload(c, productId, d1).reviews[i] == ExpectedPayload(c, productId, d2).reviews[i]
  {
  }

  /** Every payload names the product and holds Reviewer1 then Reviewer2. */
  lemma PayloadShape(c: Config, productId: int, downstream: Downstream)
    requires HandledAnswer(c, downstream)
    ensures var p := ExpectedPayload(c, productId, downstream);
            && p.id == Numbers.IntToString(productId)
            && p.podname == JavaString(c.podHostname) && p.clustername == JavaString(c.clustername)
            && |p.reviews| == 2
            && p.reviews[0].reviewer == "Reviewer1" && p.reviews[0].text == Reviewer1Text
            && p.reviews[1].reviewer == "Reviewer2" && p.reviews[1].text == Reviewer2Text
  {
  }
}
