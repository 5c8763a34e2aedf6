# Bookinfo reviews and details handlers, modelled in Dafny

This project models the request handling of two services of the Bookinfo demo.

- **Reviews** (`LibertyRestEndpoint.java`) answers `GET /reviews/{productId}`. It holds configuration read once from the environment. When ratings are enabled, it makes one call to the ratings service. That call goes to `http://<host><.domain>:<port>/ratings/<productId>`. It copies an allowlist of 20 tracing, session and auth headers. Its deadline is 10000 ms when the star colour is `"black"` and 2500 ms otherwise. The handler then turns the outcome (status 200 with a parsed body, another status, or a `ProcessingException`) into two star values, with -1 meaning "none". From those it writes a JSON payload: the product id, pod and cluster names, and exactly two reviews. Each review has no `rating` key (ratings disabled), a `{stars, color}` block, or the "Ratings service is currently unavailable" block. `GET /health` always answers 200 with a fixed body.
- **Details** (`details.rb`) answers `/details/...`. It keeps the request headers whose names are on the same 20-name allowlist. It reads the movie id from the last path segment with Ruby's `Integer()`. It answers either the constant movie record carrying that id, or status 400 with `{"error":"please provide numeric movie id"}`. `/health` always answers 200 with `{"status":"Movie Details is healthy"}`.

The HTTP transport is not modelled. What the ratings service answered is an input (`Reviews.Downstream`): `Responded(status, body)` or `ProcessingFailure`. The parsed JSON body is a map. The environment is a record passed in (`Reviews.Environment`).

Files:
- `wrappers.dfy`: `Option`.
- `numbers.dfy`: Java `Integer.toString` and Ruby `Integer()` on decimal and octal text, with the round trip between them.
- `paths.dfy`: Ruby `String#split('/')` and `pathParts[-1]`.
- `reviews.dfy`: the reviews handler.
- `details.dfy`: the details handler.
- `cross_service.dfy`: the two allowlists agree.

## Model

| member | source | states |
|---|---|---|
| `Reviews.LoadConfig` | samples/bookinfo/src/reviews/reviews-application/src/main/java/application/rest/LibertyRestEndpoint.java:39-46 | Each unset variable takes its default: colour "black", host "ratings", port "9080", domain "". A set domain gets a "." prefix. Ratings are enabled exactly for "true" in any letter case. Pod and cluster names are passed through. |
| `Reviews.TargetFromEnvironment` | samples/bookinfo/src/reviews/reviews-application/src/main/java/application/rest/LibertyRestEndpoint.java:40-44 | The ratings call goes to "http://" + host + optional "."-domain + ":" + port + "/ratings/" + productId, each part defaulted as above. |
| `Reviews.DefaultTarget` | samples/bookinfo/src/reviews/reviews-application/src/main/java/application/rest/LibertyRestEndpoint.java:41-44 | With host, domain and port unset, the target is "http://ratings:9080/ratings/" + productId. |
| `Reviews.Timeout` | samples/bookinfo/src/reviews/reviews-application/src/main/java/application/rest/LibertyRestEndpoint.java:147 | The deadline is 10000 ms exactly when the star colour is "black", and 2500 ms exactly when it is not. |
| `Reviews.DefaultColourWaitsLonger` | samples/bookinfo/src/reviews/reviews-application/src/main/java/application/rest/LibertyRestEndpoint.java:40 | With STAR_COLOR unset the call gets 10000 ms, which no other configuration exceeds. |
| `Reviews.ForwardedExactly` | samples/bookinfo/src/reviews/reviews-application/src/main/java/application/rest/LibertyRestEndpoint.java:153-158 | A (name, value) pair is attached by the allowlist walk iff the name is listed, the inbound value is non-null, and the value is the inbound one unchanged. |
| `Reviews.ForwardedHeaders` | samples/bookinfo/src/reviews/reviews-application/src/main/java/application/rest/LibertyRestEndpoint.java:49-102 | No header outside `headers_to_propagate` is ever attached, and every listed header present inbound is attached with its value. |
| `Reviews.ForwardingExamples` | samples/bookinfo/src/reviews/reviews-application/src/main/java/application/rest/LibertyRestEndpoint.java:53 | An unlisted header such as x-custom-unlisted is never forwarded, with any value. An inbound x-request-id always is. |
| `Reviews.OutboundRequest` | samples/bookinfo/src/reviews/reviews-application/src/main/java/application/rest/LibertyRestEndpoint.java:145-158 | The prepared call has the target address and the same deadline for connection and receive. Its headers are exactly the listed, present inbound headers with unchanged values. |
| `Reviews.GetRatings` | samples/bookinfo/src/reviews/reviews-application/src/main/java/application/rest/LibertyRestEndpoint.java:145-176 | The method sets both timeout properties and walks the allowlist, attaching headers, so the call sent equals `OutboundRequest`. It returns the parsed body iff the status is 200, and None for any other status and for a transport failure. |
| `Reviews.RatingFor` | samples/bookinfo/src/reviews/reviews-application/src/main/java/application/rest/LibertyRestEndpoint.java:115-122 | Disabled gives no rating block. Enabled with stars -1 gives the error block. Enabled with any other value gives stars with exactly that value and the configured colour. |
| `Reviews.ReviewsPayload` | samples/bookinfo/src/reviews/reviews-application/src/main/java/application/rest/LibertyRestEndpoint.java:104-143 | The payload carries the product id, the pod and cluster names (a null one as "null") and exactly two reviews, Reviewer1 then Reviewer2. Each review's rating follows `RatingFor` on its own star value. |
| `Reviews.GetJsonResponse` | samples/bookinfo/src/reviews/reviews-application/src/main/java/application/rest/LibertyRestEndpoint.java:104-143 | The text built piece by piece with `+=` is the JSON rendering of that payload. |
| `Reviews.Health` | samples/bookinfo/src/reviews/reviews-application/src/main/java/application/rest/LibertyRestEndpoint.java:178-182 | The reviews health check always answers 200, application/json, {"status": "Reviews is healthy"}. |
| `Reviews.BookReviewsById` | samples/bookinfo/src/reviews/reviews-application/src/main/java/application/rest/LibertyRestEndpoint.java:184-207 | The response is always 200 JSON rendering the payload for the star values the ratings answer yields. The ratings call is made iff ratings are enabled, and it is the `OutboundRequest` for the product id's decimal text. |
| `Reviews.ReportedStars` | samples/bookinfo/src/reviews/reviews-application/src/main/java/application/rest/LibertyRestEndpoint.java:192-200 | A value is reported only from a 200 answer whose `ratings` entry is an object holding the reviewer. From a readable 200 answer holding the reviewer, it is exactly the reviewer's number. |
| `Reviews.ReviewerStars` | samples/bookinfo/src/reviews/reviews-application/src/main/java/application/rest/LibertyRestEndpoint.java:187-200 | For an answer the handler can read, a reviewer's star value is -1 with ratings disabled, -1 with ratings enabled and no reported value (failure, non-200 status, no `ratings` entry or no entry for the reviewer), and the reported value otherwise. |
| `Reviews.ExpectedPayload` | samples/bookinfo/src/reviews/reviews-application/src/main/java/application/rest/LibertyRestEndpoint.java:187-205 | For an answer the handler can read, the payload has the product id's decimal text and two reviews, each rated by `RatingFor` on that reviewer's star value. |
| `Reviews.ReviewerOutcome` | samples/bookinfo/src/reviews/reviews-application/src/main/java/application/rest/LibertyRestEndpoint.java:187-200 | For every answer the handler can read (a 200 answer with ratings enabled must be readable), each reviewer's entry has exactly one of three shapes. There is no rating iff ratings are disabled. Stars n in the configured colour appear iff ratings are enabled and a 200 answer reports n ≠ -1 for that reviewer. The error block appears iff ratings are enabled and there is no reported value or it is -1. |
| `Reviews.FailureIsSurfaced` | samples/bookinfo/src/reviews/reviews-application/src/main/java/application/rest/LibertyRestEndpoint.java:162-175 | With ratings enabled, a transport failure or a status other than 200 gives both reviews the error block. |
| `Reviews.DisabledHidesRatings` | samples/bookinfo/src/reviews/reviews-application/src/main/java/application/rest/LibertyRestEndpoint.java:187-190 | With ratings disabled neither review has a rating, whatever the ratings service would answer. |
| `Reviews.ExampleAnswer` | samples/bookinfo/src/reviews/reviews-application/src/main/java/application/rest/LibertyRestEndpoint.java:192-200 | The answer {"ratings": {"Reviewer1": 5, "Reviewer2": 4}} gives stars 5 and 4 in the configured colour. |
| `Reviews.ReviewersIndependent` | samples/bookinfo/src/reviews/reviews-application/src/main/java/application/rest/LibertyRestEndpoint.java:195-200 | For answers the handler can read, a reviewer's entry depends only on that reviewer's own value in the answer. |
| `Reviews.PayloadShape` | samples/bookinfo/src/reviews/reviews-application/src/main/java/application/rest/LibertyRestEndpoint.java:105-140 | Every payload has id = the product id's text, the pod and cluster names, and Reviewer1 then Reviewer2 with their texts, whatever the outcome. |
| `Numbers.IntToString` | samples/bookinfo/src/reviews/reviews-application/src/main/java/application/rest/LibertyRestEndpoint.java:191 | `Integer.toString` gives non-empty text that starts with "-" exactly for a negative number and is digits everywhere else. |
| `Numbers.ParseInteger` | samples/bookinfo/src/details/details.rb:47 | `Integer()` refuses the empty string. What it accepts starts with a sign or a digit and continues with digits only, and without a leading "-" its value is not negative. |
| `Numbers.ParseIntToString` | samples/bookinfo/src/details/details.rb:47 | Ruby's `Integer()` reads back every integer as Java's `Integer.toString` writes it. |
| `Numbers.DigitsValueOfNatToDigits` | samples/bookinfo/src/details/details.rb:47 | The decimal digits written for n have value n. |
| `Numbers.LeadingZeroIsOctal` | samples/bookinfo/src/details/details.rb:47 | A leading zero makes `Integer()` read octal: "010" is 8, "-017" is -15, "08" is refused. |
| `Numbers.NonNumericRejected` | samples/bookinfo/src/details/details.rb:46-50 | "abc", "", "-" and "1a" are not integers. |
| `Paths.SplitJoin` | samples/bookinfo/src/details/details.rb:42 | Splitting a path on "/" and joining the pieces gives the path back, and no piece holds a "/". |
| `Paths.LastSegment` | samples/bookinfo/src/details/details.rb:42-47 | `pathParts[-1]`, when it exists, is a non-empty piece without "/". |
| `Paths.LastSegmentAfterSlash` | samples/bookinfo/src/details/details.rb:42-47 | For a path ending in "/" + a non-empty segment without "/", `pathParts[-1]` is that segment. |
| `Paths.LastSegmentIgnoresTrailingSlash` | samples/bookinfo/src/details/details.rb:42-47 | A trailing "/" does not change `pathParts[-1]`, because Ruby's split drops trailing empty pieces. |
| `Details.GetForwardHeaders` | samples/bookinfo/src/details/details.rb:72-105 | A header is in the result iff the request has it and its name is in `incoming_headers`. Its value is the request's, unchanged. |
| `Details.GetMovieDetails` | samples/bookinfo/src/details/details.rb:61-70 | The record's id is the id asked for. |
| `Details.DetailsDependOnlyOnId` | samples/bookinfo/src/details/details.rb:61-70 | Two records differ at most in their id, whatever headers were passed. Title "Interstellar" and runtime 169 are fixed. |
| `Details.MovieId` | samples/bookinfo/src/details/details.rb:42-50 | With no last path segment there is no movie id. |
| `Details.MovieIdOfNumericPath` | samples/bookinfo/src/details/details.rb:42-52 | A path ending in "/" + the decimal text of n, with or without a trailing "/", yields movie id n. |
| `Details.MovieIdRejects` | samples/bookinfo/src/details/details.rb:46-50 | A last segment that is not an integer yields no movie id. |
| `Details.MovieIdOfEmptyPath` | samples/bookinfo/src/details/details.rb:42-47 | The empty path has no last segment, so no movie id. |
| `Details.MovieIdOfRootPath` | samples/bookinfo/src/details/details.rb:42-47 | "/" splits into no pieces, so it has no movie id. |
| `Details.DetailsJsonIdentifiesMovie` | samples/bookinfo/src/details/details.rb:51-52 | Two details bodies are equal only for the same movie id, whatever headers were passed. |
| `Details.ErrorJsonIsNotDetails` | samples/bookinfo/src/details/details.rb:52-55 | The 400 body, whatever its message, is never a details body. |
| `Details.HealthProc` | samples/bookinfo/src/details/details.rb:35-39 | The details health check sets status 200, body {"status":"Movie Details is healthy"}, content type application/json. |
| `Details.DetailsProc` | samples/bookinfo/src/details/details.rb:41-59 | On a numeric id the body is the JSON of the record with that id and the status is left unchanged. Otherwise the status is 400 and the body is {"error":"please provide numeric movie id"}. The content type is application/json either way. |
| `CrossService.SameAllowlist` | samples/bookinfo/src/details/details.rb:75-96 | The Ruby `incoming_headers` holds the same 20 names, in the same order, as the Java `headers_to_propagate` (LibertyRestEndpoint.java lines 53-101). |

## Left out

- The HTTP transport is not modelled: client building, `WebTarget`, `builder.get()`, and WEBrick server setup, port argument and shutdown. The ratings answer is an input, and the model covers every answer whose body parses to a JSON object.
- Timeout enforcement is not modelled. Only the choice of the deadline value is.
- Reviews.BookReviewsById: requires (as do `Reviews.ReviewerStars`, `Reviews.ExpectedPayload`, `Reviews.ReviewerOutcome`, `Reviews.ReviewersIndependent` and `Reviews.PayloadShape`), when ratings are enabled, a 200 body to be readable: its `ratings` entry, if present, is an object whose reviewer entries are numbers. The source throws an uncaught exception otherwise, and that path (an error response from the container) is not modelled. A 200 body that is not JSON at all cannot be expressed as an input.
- JSON numbers are unbounded integers. Java's 32-bit `int` for the product id and star values, and `getInt` truncating non-integral numbers, are not modelled. The conversion of a non-integer product-id path segment (a 404 from the container) is not modelled either.
- Environment reading is not modelled: the environment is a record passed in. `Boolean.valueOf` is modelled for ASCII letter case only.
- Header-name case: `getHeaderString`'s case-insensitive lookup, its joining of repeated headers, and WEBrick's lower-casing of names are not modelled. Inbound headers are a map from name to value, and a missing name stands for null.
- Numbers.ParseInteger: treats "0x"/"0b"/"0o"/"0d" prefixes, underscores between digits and surrounding whitespace as not numeric, although Ruby's `Integer()` accepts them. Plain signed decimal and leading-zero octal are modelled.
- Details.DetailsProc: answers 400 for ids such as "0x1A", "1_000" or " 42", which Ruby reads as numbers, because `Numbers.ParseInteger` refuses them.
- Details.MovieIdRejects: its premise `Numbers.ParseInteger(segment).None?` also holds for "0x1A", "1_000" and " 42", which Ruby accepts.
- Logging to standard output and error, and concurrent request handling, are not modelled.
- JSON string escaping is not modelled. The Java handler does none, and the Ruby handler's strings need none.
